/** The portfolio the dashboard builds: ticker -> invested amount, with the input checks and
    key normalisation of addToPortfolio, the deletion of removeFromPortfolio, and the derived
    total value and allocation (client/components/PortfolioDashboard.tsx). */
module PortfolioStore {
  import opened Wrappers
  import Text
  import NumberInput

  /** The portfolio object. `amounts` is the ticker -> amount map; `tickers` is the order in
      which Object.keys, Object.values and Object.entries enumerate it: the order keys were
      first inserted. */
  datatype Portfolio = Portfolio(tickers: seq<string>, amounts: map<string, real>)
  {
    /** Each key listed once, and the list names exactly the map's keys. */
    predicate Valid()
    {
      && Distinct(tickers)
      && (forall t :: t in amounts ==> t in tickers)
      && (forall t :: t in tickers ==> t in amounts)
    }

    /** The invariant addToPortfolio's checks maintain: every stored amount is positive. */
    predicate AmountsPositive()
    {
      forall t :: t in amounts ==> amounts[t] > 0.0
    }
  }

  /** No element listed twice. */
  predicate Distinct(ks: seq<string>)
  {
    forall i, j :: 0 <= i < j < |ks| ==> ks[i] != ks[j]
  }

  /** The portfolio at session start. */
  const Empty := Portfolio([], map[])

  /** The key a ticker is stored under: `ticker.toUpperCase().trim()`. */
  function NormalizeKey(ticker: string): (r: string)
    ensures |r| <= |ticker|
    ensures r == [] || (!Text.IsWhitespace(r[0]) && !Text.IsWhitespace(r[|r| - 1]))
    ensures Text.HasNoLower(r)
  {
    Text.TrimEnds(Text.ToUpper(ticker));
    Text.TrimUpperHasNoLower(ticker);
    Text.Trim(Text.ToUpper(ticker))
  }

  /** A stored key normalises to itself, so normalising is idempotent. */
  lemma NormalizeIdempotent(ticker: string)
    ensures NormalizeKey(NormalizeKey(ticker)) == NormalizeKey(ticker)
  {
    var u := Text.ToUpper(ticker);
    var lo, hi := Text.TrimSlice(u);
    Text.UpperIdempotent(ticker, lo, hi);
    assert Text.ToUpper(Text.Trim(u)) == Text.Trim(u);
    Text.TrimIdempotent(u);
  }

  /** The checks of addToPortfolio on the two input fields, and what it then stores: None
      when the trimmed ticker is empty, the amount text is empty or the amount parses to a
      number <= 0; otherwise the normalised key and the parsed amount. */
  function ParsedEntry(tickerText: string, amountText: string): (r: Option<(string, real)>)
    requires NumberInput.AmountTextSanitised(amountText)
    ensures r.None? <==>
      || Text.Trim(tickerText) == []
      || amountText == []
      || NumberInput.ParseNumber(amountText).value <= 0.0
    ensures r.Some? ==>
      && r.value.0 == NormalizeKey(tickerText)
      && r.value.0 != []
      && NumberInput.ParseNumber(amountText) == Some(r.value.1)
      && r.value.1 > 0.0
  {
    if Text.Trim(tickerText) == [] || amountText == [] || NumberInput.ParseNumber(amountText).value <= 0.0
    then None
    else
      Text.UpperKeepsBlankness(tickerText);
      Some((NormalizeKey(tickerText), NumberInput.ParseNumber(amountText).value))
  }

  /** `{ ...prev, [key]: amount }`: the key keeps its place if present, else goes last. */
  function Put(p: Portfolio, key: string, amount: real): (r: Portfolio)
    requires p.Valid()
    ensures r.Valid()
    ensures r.amounts.Keys == p.amounts.Keys + {key}
    ensures r.amounts[key] == amount
    ensures forall t :: t in p.amounts && t != key ==> r.amounts[t] == p.amounts[t]
    ensures key in p.amounts ==> r.tickers == p.tickers
    ensures key !in p.amounts ==> r.tickers == p.tickers + [key]
  {
    Portfolio(if key in p.amounts then p.tickers else p.tickers + [key], p.amounts[key := amount])
  }

  /** `ks` with every occurrence of `key` taken out, the rest in order. */
  function Without(ks: seq<string>, key: string): (r: seq<string>)
    ensures key !in r
    ensures forall t :: t in r <==> t in ks && t != key
    ensures key !in ks ==> r == ks
    ensures |r| <= |ks|
  {
    if ks == [] then []
    else Without(ks[..|ks| - 1], key) + (if ks[|ks| - 1] == key then [] else [ks[|ks| - 1]])
  }

  /** Taking elements out of a list of distinct elements leaves it distinct. */
  lemma {:induction false} WithoutDistinct(ks: seq<string>, key: string)
    requires Distinct(ks)
    ensures Distinct(Without(ks, key))
  {
    if ks != [] {
      var front, last := ks[..|ks| - 1], ks[|ks| - 1];
      WithoutDistinct(front, key);
      var rf := Without(front, key);
      assert last !in front;
      assert last !in rf;
      var r := Without(ks, key);
      assert r == rf + (if last == key then [] else [last]);
      forall i, j | 0 <= i < j < |r| ensures r[i] != r[j] {
        assert r[i] == rf[i];
        if j < |rf| {
          assert r[j] == rf[j];
          assert rf[i] != rf[j];
        } else {
          assert r[j] == last && rf[i] in rf;
        }
      }
    }
  }

  /** Taking out a key that occurs only at `i` closes the gap and keeps the rest in order. */
  lemma {:induction false} WithoutOnce(ks: seq<string>, key: string, i: nat)
    requires i < |ks| && ks[i] == key && key !in ks[..i] && key !in ks[i + 1..]
    ensures Without(ks, key) == ks[..i] + ks[i + 1..]
  {
    var front, last := ks[..|ks| - 1], ks[|ks| - 1];
    if i == |ks| - 1 {
      assert front == ks[..i];
    } else {
      assert last in ks[i + 1..];
      assert front[..i] == ks[..i] && front[i] == key;
      assert front[i + 1..] + [last] == ks[i + 1..];
      WithoutOnce(front, key, i);
    }
  }

  /** In a list of distinct elements, a key occurs once: removing it keeps the rest in order. */
  lemma WithoutOrder(ks: seq<string>, key: string)
    requires Distinct(ks)
    ensures key in ks ==>
      exists i :: 0 <= i < |ks| && ks[i] == key && Without(ks, key) == ks[..i] + ks[i + 1..]
  {
    if key in ks {
      var i :| 0 <= i < |ks| && ks[i] == key;
      assert key !in ks[..i] by {
        forall j | 0 <= j < i ensures ks[..i][j] != key {
          assert ks[..i][j] == ks[j];
        }
      }
      var post := ks[i + 1..];
      assert key !in post by {
        forall j | 0 <= j < |post| ensures post[j] != key {
          assert post[j] == ks[i + 1 + j];
        }
      }
      WithoutOnce(ks, key, i);
    }
  }

  /** The copy-and-delete of removeFromPortfolio. */
  function Delete(p: Portfolio, key: string): (r: Portfolio)
    requires p.Valid()
    ensures r.Valid()
    ensures r.amounts.Keys == p.amounts.Keys - {key}
    ensures forall t :: t in r.amounts ==> r.amounts[t] == p.amounts[t]
    ensures key !in p.amounts ==> r == p
    ensures key in p.amounts ==>
      exists i :: 0 <= i < |p.tickers| && p.tickers[i] == key && r.tickers == p.tickers[..i] + p.tickers[i + 1..]
  {
    WithoutDistinct(p.tickers, key);
    var rest := Without(p.tickers, key);
    if key in p.amounts then
      WithoutOrder(p.tickers, key);
      Portfolio(rest, p.amounts - {key})
    else
      assert rest == p.tickers && p.amounts - {key} == p.amounts;
      Portfolio(rest, p.amounts - {key})
  }

  /** Adding the amounts of `ks` left to right (`reduce((total, amount) => total + amount, 0)`). */
  function SumOf(ks: seq<string>, m: map<string, real>): real
    requires forall t :: t in ks ==> t in m
  {
    if ks == [] then 0.0 else SumOf(ks[..|ks| - 1], m) + m[ks[|ks| - 1]]
  }

  /** calculatePortfolioValue. */
  function Total(p: Portfolio): (r: real)
    requires p.Valid()
    ensures p.tickers == [] ==> r == 0.0
  {
    SumOf(p.tickers, p.amounts)
  }

  /** One row of getPortfolioAllocation. */
  datatype Allocation = Allocation(name: string, value: real, percentage: real, amount: real)

  /** getPortfolioAllocation: one row per ticker, in key order. */
  function Allocations(p: Portfolio): (r: seq<Allocation>)
    requires p.Valid()
    ensures |r| == |p.tickers|
    ensures forall i :: 0 <= i < |r| ==>
      && r[i].name == p.tickers[i]
      && r[i].value == r[i].amount == p.amounts[p.tickers[i]]
      && r[i].percentage == (if Total(p) > 0.0 then r[i].amount / Total(p) * 100.0 else 0.0)
  {
    var total := Total(p);
    seq(|p.tickers|, i requires 0 <= i < |p.tickers| =>
      var amount := p.amounts[p.tickers[i]];
      Allocation(p.tickers[i], amount, if total > 0.0 then amount / total * 100.0 else 0.0, amount))
  }

  /** The percentages of a list of rows, added up. */
  function PercentageSum(rows: seq<Allocation>): real
  {
    if rows == [] then 0.0 else PercentageSum(rows[..|rows| - 1]) + rows[|rows| - 1].percentage
  }

  /** Amounts that are all positive add up to a positive total unless there are none. */
  lemma {:induction false} SumPositive(ks: seq<string>, m: map<string, real>)
    requires forall t :: t in ks ==> t in m && m[t] > 0.0
    ensures ks == [] <==> SumOf(ks, m) == 0.0
    ensures SumOf(ks, m) >= 0.0
  {
    if ks != [] {
      SumPositive(ks[..|ks| - 1], m);
    }
  }

  /** The total of a valid portfolio is positive exactly when it holds something. */
  lemma TotalPositive(p: Portfolio)
    requires p.Valid() && p.AmountsPositive()
    ensures Total(p) > 0.0 <==> p.amounts != map[]
  {
    SumPositive(p.tickers, p.amounts);
    if p.tickers != [] {
      assert p.tickers[0] in p.amounts;
    }
  }

  /** Shares of a common total add up to the share of the sum. */
  lemma ShareAdd(x: real, a: real, total: real)
    requires total > 0.0
    ensures x / total * 100.0 + a / total * 100.0 == (x + a) / total * 100.0
  {
  }

  lemma {:induction false} PercentageSumOfShares(rows: seq<Allocation>, ks: seq<string>, m: map<string, real>, total: real)
    requires |rows| == |ks| && total > 0.0
    requires forall t :: t in ks ==> t in m
    requires forall i :: 0 <= i < |rows| ==> rows[i].percentage == m[ks[i]] / total * 100.0
    ensures PercentageSum(rows) == SumOf(ks, m) / total * 100.0
  {
    if rows != [] {
      var n := |rows| - 1;
      PercentageSumOfShares(rows[..n], ks[..n], m, total);
      ShareAdd(SumOf(ks[..n], m), m[ks[n]], total);
    }
  }

  /** With something invested, the allocation percentages add up to exactly 100. */
  lemma PercentagesSumTo100(p: Portfolio)
    requires p.Valid() && Total(p) > 0.0
    ensures PercentageSum(Allocations(p)) == 100.0
  {
    PercentageSumOfShares(Allocations(p), p.tickers, p.amounts, Total(p));
    assert Total(p) / Total(p) == 1.0;
  }

  /** Each row's share of a portfolio of positive amounts lies in (0, 100]. */
  lemma PercentageBounds(p: Portfolio, i: nat)
    requires p.Valid() && p.AmountsPositive() && i < |p.tickers|
    ensures 0.0 < Allocations(p)[i].percentage <= 100.0
  {
    TotalPositive(p);
    AmountAtMostTotal(p.tickers, p.amounts, i);
    ShareBounds(p.amounts[p.tickers[i]], Total(p));
  }

  lemma ShareBounds(a: real, total: real)
    requires 0.0 < a <= total
    ensures 0.0 < a / total * 100.0 <= 100.0
  {
    assert a / total <= 1.0;
  }

  lemma {:induction false} AmountAtMostTotal(ks: seq<string>, m: map<string, real>, i: nat)
    requires forall t :: t in ks ==> t in m && m[t] > 0.0
    requires i < |ks|
    ensures m[ks[i]] <= SumOf(ks, m)
  {
    var front := ks[..|ks| - 1];
    SumPositive(front, m);
    if i < |ks| - 1 {
      AmountAtMostTotal(front, m, i);
    }
  }

  /** A sum only looks at the keys it adds. */
  lemma {:induction false} SumAgrees(ks: seq<string>, m1: map<string, real>, m2: map<string, real>)
    requires forall t :: t in ks ==> t in m1 && t in m2 && m1[t] == m2[t]
    ensures SumOf(ks, m1) == SumOf(ks, m2)
  {
    if ks != [] {
      SumAgrees(ks[..|ks| - 1], m1, m2);
    }
  }

  /** Changing the amount of a key listed once changes the sum by the difference. */
  lemma {:induction false} SumAfterUpdate(ks: seq<string>, m: map<string, real>, key: string, amount: real)
    requires forall t :: t in ks ==> t in m
    requires Distinct(ks)
    requires key in ks
    ensures SumOf(ks, m[key := amount]) == SumOf(ks, m) - m[key] + amount
  {
    var front := ks[..|ks| - 1];
    if ks[|ks| - 1] == key {
      SumAgrees(front, m, m[key := amount]);
    } else {
      SumAfterUpdate(front, m, key, amount);
    }
  }

  /** Taking a key listed once out of the list takes its amount out of the sum. */
  lemma {:induction false} SumWithout(ks: seq<string>, m: map<string, real>, key: string)
    requires forall t :: t in ks ==> t in m
    requires Distinct(ks)
    requires key in ks
    ensures SumOf(Without(ks, key), m) == SumOf(ks, m) - m[key]
  {
    var front := ks[..|ks| - 1];
    if ks[|ks| - 1] == key {
      assert Without(ks, key) == Without(front, key) == front;
    } else {
      SumWithout(front, m, key);
    }
  }

  /** What adding a ticker does to calculatePortfolioValue: a new key adds its amount, an
      existing key's old amount is replaced by the new one. */
  lemma TotalAfterPut(p: Portfolio, key: string, amount: real)
    requires p.Valid()
    ensures key !in p.amounts ==> Total(Put(p, key, amount)) == Total(p) + amount
    ensures key in p.amounts ==> Total(Put(p, key, amount)) == Total(p) - p.amounts[key] + amount
  {
    var r := Put(p, key, amount);
    if key in p.amounts {
      SumAfterUpdate(p.tickers, p.amounts, key, amount);
    } else {
      assert r.tickers[..|r.tickers| - 1] == p.tickers;
      SumAgrees(p.tickers, p.amounts, r.amounts);
    }
  }

  /** Removing a held ticker takes its amount out of calculatePortfolioValue. */
  lemma TotalAfterDelete(p: Portfolio, key: string)
    requires p.Valid() && key in p.amounts
    ensures Total(Delete(p, key)) == Total(p) - p.amounts[key]
  {
    SumWithout(p.tickers, p.amounts, key);
    SumAgrees(Without(p.tickers, key), p.amounts, p.amounts - {key});
  }

  /** Storing a ticker that was not held and then removing it gives back the original
      portfolio, key order included. */
  lemma {:induction false} PutThenDelete(p: Portfolio, key: string, amount: real)
    requires p.Valid() && key !in p.amounts
    ensures Delete(Put(p, key, amount), key) == p
  {
    var ks := p.tickers + [key];
    assert ks[..|ks| - 1] == p.tickers;
    assert Without(ks, key) == Without(p.tickers, key) == p.tickers;
    assert p.amounts[key := amount] - {key} == p.amounts;
  }

  /** Storing a checked entry keeps every amount positive. */
  lemma PutKeepsPositive(p: Portfolio, key: string, amount: real)
    requires p.Valid() && p.AmountsPositive() && amount > 0.0
    ensures Put(p, key, amount).AmountsPositive()
  {
  }
}
