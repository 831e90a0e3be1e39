/** The JavaScript string operations the dashboard relies on: trim, case mapping, includes. */
module Text {

  /** The characters String.prototype.trim removes: WhiteSpace and LineTerminator. */
  predicate IsWhitespace(c: char)
  {
    c == ' ' || c == '\t' || c == '\n' || c == '\r' || c == '\U{000B}' || c == '\U{000C}'
    || c == '\U{00A0}' || c == '\U{1680}' || ('\U{2000}' <= c <= '\U{200A}')
    || c == '\U{2028}' || c == '\U{2029}' || c == '\U{202F}' || c == '\U{205F}'
    || c == '\U{3000}' || c == '\U{FEFF}'
  }

  /** Every character of `s` is whitespace. */
  predicate AllWhitespace(s: string)
  {
    forall i :: 0 <= i < |s| ==> IsWhitespace(s[i])
  }

  /** Drops leading whitespace. */
  function TrimStart(s: string): (r: string)
    ensures |r| <= |s| && r == s[|s| - |r|..]
    ensures AllWhitespace(s[..|s| - |r|])
    ensures r == [] || !IsWhitespace(r[0])
  {
    if s != [] && IsWhitespace(s[0]) then TrimStart(s[1..]) else s
  }

  /** Drops trailing whitespace. */
  function TrimEnd(s: string): (r: string)
    ensures |r| <= |s| && r == s[..|r|]
    ensures AllWhitespace(s[|r|..])
    ensures r == [] || !IsWhitespace(r[|r| - 1])
  {
    if s != [] && IsWhitespace(s[|s| - 1]) then TrimEnd(s[..|s| - 1]) else s
  }

  /** String.prototype.trim. */
  function Trim(s: string): string
  {
    TrimEnd(TrimStart(s))
  }

  /** A string trims to nothing exactly when it is all whitespace. */
  lemma TrimEmptyIff(s: string)
    ensures Trim(s) == [] <==> AllWhitespace(s)
  {
    if Trim(s) == [] {
      assert TrimStart(s) == [];
      assert s[..|s|] == s;
    }
  }

  /** ASCII upper-casing of one character. */
  function UpperChar(c: char): (r: char)
    ensures 'a' <= c <= 'z' ==> 'A' <= r <= 'Z'
    ensures !('a' <= c <= 'z') ==> r == c
  {
    if 'a' <= c <= 'z' then (c as int - 32) as char else c
  }

  /** ASCII lower-casing of one character. */
  function LowerChar(c: char): (r: char)
    ensures 'A' <= c <= 'Z' ==> 'a' <= r <= 'z'
    ensures !('A' <= c <= 'Z') ==> r == c
  {
    if 'A' <= c <= 'Z' then (c as int + 32) as char else c
  }

  /** String.prototype.toUpperCase, restricted to ASCII letters. */
  function ToUpper(s: string): (r: string)
    ensures |r| == |s|
    ensures forall i :: 0 <= i < |s| ==> r[i] == UpperChar(s[i])
  {
    seq(|s|, i requires 0 <= i < |s| => UpperChar(s[i]))
  }

  /** String.prototype.toLowerCase, restricted to ASCII letters. */
  function ToLower(s: string): (r: string)
    ensures |r| == |s|
    ensures forall i :: 0 <= i < |s| ==> r[i] == LowerChar(s[i])
  {
    seq(|s|, i requires 0 <= i < |s| => LowerChar(s[i]))
  }

  /** Lower-casing forgets any earlier upper-casing: case changes cannot change a
      case-insensitive comparison. */
  lemma LowerOfUpper(s: string)
    ensures ToLower(ToUpper(s)) == ToLower(s)
  {
    assert forall i :: 0 <= i < |s| ==> LowerChar(UpperChar(s[i])) == LowerChar(s[i]);
  }

  /** Upper-casing never turns whitespace into non-whitespace or back. */
  lemma UpperCharWhitespace(c: char)
    ensures IsWhitespace(UpperChar(c)) == IsWhitespace(c)
  {
    if 'a' <= c <= 'z' {
      assert 'A' <= UpperChar(c) <= 'Z';
    }
  }

  /** So a ticker that is blank before upper-casing is blank after it, and conversely. */
  lemma UpperKeepsBlankness(s: string)
    ensures Trim(ToUpper(s)) == [] <==> Trim(s) == []
  {
    TrimEmptyIff(s);
    TrimEmptyIff(ToUpper(s));
    forall i | 0 <= i < |s| ensures IsWhitespace(ToUpper(s)[i]) == IsWhitespace(s[i]) {
      UpperCharWhitespace(s[i]);
    }
  }

  /** Upper-casing twice is upper-casing once, and an upper-cased string has upper-cased
      slices. */
  lemma UpperIdempotent(s: string, lo: nat, hi: nat)
    requires lo <= hi <= |s|
    ensures ToUpper(ToUpper(s)) == ToUpper(s)
    ensures ToUpper(ToUpper(s)[lo..hi]) == ToUpper(s)[lo..hi]
  {
    assert forall c :: UpperChar(UpperChar(c)) == UpperChar(c);
  }

  /** A trimmed string is a slice of the original. */
  lemma TrimSlice(s: string) returns (lo: nat, hi: nat)
    ensures lo <= hi <= |s| && Trim(s) == s[lo..hi]
  {
    var t := TrimStart(s);
    var r := TrimEnd(t);
    lo := |s| - |t|;
    hi := lo + |r|;
    SliceOfSuffix(s, t, r);
  }

  lemma SliceOfSuffix(s: string, t: string, r: string)
    requires |t| <= |s| && t == s[|s| - |t|..]
    requires |r| <= |t| && r == t[..|r|]
    ensures r == s[|s| - |t|..|s| - |t| + |r|]
  {
  }

  /** A trimmed string is no longer than the original and neither begins nor ends with
      whitespace. */
  lemma TrimEnds(s: string)
    ensures |Trim(s)| <= |s|
    ensures Trim(s) == [] || (!IsWhitespace(Trim(s)[0]) && !IsWhitespace(Trim(s)[|Trim(s)| - 1]))
  {
    var t := TrimStart(s);
    var r := TrimEnd(t);
    if r != [] {
      assert r[0] == t[0];
    }
  }

  /** No lower-case ASCII letter occurs in `s`. */
  predicate HasNoLower(s: string)
  {
    forall i :: 0 <= i < |s| ==> !('a' <= s[i] <= 'z')
  }

  /** Trimming an upper-cased string leaves no lower-case ASCII letter. */
  lemma TrimUpperHasNoLower(s: string)
    ensures HasNoLower(Trim(ToUpper(s)))
  {
    var u := ToUpper(s);
    assert HasNoLower(u);
    var lo, hi := TrimSlice(u);
    HasNoLowerSlice(u, lo, hi);
  }

  lemma HasNoLowerSlice(u: string, lo: nat, hi: nat)
    requires lo <= hi <= |u| && HasNoLower(u)
    ensures HasNoLower(u[lo..hi])
  {
    var r := u[lo..hi];
    forall i | 0 <= i < |r| ensures !('a' <= r[i] <= 'z') {
      assert r[i] == u[lo + i];
    }
  }

  /** Trimming twice is trimming once. */
  lemma TrimIdempotent(s: string)
    ensures Trim(Trim(s)) == Trim(s)
  {
    var x := Trim(s);
    if x != [] {
      assert x[0] == TrimStart(s)[0];
      assert TrimStart(x) == x;
    }
  }

  /** `s` begins with `p`. */
  predicate StartsWith(s: string, p: string)
  {
    |p| <= |s| && s[..|p|] == p
  }

  /** String.prototype.includes: `p` occurs somewhere in `s`. */
  predicate Contains(s: string, p: string)
    decreases |s|
  {
    StartsWith(s, p) || (s != [] && Contains(s[1..], p))
  }

  /** An occurrence at offset `k` is found by the left-to-right search. */
  lemma {:induction false} ContainsAt(s: string, p: string, k: nat)
    requires k + |p| <= |s| && s[k..k + |p|] == p
    ensures Contains(s, p)
    decreases k
  {
    if k == 0 {
      assert s[..|p|] == p;
    } else {
      assert s[1..][k - 1..k - 1 + |p|] == s[k..k + |p|];
      ContainsAt(s[1..], p, k - 1);
    }
  }

  /** Conversely, every success of the search names an occurrence. */
  lemma {:induction false} ContainsWitness(s: string, p: string) returns (k: nat)
    requires Contains(s, p)
    ensures k + |p| <= |s| && s[k..k + |p|] == p
    decreases |s|
  {
    if StartsWith(s, p) {
      k := 0;
    } else {
      var j := ContainsWitness(s[1..], p);
      k := j + 1;
      assert s[1..][j..j + |p|] == s[k..k + |p|];
    }
  }
}
