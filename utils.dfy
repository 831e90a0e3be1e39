/** The pure helpers of client/lib/utils.ts: score banding and large-number units.
    Numbers are modelled as reals; the digit rendering of Intl.NumberFormat and toFixed is a
    parameter of the model, not part of it. */
module Utils {

  /** The four bands a portfolio score falls into, named by their colour. */
  datatype ScoreBand = Red | Orange | Yellow | Green

  /** Bands in order of merit: Red 0, Orange 1, Yellow 2, Green 3. */
  function Rank(b: ScoreBand): nat
  {
    match b
    case Red => 0
    case Orange => 1
    case Yellow => 2
    case Green => 3
  }

  /** The number of the thresholds 400, 600 and 800 that `score` reaches: the band's rank
      without the cascade of ifs. */
  function ThresholdsReached(score: real): (n: nat)
    ensures n <= 3
  {
    (if score >= 400.0 then 1 else 0) + (if score >= 600.0 then 1 else 0)
      + (if score >= 800.0 then 1 else 0)
  }

  /** The band of a score, read off the colour the dashboard gives it. */
  function Band(score: real): (b: ScoreBand)
    ensures b == Green <==> score >= 800.0
    ensures b == Yellow <==> 600.0 <= score < 800.0
    ensures b == Orange <==> 400.0 <= score < 600.0
    ensures b == Red <==> score < 400.0
    ensures Rank(b) == ThresholdsReached(score)
  {
    if score >= 800.0 then Green
    else if score >= 600.0 then Yellow
    else if score >= 400.0 then Orange
    else Red
  }

  function TextClass(b: ScoreBand): string
  {
    match b
    case Green => "text-green-600"
    case Yellow => "text-yellow-600"
    case Orange => "text-orange-600"
    case Red => "text-red-600"
  }

  function BadgeClass(b: ScoreBand): string
  {
    match b
    case Green => "bg-green-100 text-green-800"
    case Yellow => "bg-yellow-100 text-yellow-800"
    case Orange => "bg-orange-100 text-orange-800"
    case Red => "bg-red-100 text-red-800"
  }

  /** getScoreColor: the text colour class of a score. */
  function ScoreColor(score: real): (r: string)
    ensures r == TextClass(Band(score))
    ensures r == "text-green-600" <==> score >= 800.0
    ensures r == "text-yellow-600" <==> 600.0 <= score < 800.0
    ensures r == "text-orange-600" <==> 400.0 <= score < 600.0
    ensures r == "text-red-600" <==> score < 400.0
  {
    if score >= 800.0 then "text-green-600"
    else if score >= 600.0 then "text-yellow-600"
    else if score >= 400.0 then "text-orange-600"
    else "text-red-600"
  }

  /** getScoreBadgeColor: the badge classes of a score. */
  function ScoreBadgeColor(score: real): (r: string)
    ensures r == BadgeClass(Band(score))
  {
    if score >= 800.0 then "bg-green-100 text-green-800"
    else if score >= 600.0 then "bg-yellow-100 text-yellow-800"
    else if score >= 400.0 then "bg-orange-100 text-orange-800"
    else "bg-red-100 text-red-800"
  }

  /** A higher score never gets a worse band. */
  lemma BandMonotone(lo: real, hi: real)
    requires lo <= hi
    ensures Rank(Band(lo)) <= Rank(Band(hi))
  {
  }

  /** Distinct bands have distinct classes, so a colour names its band. */
  lemma ClassesDistinguishBands(a: ScoreBand, b: ScoreBand)
    requires a != b
    ensures TextClass(a) != TextClass(b) && BadgeClass(a) != BadgeClass(b)
  {
    assert TextClass(a)[5] != TextClass(b)[5];
    assert BadgeClass(a)[3] != BadgeClass(b)[3];
  }

  /** The badge of a score is in the same band as its text colour: the two functions agree
      on every score and never split a band differently. */
  lemma BadgeMatchesColor(s: real, t: real)
    ensures ScoreColor(s) == ScoreColor(t) <==> ScoreBadgeColor(s) == ScoreBadgeColor(t)
  {
    if Band(s) != Band(t) {
      ClassesDistinguishBands(Band(s), Band(t));
    }
  }

  /** The units formatLargeNumber chooses between. */
  datatype LargeUnit = Billions | Millions | Thousands | Plain

  function Divisor(u: LargeUnit): real
  {
    match u
    case Billions => 1000000000.0
    case Millions => 1000000.0
    case Thousands => 1000.0
    case Plain => 1.0
  }

  function Suffix(u: LargeUnit): string
  {
    match u
    case Billions => "B"
    case Millions => "M"
    case Thousands => "K"
    case Plain => ""
  }

  /** The branch of formatLargeNumber a value takes. */
  function UnitOf(value: real): (u: LargeUnit)
    ensures u == Billions <==> value >= 1000000000.0
    ensures u == Millions <==> 1000000.0 <= value < 1000000000.0
    ensures u == Thousands <==> 1000.0 <= value < 1000000.0
    ensures u == Plain <==> value < 1000.0
  {
    if value >= 1000000000.0 then Billions
    else if value >= 1000000.0 then Millions
    else if value >= 1000.0 then Thousands
    else Plain
  }

  /** The number the scaled branches print before their unit letter. */
  function Scaled(value: real): (r: real)
    ensures UnitOf(value) == Billions ==> r >= 1.0
    ensures UnitOf(value) in {Millions, Thousands} ==> 1.0 <= r < 1000.0
    ensures UnitOf(value) != Plain ==> r * Divisor(UnitOf(value)) == value
  {
    value / Divisor(UnitOf(value))
  }

  /** formatLargeNumber. `toFixed2` is Number.prototype.toFixed(2) and `formatCurrency` is the
      Intl currency formatter of utils.ts; the model chooses the branch and the divisor and
      leaves the digits to them. */
  function FormatLargeNumber(value: real, toFixed2: real -> string, formatCurrency: real -> string): (r: string)
    ensures UnitOf(value) == Plain ==> r == formatCurrency(value)
    ensures UnitOf(value) != Plain ==>
      && |r| == |toFixed2(Scaled(value))| + 2
      && r[0] == '$' && r[|r| - 1] == Suffix(UnitOf(value))[0]
      && r[1..|r| - 1] == toFixed2(Scaled(value))
  {
    if value >= 1000000000.0 then "$" + toFixed2(value / 1000000000.0) + "B"
    else if value >= 1000000.0 then "$" + toFixed2(value / 1000000.0) + "M"
    else if value >= 1000.0 then "$" + toFixed2(value / 1000.0) + "K"
    else formatCurrency(value)
  }
}
