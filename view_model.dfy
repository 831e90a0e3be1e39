/** The display helpers of client/components/PortfolioDashboard.tsx: the sign rule of
    formatPercentage and the sentiment colour and icon. */
module ViewModel {
  import opened Wrappers
  import Text

  /** formatPercentage: a '+' before non-negative values, then the value as formatNumber
      renders it (`digits`), then '%'. The digit rendering is Intl's and is a parameter here;
      it never starts with '+'. */
  function FormatPercentage(value: real, digits: string): (r: string)
    requires digits == [] || digits[0] != '+'
    ensures |r| == |digits| + (if value >= 0.0 then 2 else 1)
    ensures r[0] == '+' <==> value >= 0.0
    ensures r[|r| - 1] == '%'
    ensures value >= 0.0 ==> r[1..|r| - 1] == digits
    ensures value < 0.0 ==> r[..|r| - 1] == digits
  {
    (if value >= 0.0 then "+" else "") + digits + "%"
  }

  /** The classification the colour and the icon share. */
  datatype Sentiment = Positive | Negative | Neutral | Unknown

  /** The classifier: missing or empty text is Unknown; otherwise a case-insensitive search,
      "positive"/"bullish" first, then "negative"/"bearish", else Neutral. */
  function Classify(sentiment: Option<string>): (c: Sentiment)
    ensures c == Unknown <==> sentiment == None || sentiment == Some("")
    ensures c == Positive <==> sentiment.Some? && MentionsPositive(sentiment.value)
    ensures c == Negative <==>
      sentiment.Some? && !MentionsPositive(sentiment.value) && MentionsNegative(sentiment.value)
  {
    match sentiment
    case None => Unknown
    case Some(s) =>
      if s == "" then Unknown
      else if MentionsPositive(s) then Positive
      else if MentionsNegative(s) then Negative
      else Neutral
  }

  predicate MentionsPositive(s: string)
  {
    Text.Contains(Text.ToLower(s), "positive") || Text.Contains(Text.ToLower(s), "bullish")
  }

  predicate MentionsNegative(s: string)
  {
    Text.Contains(Text.ToLower(s), "negative") || Text.Contains(Text.ToLower(s), "bearish")
  }

  /** getSentimentColor, as the dashboard writes it. */
  function SentimentColor(sentiment: Option<string>): (r: string)
    ensures r == ColorOf(Classify(sentiment))
  {
    if sentiment == None || sentiment == Some("") then "bg-gray-500"
    else
      var s := Text.ToLower(sentiment.value);
      if Text.Contains(s, "positive") || Text.Contains(s, "bullish") then "bg-green-500"
      else if Text.Contains(s, "negative") || Text.Contains(s, "bearish") then "bg-red-500"
      else "bg-yellow-500"
  }

  function ColorOf(c: Sentiment): string
  {
    match c
    case Positive => "bg-green-500"
    case Negative => "bg-red-500"
    case Neutral => "bg-yellow-500"
    case Unknown => "bg-gray-500"
  }

  /** The icons getSentimentIcon chooses between. */
  datatype Icon = TrendingUp | TrendingDown | Activity

  /** getSentimentIcon, as the dashboard writes it. */
  function SentimentIcon(sentiment: Option<string>): (r: Icon)
    ensures r == IconOf(Classify(sentiment))
  {
    if sentiment == None || sentiment == Some("") then Activity
    else
      var s := Text.ToLower(sentiment.value);
      if Text.Contains(s, "positive") || Text.Contains(s, "bullish") then TrendingUp
      else if Text.Contains(s, "negative") || Text.Contains(s, "bearish") then TrendingDown
      else Activity
  }

  function IconOf(c: Sentiment): Icon
  {
    match c
    case Positive => TrendingUp
    case Negative => TrendingDown
    case Neutral => Activity
    case Unknown => Activity
  }

  /** The icon agrees with the colour: up exactly for green, down exactly for red. */
  lemma IconMatchesColor(sentiment: Option<string>)
    ensures SentimentIcon(sentiment) == TrendingUp <==> SentimentColor(sentiment) == "bg-green-500"
    ensures SentimentIcon(sentiment) == TrendingDown <==> SentimentColor(sentiment) == "bg-red-500"
  {
  }

  /** The match ignores case: upper-casing the text never changes its class. */
  lemma ClassifyIgnoresCase(s: string)
    ensures Classify(Some(Text.ToUpper(s))) == Classify(Some(s))
  {
    Text.LowerOfUpper(s);
  }

  /** "positive"/"bullish" wins over "negative"/"bearish" when both occur. */
  lemma PositiveWins(s: string)
    requires MentionsPositive(s) && MentionsNegative(s)
    ensures Classify(Some(s)) == Positive
  {
  }

  /** A text mentioning "bullish" anywhere, in any case, is positive: the example
      "Strong Bullish Outlook". */
  lemma StrongBullishOutlook()
    ensures Classify(Some("Strong Bullish Outlook")) == Positive
    ensures Classify(None) == Unknown
  {
    var lower := Text.ToLower("Strong Bullish Outlook");
    assert lower[7..14] == "bullish";
    Text.ContainsAt(lower, "bullish", 7);
  }

  /** The sign examples: -5.5 renders "-5.50%", 5.5 renders "+5.50%". */
  lemma PercentageExamples()
    ensures FormatPercentage(-5.5, "-5.50") == "-5.50%"
    ensures FormatPercentage(5.5, "5.50") == "+5.50%"
  {
  }
}
