/** Scoring and labelling of single texts (api/analysis/sentiment.py). The
    VADER analyzer is a parameter: any function from text to a compound score. */
module Sentiment {

  /** `get_sentiment_compound_score`: an empty text scores 0 without asking
      the analyzer. */
  function CompoundScore(text: string, vader: string -> real): (r: real)
    ensures text == "" ==> r == 0.0
    ensures text != "" ==> r == vader(text)
  {
    if text == "" then 0.0 else vader(text)
  }

  /** VADER's compound score lies in [-1, 1]; the empty-text case keeps it there. */
  lemma CompoundScoreBounded(text: string, vader: string -> real)
    requires text != "" ==> -1.0 <= vader(text) <= 1.0
    ensures -1.0 <= CompoundScore(text, vader) <= 1.0
  {
  }

  datatype Label = Positive | Negative | Neutral

  const PositiveThreshold: real := 0.05
  const NegativeThreshold: real := -0.05

  /** `classify_sentiment`: the three labels split the real line at the two
      fixed thresholds, both inclusive towards their label. */
  function Classify(x: real): (l: Label)
    ensures l == Positive <==> x >= PositiveThreshold
    ensures l == Negative <==> x <= NegativeThreshold
    ensures l == Neutral <==> NegativeThreshold < x < PositiveThreshold
  {
    if x >= PositiveThreshold then Positive
    else if x <= NegativeThreshold then Negative
    else Neutral
  }

  function LabelName(l: Label): string {
    match l
    case Positive => "Positive"
    case Negative => "Negative"
    case Neutral => "Neutral"
  }

  function Rank(l: Label): int {
    match l
    case Negative => 0
    case Neutral => 1
    case Positive => 2
  }

  /** A higher score never gets a lower label. */
  lemma ClassifyMonotone(x: real, y: real)
    requires x <= y
    ensures Rank(Classify(x)) <= Rank(Classify(y))
  {
  }
}
