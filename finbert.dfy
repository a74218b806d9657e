/** FinBERT scoring of post titles. `get_finbert_sentiment` is written twice,
    identically, in api/analysis/sentiment.py and api/hybrid_analysis.py; it is
    modelled once. The classifier is a parameter that maps the list of titles
    to the list of labels it assigns. */
module Finbert {
  import opened RedditData

  /** The argument as the guard sees it: a list of post summaries, or any
      other value (which `isinstance(posts, list)` rejects). */
  datatype PostsArgument = PostList(items: seq<PostSummary>) | NotAList

  /** `score_map.get(label, 0)`. */
  function LabelValue(name: string): int {
    if name == "positive" then 1
    else if name == "negative" then -1
    else 0
  }

  function LabelTotal(labels: seq<string>): int {
    if labels == [] then 0 else LabelTotal(labels[..|labels| - 1]) + LabelValue(labels[|labels| - 1])
  }

  lemma {:induction false} LabelTotalBounded(labels: seq<string>)
    ensures -|labels| <= LabelTotal(labels) <= |labels|
  {
    if labels != [] {
      LabelTotalBounded(labels[..|labels| - 1]);
    }
  }

  function Titles(posts: seq<PostSummary>): (ts: seq<string>)
    ensures |ts| == |posts| && forall i :: 0 <= i < |posts| ==> ts[i] == posts[i].title
  {
    seq(|posts|, i requires 0 <= i < |posts| => posts[i].title)
  }

  /** `get_finbert_sentiment`: 0 for an empty or non-list argument, otherwise
      the mean label value of the titles, which always lies in [-1, 1]. */
  function FinbertScore(posts: PostsArgument, finbert: seq<string> -> seq<string>): (r: real)
    ensures (posts.NotAList? || posts.items == []) ==> r == 0.0
    ensures -1.0 <= r <= 1.0
  {
    if posts.NotAList? || posts.items == [] then 0.0
    else
      var labels := finbert(Titles(posts.items));
      if labels == [] then 0.0
      else
        LabelTotalBounded(labels);
        var n := |labels| as real;
        var t := LabelTotal(labels) as real;
        RatioWithinUnit(t, n);
        t / n
  }

  /** On a non-empty list whose titles get labels, the score times the number
      of labels is the label total. */
  lemma FinbertIsLabelMean(posts: seq<PostSummary>, finbert: seq<string> -> seq<string>)
    requires posts != [] && finbert(Titles(posts)) != []
    ensures var labels := finbert(Titles(posts));
      FinbertScore(PostList(posts), finbert) * |labels| as real == LabelTotal(labels) as real
  {
  }

  /** One positive, one negative and one neutral title average to 0. */
  lemma MixedLabelsCancel(posts: seq<PostSummary>, finbert: seq<string> -> seq<string>)
    requires posts != [] && finbert(Titles(posts)) == ["positive", "negative", "neutral"]
    ensures FinbertScore(PostList(posts), finbert) == 0.0
  {
    var labels := ["positive", "negative", "neutral"];
    assert "neutral"[0] == 'n' && "positive"[0] == 'p' && "negative"[1] == 'e' && "neutral"[1] == 'e';
    assert LabelValue("neutral") == 0;
    assert labels[..2] == ["positive", "negative"];
    assert labels[..2][..1] == ["positive"];
    assert labels[..2][..1][..0] == [];
    assert LabelTotal(["positive"]) == 1;
    assert LabelTotal(["positive", "negative"]) == 0;
    assert LabelTotal(labels) == 0;
  }
}
