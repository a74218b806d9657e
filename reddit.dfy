/** Forum sentiment for a ticker (api/data/reddit_data.py). The forum client
    is replaced by what it answers: no client, a failed search, or the posts
    the search found, each with its comment list. Every post contributes its
    title, its body when there is one and up to ten comments as separate
    samples, each weighted by its upvote score plus one; the ticker's score is
    the weighted mean of the samples. */
module RedditData {
  import opened Outcomes
  import opened Sentiment

  const PostLimit: nat := 25
  const CommentLimit: nat := 10

  const ConnectErrorMessage := "Could not connect to Reddit. Please check your API credentials and network connection."
  const SearchErrorMessage := "An error occurred while fetching data from Reddit."

  datatype Comment = Comment(body: string, author: Option<string>, score: int)
  datatype Post = Post(title: string, selftext: string, url: string, score: int, comments: seq<Comment>)

  datatype SearchAnswer = ClientUnavailable | SearchFailed | Found(posts: seq<Post>)

  datatype Sample = Sample(score: real, weight: int)

  datatype CommentSummary = CommentSummary(body: string, author: string, score: int, sentiment: Label)
  datatype PostSummary = PostSummary(title: string, url: string, score: int, sentiment: Label, comments: seq<CommentSummary>)

  /** The triple `(score, posts, error)`. */
  datatype RedditResult = RedditResult(score: real, posts: seq<PostSummary>, error: Option<string>)

  /** `xs[:n]`. */
  function Take<T>(xs: seq<T>, n: nat): (r: seq<T>)
    ensures |r| == if |xs| <= n then |xs| else n
    ensures r == xs[..|r|]
  {
    if |xs| <= n then xs else xs[..n]
  }

  function NoResultsMessage(ticker: string): string {
    "No results found for '" + ticker + "'."
  }

  // ---- Samples ----

  /** The title sample and, when the post has a body, the body sample: both
      carry the post's weight, and neither is averaged with the other. */
  function HeadSamples(p: Post, vader: string -> real): seq<Sample> {
    var w := p.score + 1;
    [Sample(CompoundScore(p.title, vader), w)]
      + (if p.selftext != "" then [Sample(CompoundScore(p.selftext, vader), w)] else [])
  }

  function CommentSamples(cs: seq<Comment>, vader: string -> real): (r: seq<Sample>)
    ensures |r| == |cs|
  {
    seq(|cs|, i requires 0 <= i < |cs| => Sample(CompoundScore(cs[i].body, vader), cs[i].score + 1))
  }

  function PostSamples(p: Post, vader: string -> real): seq<Sample> {
    HeadSamples(p, vader) + CommentSamples(Take(p.comments, CommentLimit), vader)
  }

  /** All samples of the processed posts, in the order they are appended. */
  function Samples(posts: seq<Post>, vader: string -> real): seq<Sample> {
    if posts == [] then [] else Samples(posts[..|posts| - 1], vader) + PostSamples(posts[|posts| - 1], vader)
  }

  function TotalWeight(samples: seq<Sample>): int {
    if samples == [] then 0 else TotalWeight(samples[..|samples| - 1]) + samples[|samples| - 1].weight
  }

  function WeightedSum(samples: seq<Sample>): real {
    if samples == [] then 0.0
    else WeightedSum(samples[..|samples| - 1]) + samples[|samples| - 1].score * samples[|samples| - 1].weight as real
  }

  /** `weighted_sum / total_weight if total_weight > 0 else 0`. */
  function WeightedMean(samples: seq<Sample>): real {
    if TotalWeight(samples) > 0 then WeightedSum(samples) / TotalWeight(samples) as real else 0.0
  }

  // ---- Summaries ----

  function SummarizeComment(c: Comment, vader: string -> real): CommentSummary {
    CommentSummary(c.body, c.author.GetOr("[deleted]"), c.score, Classify(CompoundScore(c.body, vader)))
  }

  function CommentSummaries(cs: seq<Comment>, vader: string -> real): (r: seq<CommentSummary>)
    ensures |r| == |cs|
  {
    seq(|cs|, i requires 0 <= i < |cs| => SummarizeComment(cs[i], vader))
  }

  function SummarizePost(p: Post, vader: string -> real): PostSummary {
    PostSummary(p.title, p.url, p.score, Classify(CompoundScore(p.title, vader)),
                CommentSummaries(Take(p.comments, CommentLimit), vader))
  }

  function PostSummaries(posts: seq<Post>, vader: string -> real): (r: seq<PostSummary>)
    ensures |r| == |posts|
  {
    seq(|posts|, i requires 0 <= i < |posts| => SummarizePost(posts[i], vader))
  }

  /** What `get_reddit_sentiment` returns or raises. */
  function RedditSentiment(ticker: string, answer: SearchAnswer, vader: string -> real): Outcome<RedditResult> {
    match answer
    case ClientUnavailable => Raise(RedditAPIError(ConnectErrorMessage))
    case SearchFailed => Raise(RedditAPIError(SearchErrorMessage))
    case Found(found) =>
      var posts := Take(found, PostLimit);
      var samples := Samples(posts, vader);
      if samples == [] then Ok(RedditResult(0.0, [], Some(NoResultsMessage(ticker))))
      else Ok(RedditResult(WeightedMean(samples), PostSummaries(posts, vader), None))
  }

  /** The inner loop of `get_reddit_sentiment` over the first ten comments
      of one post: one sample and one summary per comment, in order. */
  method AnalyzeComments(commentList: seq<Comment>, vader: string -> real)
    returns (samples: seq<Sample>, postComments: seq<CommentSummary>)
    ensures samples == CommentSamples(commentList, vader)
    ensures postComments == CommentSummaries(commentList, vader)
  {
    samples, postComments := [], [];
    var j := 0;
    while j < |commentList|
      invariant 0 <= j <= |commentList|
      invariant samples == CommentSamples(commentList[..j], vader)
      invariant postComments == CommentSummaries(commentList[..j], vader)
    {
      var comment := commentList[j];
      var commentScore := CompoundScore(comment.body, vader);
      var commentWeight := comment.score + 1;
      samples := samples + [Sample(commentScore, commentWeight)];
      postComments := postComments + [CommentSummary(comment.body, comment.author.GetOr("[deleted]"),
                                                     comment.score, Classify(commentScore))];
      assert commentList[..j + 1] == commentList[..j] + [comment];
      j := j + 1;
    }
    assert commentList[..j] == commentList;
  }

  lemma SamplesStep(posts: seq<Post>, i: nat, vader: string -> real)
    requires i < |posts|
    ensures Samples(posts[..i + 1], vader) == Samples(posts[..i], vader) + PostSamples(posts[i], vader)
    ensures PostSummaries(posts[..i + 1], vader) == PostSummaries(posts[..i], vader) + [SummarizePost(posts[i], vader)]
  {
    assert posts[..i + 1][..i] == posts[..i];
  }

  /** The body of the loop over posts: the title sample, the body sample
      when the post has a body, the comment samples, and the post's summary. */
  method AnalyzePost(post: Post, vader: string -> real) returns (samples: seq<Sample>, summary: PostSummary)
    ensures samples == PostSamples(post, vader)
    ensures summary == SummarizePost(post, vader)
  {
    var titleScore := CompoundScore(post.title, vader);
    var bodyScore := CompoundScore(post.selftext, vader);
    var postWeight := post.score + 1;
    samples := [Sample(titleScore, postWeight)];
    if post.selftext != "" {
      samples := samples + [Sample(bodyScore, postWeight)];
    }
    var commentSamples, postComments := AnalyzeComments(Take(post.comments, CommentLimit), vader);
    samples := samples + commentSamples;
    summary := PostSummary(post.title, post.url, post.score, Classify(titleScore), postComments);
  }

  /** `get_reddit_sentiment`: the loop over the (at most 25) posts builds the
      samples and the per-post summaries; the score is then the guarded
      weighted mean. */
  method GetRedditSentiment(ticker: string, answer: SearchAnswer, vader: string -> real)
    returns (r: Outcome<RedditResult>)
    ensures r == RedditSentiment(ticker, answer, vader)
  {
    if answer.ClientUnavailable? {
      return Raise(RedditAPIError(ConnectErrorMessage));
    }
    if answer.SearchFailed? {
      return Raise(RedditAPIError(SearchErrorMessage));
    }
    var posts := Take(answer.posts, PostLimit);
    var weighted: seq<Sample> := [];
    var analyzed: seq<PostSummary> := [];
    var i := 0;
    while i < |posts|
      invariant 0 <= i <= |posts|
      invariant weighted == Samples(posts[..i], vader)
      invariant analyzed == PostSummaries(posts[..i], vader)
    {
      var postSamples, summary := AnalyzePost(posts[i], vader);
      weighted := weighted + postSamples;
      analyzed := analyzed + [summary];
      SamplesStep(posts, i, vader);
      i := i + 1;
    }
    assert posts[..i] == posts;
    if weighted == [] {
      return Ok(RedditResult(0.0, [], Some(NoResultsMessage(ticker))));
    }
    var totalWeight := TotalWeight(weighted);
    var weightedSum := WeightedSum(weighted);
    var score := if totalWeight > 0 then weightedSum / totalWeight as real else 0.0;
    r := Ok(RedditResult(score, analyzed, None));
  }

  // ---- Properties ----

  lemma {:induction false} SamplesEmptyIffNoPosts(posts: seq<Post>, vader: string -> real)
    ensures Samples(posts, vader) == [] <==> posts == []
  {
    if posts != [] {
      assert |HeadSamples(posts[|posts| - 1], vader)| >= 1;
    }
  }

  /** The "No results found" answer comes exactly when the search found no post. */
  lemma NoResultsIffNoPosts(ticker: string, found: seq<Post>, vader: string -> real)
    ensures var r := RedditSentiment(ticker, Found(found), vader);
      r.Ok? && (r.value.error.Some? <==> found == [])
    ensures found == [] ==> RedditSentiment(ticker, Found(found), vader)
                            == Ok(RedditResult(0.0, [], Some(NoResultsMessage(ticker))))
  {
    SamplesEmptyIffNoPosts(Take(found, PostLimit), vader);
  }

  /** At most 25 posts are summarised, one entry per post in search order, each
      with at most 10 comments. */
  lemma SummariesFollowPosts(ticker: string, found: seq<Post>, vader: string -> real, k: nat)
    requires found != [] && k < |found| && k < PostLimit
    ensures var r := RedditSentiment(ticker, Found(found), vader);
      r.Ok? && r.value.error.None?
      && |r.value.posts| <= PostLimit
      && r.value.posts[k].title == found[k].title
      && r.value.posts[k].sentiment == Classify(CompoundScore(found[k].title, vader))
      && |r.value.posts[k].comments| <= CommentLimit
  {
    SamplesEmptyIffNoPosts(Take(found, PostLimit), vader);
  }

  function PostSampleCount(p: Post): nat {
    1 + (if p.selftext != "" then 1 else 0) + |Take(p.comments, CommentLimit)|
  }

  function SampleCount(posts: seq<Post>): nat {
    if posts == [] then 0 else SampleCount(posts[..|posts| - 1]) + PostSampleCount(posts[|posts| - 1])
  }

  /** Each post yields its title, its body if non-empty and at most ten comments. */
  lemma {:induction false} SamplesCounted(posts: seq<Post>, vader: string -> real)
    ensures |Samples(posts, vader)| == SampleCount(posts)
  {
    if posts != [] {
      SamplesCounted(posts[..|posts| - 1], vader);
    }
  }

  predicate AllWeightsPositive(samples: seq<Sample>) {
    forall i :: 0 <= i < |samples| ==> samples[i].weight > 0
  }

  predicate AllScoresBounded(samples: seq<Sample>) {
    forall i :: 0 <= i < |samples| ==> -1.0 <= samples[i].score <= 1.0
  }

  lemma ScaledScoreBounded(score: real, w: real)
    requires -1.0 <= score <= 1.0 && w > 0.0
    ensures -w <= score * w <= w
  {
    assert (score + 1.0) * w >= 0.0;
    assert (1.0 - score) * w >= 0.0;
  }

  lemma {:induction false} WeightedSumBounded(samples: seq<Sample>)
    requires AllWeightsPositive(samples) && AllScoresBounded(samples)
    ensures -(TotalWeight(samples) as real) <= WeightedSum(samples) <= TotalWeight(samples) as real
    ensures samples != [] ==> TotalWeight(samples) > 0
  {
    if samples != [] {
      var init := samples[..|samples| - 1];
      var last := samples[|samples| - 1];
      assert AllWeightsPositive(init) && AllScoresBounded(init);
      WeightedSumBounded(init);
      var t0, s0 := TotalWeight(init) as real, WeightedSum(init);
      assert last.weight > 0 && -1.0 <= last.score <= 1.0;
      var w := last.weight as real;
      var x := last.score * w;
      assert -w <= x <= w by {
        ScaledScoreBounded(last.score, w);
      }
      assert TotalWeight(samples) as real == t0 + w;
      assert WeightedSum(samples) == s0 + x;
    }
  }

  /** A total within plus or minus its positive divisor gives a ratio in
      [-1, 1]. */
  lemma RatioWithinUnit(t: real, n: real)
    requires n > 0.0 && -n <= t <= n
    ensures -1.0 <= t / n <= 1.0
  {
    var q := t / n;
    assert q * n == t;
  }

  /** With positive weights and scores in [-1, 1], the mean stays in [-1, 1].
      Weights need not be positive: an upvote score of -1 or less gives a
      weight of 0 or less. */
  lemma WeightedMeanBounded(samples: seq<Sample>)
    requires AllWeightsPositive(samples) && AllScoresBounded(samples)
    ensures -1.0 <= WeightedMean(samples) <= 1.0
  {
    WeightedSumBounded(samples);
    if TotalWeight(samples) > 0 {
      var t := TotalWeight(samples) as real;
      var s := WeightedSum(samples);
      assert -t <= s <= t;
      RatioWithinUnit(s, t);
    }
  }

  predicate NonNegativeVotes(posts: seq<Post>) {
    forall i :: 0 <= i < |posts| ==>
      posts[i].score >= 0 && forall j :: 0 <= j < |posts[i].comments| ==> posts[i].comments[j].score >= 0
  }

  lemma {:induction false} SamplesWellFormed(posts: seq<Post>, vader: string -> real)
    requires NonNegativeVotes(posts)
    requires forall t :: -1.0 <= vader(t) <= 1.0
    ensures AllWeightsPositive(Samples(posts, vader)) && AllScoresBounded(Samples(posts, vader))
  {
    if posts != [] {
      var init := posts[..|posts| - 1];
      SamplesWellFormed(init, vader);
      var p := posts[|posts| - 1];
      var cs := Take(p.comments, CommentLimit);
      var ps := PostSamples(p, vader);
      forall k | 0 <= k < |ps| ensures ps[k].weight > 0 && -1.0 <= ps[k].score <= 1.0 {
        var h := HeadSamples(p, vader);
        if k >= |h| {
          var c := k - |h|;
          assert ps[k] == CommentSamples(cs, vader)[c];
          assert cs[c] == p.comments[c];
        }
      }
      var all := Samples(posts, vader);
      assert all == Samples(init, vader) + ps;
      forall k | 0 <= k < |all| ensures all[k].weight > 0 && -1.0 <= all[k].score <= 1.0 {
        if k >= |Samples(init, vader)| {
          assert all[k] == ps[k - |Samples(init, vader)|];
        } else {
          assert all[k] == Samples(init, vader)[k];
        }
      }
    }
  }

  /** When no post or comment is down-voted and VADER stays in [-1, 1], the
      ticker's score is in [-1, 1]. */
  lemma RedditScoreBounded(ticker: string, found: seq<Post>, vader: string -> real)
    requires NonNegativeVotes(found)
    requires forall t :: -1.0 <= vader(t) <= 1.0
    ensures var r := RedditSentiment(ticker, Found(found), vader);
      r.Ok? && -1.0 <= r.value.score <= 1.0
  {
    var posts := Take(found, PostLimit);
    assert NonNegativeVotes(posts) by {
      forall i | 0 <= i < |posts| ensures posts[i] == found[i] {}
    }
    SamplesWellFormed(posts, vader);
    WeightedMeanBounded(Samples(posts, vader));
  }

  /** A single post voted down to -1 weighs nothing: the total weight is 0 and
      the guard returns 0 rather than dividing. */
  lemma ZeroWeightIsGuarded(ticker: string, vader: string -> real)
    ensures var p := Post("t", "", "u", -1, []);
      RedditSentiment(ticker, Found([p]), vader) == Ok(RedditResult(0.0, [SummarizePost(p, vader)], None))
  {
    var p := Post("t", "", "u", -1, []);
    assert Take([p], PostLimit) == [p];
    var samples := [Sample(CompoundScore("t", vader), 0)];
    assert Samples([p], vader) == samples by {
      assert [p][..0] == [];
      assert PostSamples(p, vader) == samples;
    }
    assert TotalWeight(samples) == 0 by {
      assert samples[..0] == [];
    }
    assert PostSummaries([p], vader) == [SummarizePost(p, vader)];
  }

  /** A single sample of weight 1 keeps its own score. */
  lemma SingleSampleMean()
    ensures WeightedMean([Sample(0.6, 1)]) == 0.6
  {
    assert [Sample(0.6, 1)][..0] == [];
  }

  /** Weights 1 and 10 with scores -1 and 1 give (-1 + 10) / 11. */
  lemma TwoSampleMean()
    ensures WeightedMean([Sample(-1.0, 1), Sample(1.0, 10)]) == 9.0 / 11.0
  {
    var s := [Sample(-1.0, 1), Sample(1.0, 10)];
    assert s[..1] == [Sample(-1.0, 1)];
    assert s[..1][..0] == [];
    assert TotalWeight(s) == 11;
    assert WeightedSum(s) == 9.0;
  }
}
