/** The social-sentiment card: simulated positive, negative and neutral
    shares, their overall score with its label and icon, and three sample
    posts. */
module Sentiment {
  import opened Market

  /** `Math.floor(draw * k)`: an index below `k` for a draw in [0, 1). */
  function Pick(draw: real, k: nat): (r: int)
    ensures Unit(draw) && k > 0 ==> 0 <= r < k
  {
    if Unit(draw) && k > 0 then
      UnitScale(draw, k as real);
      assert ((draw * (k as real)).Floor as real) <= draw * (k as real) < k as real;
      (draw * (k as real)).Floor
    else
      (draw * (k as real)).Floor
  }

  datatype Platform = Twitter | Reddit
  datatype PostSentiment = Positive | Neutral | Negative

  datatype Post = Post(platform: Platform, content: string, sentiment: PostSentiment,
                       user: int, hoursAgo: int)

  /** The draws for one post, in call order. */
  datatype PostDraws = PostDraws(platform: real, sentiment: real, user: real, time: real)

  predicate PostDrawsInRange(d: PostDraws) {
    Unit(d.platform) && Unit(d.sentiment) && Unit(d.user) && Unit(d.time)
  }

  datatype SentimentDraws = SentimentDraws(positive: real, negative: real, posts: seq<PostDraws>)

  predicate DrawsInRange(d: SentimentDraws) {
    Unit(d.positive) && Unit(d.negative) && |d.posts| == 3 &&
    forall k :: 0 <= k < |d.posts| ==> PostDrawsInRange(d.posts[k])
  }

  datatype SentimentData = SentimentData(score: int, positive: int, neutral: int, negative: int,
                                         posts: seq<Post>)

  function PlatformAt(index: int): Platform {
    if index == 0 then Twitter else Reddit
  }

  function SentimentAt(index: int): PostSentiment {
    if index == 0 then Positive else if index == 1 then Neutral else Negative
  }

  /** The post text, chosen by the post's sentiment. */
  function Content(cryptoId: string, s: PostSentiment): string {
    match s
    case Positive => cryptoId + " is looking bullish! Great time to buy in before the next rally! #crypto #bullish"
    case Negative => "Not feeling confident about " + cryptoId + " right now. The market looks uncertain. #crypto #bearish"
    case Neutral => "Watching " + cryptoId + " closely. Waiting for more signals before making a move. #crypto #DYOR"
  }

  function MakePost(cryptoId: string, d: PostDraws): Post {
    var s := SentimentAt(Pick(d.sentiment, 3));
    Post(PlatformAt(Pick(d.platform, 2)), Content(cryptoId, s), s,
         Pick(d.user, 1000), Pick(d.time, 12) + 1)
  }

  /** `Array(3).fill(0).map(...)`, one post per set of draws. */
  function Posts(cryptoId: string, draws: seq<PostDraws>): (r: seq<Post>)
    ensures |r| == |draws|
  {
    seq(|draws|, k requires 0 <= k < |draws| => MakePost(cryptoId, draws[k]))
  }

  function GenerateSentimentData(cryptoId: string, d: SentimentDraws): SentimentData {
    var positive := 20 + Pick(d.positive, 40);
    var negative := 10 + Pick(d.negative, 30);
    SentimentData(positive - negative, positive, 100 - positive - negative, negative,
                  Posts(cryptoId, d.posts))
  }

  /** The shares lie in their ranges and add up to 100, the neutral share is
      at least 2 and the score lies in [-19, 49]. */
  lemma SharesSpec(cryptoId: string, d: SentimentDraws)
    requires DrawsInRange(d)
    ensures var s := GenerateSentimentData(cryptoId, d);
            20 <= s.positive <= 59 && 10 <= s.negative <= 39 && s.neutral >= 2 &&
            s.positive + s.neutral + s.negative == 100 &&
            s.score == s.positive - s.negative && -19 <= s.score <= 49
  {
  }

  /** Three posts; each one's text is the template for its own sentiment,
      its user number is below 1000 and it is 1 to 12 hours old. */
  lemma {:induction false} PostsSpec(cryptoId: string, d: SentimentDraws)
    requires DrawsInRange(d)
    ensures var posts := GenerateSentimentData(cryptoId, d).posts;
            |posts| == 3 &&
            forall k :: 0 <= k < 3 ==>
              posts[k].content == Content(cryptoId, posts[k].sentiment) &&
              0 <= posts[k].user < 1000 && 1 <= posts[k].hoursAgo <= 12
  {
    var posts := GenerateSentimentData(cryptoId, d).posts;
    forall k | 0 <= k < 3
      ensures posts[k].content == Content(cryptoId, posts[k].sentiment)
      ensures 0 <= posts[k].user < 1000 && 1 <= posts[k].hoursAgo <= 12
    {
      assert PostDrawsInRange(d.posts[k]);
      assert posts[k] == MakePost(cryptoId, d.posts[k]);
    }
  }

  datatype Label = Bullish | Bearish | NeutralLabel
  datatype Icon = Smile | Frown | Meh

  function SentimentText(score: int): Label {
    if score > 20 then Bullish else if score < -20 then Bearish else NeutralLabel
  }

  function SentimentIcon(score: int): Icon {
    if score > 20 then Smile else if score < -20 then Frown else Meh
  }

  /** The icon and the label follow the same thresholds, strictly above 20
      for bullish and strictly below -20 for bearish. */
  lemma IconMatchesLabel(score: int)
    ensures SentimentIcon(score) == Smile <==> SentimentText(score) == Bullish
    ensures SentimentIcon(score) == Frown <==> SentimentText(score) == Bearish
    ensures SentimentIcon(score) == Meh <==> SentimentText(score) == NeutralLabel
    ensures SentimentText(score) == Bullish <==> score > 20
    ensures SentimentText(score) == Bearish <==> score < -20
  {
  }

  /** The generated score never falls below -19, so the card never reads
      bearish; both other labels occur. */
  lemma {:induction false} NeverBearish(cryptoId: string, d: SentimentDraws)
    requires DrawsInRange(d)
    ensures SentimentText(GenerateSentimentData(cryptoId, d).score) != Bearish
    ensures SentimentIcon(GenerateSentimentData(cryptoId, d).score) != Frown
  {
    SharesSpec(cryptoId, d);
  }

  /** Both reachable labels occur: the extreme draws give a score of 49 and
      of -19. */
  lemma {:induction false} ReachableLabels(cryptoId: string, posts: seq<PostDraws>)
    ensures SentimentText(GenerateSentimentData(cryptoId, SentimentDraws(0.99, 0.0, posts)).score) == Bullish
    ensures SentimentText(GenerateSentimentData(cryptoId, SentimentDraws(0.0, 0.99, posts)).score) == NeutralLabel
  {
    assert Pick(0.99, 40) == 39;
    assert Pick(0.0, 30) == 0;
    assert Pick(0.0, 40) == 0;
    assert Pick(0.99, 30) == 29;
  }
}
