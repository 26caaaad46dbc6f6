/**
 * The three ranked orders formatResponse (src/apollo.js) puts a feed in,
 * each a call to lodash's `_.orderBy` with every criterion descending.
 * `_.orderBy` is a stable sort: posts whose criteria all tie keep their
 * input order. OrderBy below is that sort, written as an insertion sort.
 */
module FeedRanking {
  import opened TimeUnits

  /** `reactions` of a post: the score and the per-kind counts it is ranked on. */
  datatype Reactions = Reactions(total: int, likes: int, dislikes: int)

  /** `comments_info` of a post. */
  datatype CommentsInfo = CommentsInfo(total: int)

  /** A feed post, with `created_at` as integer milliseconds. */
  datatype FeedPost = FeedPost(
    postId: int, createdAt: int, reactions: Reactions, commentsInfo: CommentsInfo)

  datatype Strategy = Hot | Top | Controversial

  /** `setHours(0, 0, 0, 0)`: the midnight that starts the day of t. */
  function StartOfDay(t: int): (r: int)
    ensures r <= t < r + MsPerDay && r % MsPerDay == 0
  {
    t - t % MsPerDay
  }

  /** The criteria of a post, most significant first. */
  function Criteria(p: FeedPost, s: Strategy): (c: seq<int>)
    ensures |c| == Arity(s)
  {
    match s
    case Hot => [StartOfDay(p.createdAt), p.reactions.total, p.commentsInfo.total]
    case Top => [p.reactions.total]
    case Controversial => [p.reactions.dislikes, p.reactions.likes]
  }

  function Arity(s: Strategy): nat {
    match s
    case Hot => 3
    case Top => 1
    case Controversial => 2
  }

  /** a is lexicographically greater than b. */
  predicate Above(a: seq<int>, b: seq<int>) {
    |a| > 0 && |b| > 0 && (a[0] > b[0] || (a[0] == b[0] && Above(a[1..], b[1..])))
  }

  /** p may come before q in a descending order: q's criteria are not above p's. */
  predicate RanksBefore(p: FeedPost, q: FeedPost, s: Strategy) {
    !Above(Criteria(q, s), Criteria(p, s))
  }

  /** Criteria non-increasing along the sequence. */
  predicate Descending(ps: seq<FeedPost>, s: Strategy) {
    forall i, j :: 0 <= i < j < |ps| ==> RanksBefore(ps[i], ps[j], s)
  }

  /** The posts whose criteria equal c, in sequence order. */
  function Ties(ps: seq<FeedPost>, s: Strategy, c: seq<int>): seq<FeedPost> {
    if ps == [] then []
    else if Criteria(ps[0], s) == c then [ps[0]] + Ties(ps[1..], s, c)
    else Ties(ps[1..], s, c)
  }

  // ---------------------------------------------------------------------
  // The lexicographic order.

  lemma {:induction false} AboveAsymmetric(a: seq<int>, b: seq<int>)
    ensures Above(a, b) ==> !Above(b, a)
  {
    if |a| > 0 && |b| > 0 && a[0] == b[0] {
      AboveAsymmetric(a[1..], b[1..]);
    }
  }

  lemma {:induction false} AboveTotal(a: seq<int>, b: seq<int>)
    requires |a| == |b|
    ensures a == b || Above(a, b) || Above(b, a)
  {
    if |a| > 0 && a[0] == b[0] {
      AboveTotal(a[1..], b[1..]);
      if a[1..] == b[1..] {
        assert a == [a[0]] + a[1..] && b == [b[0]] + b[1..];
      }
    }
  }

  lemma {:induction false} AboveTransitive(a: seq<int>, b: seq<int>, c: seq<int>)
    requires Above(a, b) && Above(b, c)
    ensures Above(a, c)
  {
    if a[0] == b[0] && b[0] == c[0] {
      AboveTransitive(a[1..], b[1..], c[1..]);
    }
  }

  /** "Not below" is transitive on criteria of one strategy. */
  lemma RanksBeforeTransitive(p: FeedPost, q: FeedPost, r: FeedPost, s: Strategy)
    requires RanksBefore(p, q, s) && RanksBefore(q, r, s)
    ensures RanksBefore(p, r, s)
  {
    var a, b, c := Criteria(p, s), Criteria(q, s), Criteria(r, s);
    AboveTotal(a, b);
    AboveTotal(b, c);
    if Above(c, a) {
      if a == b {
      } else if b == c {
      } else {
        AboveTransitive(a, b, c);
        AboveAsymmetric(a, c);
      }
    }
  }

  // ---------------------------------------------------------------------
  // The sort.

  /** Puts p before the first post of `sorted` that does not rank strictly above it. */
  function Insert(p: FeedPost, sorted: seq<FeedPost>, s: Strategy): seq<FeedPost> {
    if sorted == [] then [p]
    else if Above(Criteria(sorted[0], s), Criteria(p, s)) then [sorted[0]] + Insert(p, sorted[1..], s)
    else [p] + sorted
  }

  /** `_.orderBy(posts, criteria of s, all "desc")`. */
  function OrderBy(posts: seq<FeedPost>, s: Strategy): seq<FeedPost> {
    if posts == [] then [] else Insert(posts[0], OrderBy(posts[1..], s), s)
  }

  lemma {:induction false} InsertPermutation(p: FeedPost, sorted: seq<FeedPost>, s: Strategy)
    ensures multiset(Insert(p, sorted, s)) == multiset(sorted) + multiset{p}
  {
    if sorted != [] && Above(Criteria(sorted[0], s), Criteria(p, s)) {
      InsertPermutation(p, sorted[1..], s);
      assert sorted == [sorted[0]] + sorted[1..];
    }
  }

  lemma {:induction false} InsertDescending(p: FeedPost, sorted: seq<FeedPost>, s: Strategy)
    requires Descending(sorted, s)
    ensures Descending(Insert(p, sorted, s), s)
  {
    var r := Insert(p, sorted, s);
    if sorted == [] {
    } else if Above(Criteria(sorted[0], s), Criteria(p, s)) {
      var rest := Insert(p, sorted[1..], s);
      InsertDescending(p, sorted[1..], s);
      InsertPermutation(p, sorted[1..], s);
      forall j | 0 < j < |r| ensures RanksBefore(r[0], r[j], s) {
        assert r[j] in multiset(rest);
        if r[j] == p {
          AboveAsymmetric(Criteria(sorted[0], s), Criteria(p, s));
        } else {
          assert r[j] in sorted[1..];
        }
      }
    } else {
      forall j | 0 < j < |r| ensures RanksBefore(r[0], r[j], s) {
        if j > 1 {
          RanksBeforeTransitive(p, sorted[0], r[j], s);
        }
      }
    }
  }

  lemma {:induction false} InsertTies(p: FeedPost, sorted: seq<FeedPost>, s: Strategy, c: seq<int>)
    ensures Ties(Insert(p, sorted, s), s, c) ==
            (if Criteria(p, s) == c then [p] else []) + Ties(sorted, s, c)
  {
    if sorted == [] {
    } else if Above(Criteria(sorted[0], s), Criteria(p, s)) {
      InsertTies(p, sorted[1..], s, c);
      AboveAsymmetric(Criteria(sorted[0], s), Criteria(p, s));
      if Criteria(p, s) == c {
        // sorted[0] is strictly above p, so it is not one of p's ties
        assert Criteria(sorted[0], s) != c by {
          if Criteria(sorted[0], s) == c { AboveIrreflexive(c); }
        }
      }
    }
  }

  lemma {:induction false} AboveIrreflexive(a: seq<int>)
    ensures !Above(a, a)
  {
    if |a| > 0 {
      AboveIrreflexive(a[1..]);
    }
  }

  /** The ranked list holds exactly the input posts. */
  lemma {:induction false} OrderByPermutation(posts: seq<FeedPost>, s: Strategy)
    ensures multiset(OrderBy(posts, s)) == multiset(posts)
  {
    if posts != [] {
      OrderByPermutation(posts[1..], s);
      InsertPermutation(posts[0], OrderBy(posts[1..], s), s);
      assert posts == [posts[0]] + posts[1..];
    }
  }

  /** The ranked list is non-increasing in the strategy's criteria. */
  lemma {:induction false} OrderByDescending(posts: seq<FeedPost>, s: Strategy)
    ensures Descending(OrderBy(posts, s), s)
  {
    if posts != [] {
      OrderByDescending(posts[1..], s);
      InsertDescending(posts[0], OrderBy(posts[1..], s), s);
    }
  }

  /** Stability: the posts that tie on every criterion keep their input order. */
  lemma {:induction false} OrderByStable(posts: seq<FeedPost>, s: Strategy, c: seq<int>)
    ensures Ties(OrderBy(posts, s), s, c) == Ties(posts, s, c)
  {
    if posts != [] {
      OrderByStable(posts[1..], s, c);
      InsertTies(posts[0], OrderBy(posts[1..], s), s, c);
    }
  }

  /** `top`: reaction totals never increase along the ranked list. */
  lemma TopByTotal(posts: seq<FeedPost>)
    ensures forall i, j :: 0 <= i < j < |OrderBy(posts, Top)| ==>
              OrderBy(posts, Top)[i].reactions.total >= OrderBy(posts, Top)[j].reactions.total
  {
    OrderByDescending(posts, Top);
  }

  /** `controversial`: descending by dislikes, then by likes. */
  lemma ControversialByDislikesThenLikes(posts: seq<FeedPost>)
    ensures forall i, j :: 0 <= i < j < |OrderBy(posts, Controversial)| ==>
              var p, q := OrderBy(posts, Controversial)[i], OrderBy(posts, Controversial)[j];
              p.reactions.dislikes > q.reactions.dislikes ||
              (p.reactions.dislikes == q.reactions.dislikes && p.reactions.likes >= q.reactions.likes)
  {
    var r := OrderBy(posts, Controversial);
    OrderByDescending(posts, Controversial);
    forall i, j | 0 <= i < j < |r| ensures
      r[i].reactions.dislikes > r[j].reactions.dislikes ||
      (r[i].reactions.dislikes == r[j].reactions.dislikes && r[i].reactions.likes >= r[j].reactions.likes)
    {
      var a, b := Criteria(r[i], Controversial), Criteria(r[j], Controversial);
      assert !Above(b, a);
      assert a[1..] == [r[i].reactions.likes] && b[1..] == [r[j].reactions.likes];
      assert Above(b[1..], a[1..]) <==> b[1] > a[1];
    }
  }

  /** `hot`: descending by creation day, then reaction total, then comment total. */
  lemma HotByDayThenTotals(posts: seq<FeedPost>)
    ensures forall i, j :: 0 <= i < j < |OrderBy(posts, Hot)| ==>
              var p, q := OrderBy(posts, Hot)[i], OrderBy(posts, Hot)[j];
              StartOfDay(p.createdAt) > StartOfDay(q.createdAt) ||
              (StartOfDay(p.createdAt) == StartOfDay(q.createdAt) &&
               (p.reactions.total > q.reactions.total ||
                (p.reactions.total == q.reactions.total &&
                 p.commentsInfo.total >= q.commentsInfo.total)))
  {
    var r := OrderBy(posts, Hot);
    OrderByDescending(posts, Hot);
    forall i, j | 0 <= i < j < |r| ensures
      StartOfDay(r[i].createdAt) > StartOfDay(r[j].createdAt) ||
      (StartOfDay(r[i].createdAt) == StartOfDay(r[j].createdAt) &&
       (r[i].reactions.total > r[j].reactions.total ||
        (r[i].reactions.total == r[j].reactions.total &&
         r[i].commentsInfo.total >= r[j].commentsInfo.total)))
    {
      var a, b := Criteria(r[i], Hot), Criteria(r[j], Hot);
      assert a[1..] == [r[i].reactions.total, r[i].commentsInfo.total];
      assert b[1..] == [r[j].reactions.total, r[j].commentsInfo.total];
      assert a[1..][1..] == [r[i].commentsInfo.total] && b[1..][1..] == [r[j].commentsInfo.total];
      assert !Above(b, a);
      assert Above(b[1..][1..], a[1..][1..]) <==> b[2] > a[2];
      assert Above(b[1..], a[1..]) <==> b[1] > a[1] || (b[1] == a[1] && b[2] > a[2]);
    }
  }
}
