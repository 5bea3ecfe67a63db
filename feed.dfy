/**
  * The post feed shared by both components: the post record, the sample
  * posts the feed starts with, and the list updates the handlers make.
  */
module Feed {
  import opened Wrappers

  /**
    * A post. `moves` is the authored game; only posts created through the
    * newer component's form carry it (the sample posts and the older
    * component's posts have no such field), hence the Option.
    */
  datatype Post = Post(
    id: int,
    username: string,
    content: string,
    caption: string,
    fen: string,
    comments: seq<string>,
    suggestedMoves: seq<string>,
    moves: Option<seq<string>>)

  /** The position string the newer component's form resets to (no move counters). */
  const StartFen: string := "rnbqkbnr/pppppppp/8/8/8/8/PPPPPPPP/RNBQKBNR w KQkq"

  /** The three sample posts the feed is seeded with. */
  function SeedPosts(): seq<Post> {
    [ Post(1, "chessmaster1", "Just finished an amazing game! #chesslife",
           "A great match with unexpected moves!", "start",
           ["Great game, well played!"], [], None),
      Post(2, "rookieplayer123", "What do you think of this opening? #chessadvice",
           "Trying out new openings to improve my game.",
           "rnbqkbnr/pppppppp/8/8/4P3/8/PPPP1PPP/RNBQKBNR b KQkq - 0 1",
           ["Interesting opening choice, I would have played differently."], [], None),
      Post(3, "queenmovepro", "Checkmate in 3 moves! Can you solve it? #puzzletime",
           "Can you find the winning moves in this puzzle?",
           "r1bqk2r/pppp1ppp/2n2n2/2b1p3/2B1P3/5N2/PPPP1PPP/RNBQK2R w KQkq - 0 1",
           ["I love these puzzles, so challenging!"], [], None) ]
  }

  /** Post ids are 1, 2, 3, ... in feed order, so no two posts share an id. */
  ghost predicate IdsSequential(posts: seq<Post>) {
    forall i :: 0 <= i < |posts| ==> posts[i].id == i + 1
  }

  /** The feed invariant: a non-empty list, an index into it, sequential ids. */
  ghost predicate WellFormed(posts: seq<Post>, index: int) {
    |posts| > 0 && 0 <= index < |posts| && IdsSequential(posts)
  }

  /** The feed starts well formed: three posts numbered 1 to 3, the first shown. */
  lemma SeedWellFormed()
    ensures |SeedPosts()| == 3 && WellFormed(SeedPosts(), 0)
  {
    var posts := SeedPosts();
    assert posts[0].id == 1 && posts[1].id == 2 && posts[2].id == 3;
  }

  /** The index of the post shown after "Next Post": one further, wrapping to the first. */
  function NextIndex(index: int, count: int): (next: int)
    requires 0 <= index < count
    ensures 0 <= next < count
    ensures next == if index + 1 == count then 0 else index + 1
  {
    (index + 1) % count
  }

  /** The index shown after pressing "Next Post" `k` times. */
  function Advance(index: int, count: int, k: nat): (r: int)
    requires 0 <= index < count
    ensures 0 <= r < count
  {
    if k == 0 then index else NextIndex(Advance(index, count, k - 1), count)
  }

  /**
    * Pressing "Next Post" walks through the feed in order, wrapping once
    * past the last post; after as many presses as there are posts the
    * feed is back where it started.
    */
  lemma {:induction false} AdvanceWraps(index: int, count: int, k: nat)
    requires 0 <= index < count && k <= count
    ensures Advance(index, count, k) == if index + k < count then index + k else index + k - count
  {
    if k > 0 {
      AdvanceWraps(index, count, k - 1);
    }
  }

  lemma FullCycle(index: int, count: int)
    requires 0 <= index < count
    ensures Advance(index, count, count) == index
  {
    AdvanceWraps(index, count, count);
  }

  /**
    * The feed after a comment is added to the post at `index`: that post
    * gains the comment at the end of its comments and nothing else; every
    * other post is unchanged (so an index outside the feed changes nothing).
    */
  function WithComment(posts: seq<Post>, index: int, comment: string): (r: seq<Post>)
    ensures |r| == |posts|
    ensures forall j :: 0 <= j < |posts| && j != index ==> r[j] == posts[j]
    ensures 0 <= index < |posts| ==>
      r[index].comments == posts[index].comments + [comment] &&
      r[index] == posts[index].(comments := r[index].comments)
  {
    seq(|posts|, j requires 0 <= j < |posts| =>
      if j == index then posts[j].(comments := posts[j].comments + [comment]) else posts[j])
  }

  /** The number of comments across the whole feed. */
  function CommentCount(posts: seq<Post>): nat {
    if posts == [] then 0 else |posts[0].comments| + CommentCount(posts[1..])
  }

  /** Two feeds that differ only in one post having one more comment. */
  lemma {:induction false} CountOneMore(a: seq<Post>, b: seq<Post>, index: int)
    requires |a| == |b| && 0 <= index < |a|
    requires forall j :: 0 <= j < |a| && j != index ==> a[j] == b[j]
    requires |a[index].comments| == |b[index].comments| + 1
    ensures CommentCount(a) == CommentCount(b) + 1
  {
    if index == 0 {
      assert a[1..] == b[1..];
    } else {
      CountOneMore(a[1..], b[1..], index - 1);
    }
  }

  /** Adding a comment to a post of the feed adds exactly one comment to the feed. */
  lemma WithCommentCount(posts: seq<Post>, index: int, comment: string)
    requires 0 <= index < |posts|
    ensures CommentCount(WithComment(posts, index, comment)) == CommentCount(posts) + 1
  {
    CountOneMore(WithComment(posts, index, comment), posts, index);
  }
}
