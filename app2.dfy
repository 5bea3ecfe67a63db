/**
  * The older component: the same feed and authoring form without the
  * authoring board's history. Posts it creates carry no authored moves,
  * its form's position starts and resets empty, and a suggested move
  * shown under a post can be played on the feed board.
  */
module App2 {
  import opened Wrappers
  import opened ChessEngine
  import opened Feed

  class Component<G> {
    const engine: Engine<G>

    // the feed
    var posts: seq<Post>
    var currentIndex: int
    var game: G
    var currentTurn: Color
    var newComment: string

    // the authoring form
    var newUsername: string
    var newContent: string
    var newCaption: string
    var newFen: string
    var newMove: string
    var newSuggestedMoves: seq<string>
    var postBoardFen: string

    /** The shown post exists and post ids are sequential. */
    ghost predicate Valid()
      reads this
    {
      WellFormed(posts, currentIndex)
    }

    /** All four fields the "Add Post" button requires are filled in. */
    predicate FormFilled()
      reads this
    {
      newUsername != "" && newContent != "" && newCaption != "" && newFen != ""
    }

    constructor (e: Engine<G>)
      ensures Valid()
      ensures engine == e && posts == SeedPosts() && currentIndex == 0
      ensures game == e.initial && currentTurn == e.turn(e.initial) && newComment == ""
      ensures newUsername == "" && newContent == "" && newCaption == "" && newFen == ""
      ensures newMove == "" && newSuggestedMoves == [] && postBoardFen == "start"
    {
      engine := e;
      SeedWellFormed();
      posts := SeedPosts();
      currentIndex := 0;
      // the first sample post is at the "start" sentinel
      game := e.initial;
      currentTurn := e.turn(e.initial);
      newComment := "";
      newUsername, newContent, newCaption, newFen := "", "", "", "";
      newMove := "";
      newSuggestedMoves := [];
      postBoardFen := "start";
    }

    /**
      * "Next Post": show the following post, wrapping to the first, on a
      * board seeded from its position ("start" meaning the initial one).
      * If the engine cannot read the position, nothing changes.
      */
    method HandleNext()
      requires Valid()
      modifies this`currentIndex, this`game, this`currentTurn
      ensures Valid()
      ensures var next := NextIndex(old(currentIndex), |posts|);
        match Open(engine, posts[next].fen)
        case Some(g) => currentIndex == next && game == g && currentTurn == engine.turn(g)
        case None => unchanged(this)
    {
      var next := NextIndex(currentIndex, |posts|);
      match Open(engine, posts[next].fen) {
        case Some(g) =>
          game := g;
          currentTurn := engine.turn(g);
          currentIndex := next;
        case None =>
      }
    }

    /**
      * "Add Post": when the four fields are filled in, append a post
      * numbered one past the feed's length with the suggested moves and
      * no authored moves, and reset the form, its position to empty.
      */
    method HandleAddPost()
      requires Valid()
      modifies this`posts, this`newUsername, this`newContent, this`newCaption, this`newFen,
               this`newSuggestedMoves, this`postBoardFen
      ensures Valid()
      ensures !old(FormFilled()) ==> unchanged(this)
      ensures old(FormFilled()) ==>
        posts == old(posts) + [Post(|old(posts)| + 1, old(newUsername), old(newContent),
                                    old(newCaption), old(newFen), [], old(newSuggestedMoves), None)] &&
        newUsername == "" && newContent == "" && newCaption == "" && newFen == "" &&
        newSuggestedMoves == [] && postBoardFen == "start"
    {
      if FormFilled() {
        var post := Post(|posts| + 1, newUsername, newContent, newCaption,
                         if newFen != "" then newFen else "start",
                         [], newSuggestedMoves, None);
        posts := posts + [post];
        newUsername, newContent, newCaption, newFen := "", "", "", "";
        newSuggestedMoves := [];
        postBoardFen := "start";
      }
    }

    /**
      * "Add Comment": a non-empty comment is appended to the shown post
      * only, and the input is cleared; an empty one changes nothing.
      */
    method HandleAddComment()
      requires Valid()
      modifies this`posts, this`newComment
      ensures Valid()
      ensures old(newComment) == "" ==> unchanged(this)
      ensures old(newComment) != "" ==>
        posts == WithComment(old(posts), currentIndex, old(newComment)) && newComment == "" &&
        CommentCount(posts) == CommentCount(old(posts)) + 1
    {
      if newComment != "" {
        WithCommentCount(posts, currentIndex, newComment);
        posts := WithComment(posts, currentIndex, newComment);
        newComment := "";
      }
    }

    /**
      * "Validate Move": the move typed in is tried on a throwaway board at
      * the form's position; if the engine plays it its notation joins the
      * suggested moves. The input is cleared unless the engine raised.
      */
    method HandleAddMoveToPost()
      requires Valid()
      modifies this`newSuggestedMoves, this`newMove
      ensures Valid()
      ensures old(newMove) == "" ==> unchanged(this)
      ensures old(newMove) != "" ==>
        match Open(engine, newFen)
        case None => unchanged(this)
        case Some(copy) =>
          match engine.move(copy, old(newMove))
          case Moved(_, san) => newSuggestedMoves == old(newSuggestedMoves) + [san] && newMove == ""
          case NoMove => newSuggestedMoves == old(newSuggestedMoves) && newMove == ""
          case Raised => unchanged(this)
    {
      if newMove != "" {
        match Open(engine, newFen) {
          case None =>
          case Some(copy) =>
            match engine.move(copy, newMove) {
              case Moved(_, san) =>
                newSuggestedMoves := newSuggestedMoves + [san];
                newMove := "";
              case NoMove =>
                newMove := "";
              case Raised =>
            }
        }
      }
    }

    /**
      * A suggested move clicked under the shown post: played on a copy of
      * the feed board; the game and the turn label change only if the
      * engine plays it.
      */
    method ExecuteMove(move: string)
      requires Valid()
      modifies this`game, this`currentTurn
      ensures Valid()
      ensures match engine.load(engine.fen(old(game)))
        case None => unchanged(this)
        case Some(copy) =>
          match engine.move(copy, move)
          case Moved(next, _) => game == next && currentTurn == engine.turn(next)
          case _ => unchanged(this)
    {
      match engine.load(engine.fen(game)) {
        case None =>
        case Some(copy) =>
          match engine.move(copy, move) {
            case Moved(next, _) =>
              game := next;
              currentTurn := engine.turn(next);
            case NoMove =>
            case Raised =>
          }
      }
    }

    /**
      * A piece dropped on the feed board: accepted only when a copy of the
      * game can be made, the source square holds a piece of the side to
      * move, and the engine plays the move (promoting to a queen); then the
      * game and the turn label advance. Otherwise the piece snaps back and
      * nothing changes.
      */
    method OnDrop(sourceSquare: string, targetSquare: string) returns (accepted: bool)
      requires Valid()
      modifies this`game, this`currentTurn
      ensures Valid()
      ensures accepted <==>
        engine.load(engine.fen(old(game))).Some? &&
        engine.pieceColor(engine.load(engine.fen(old(game))).value, sourceSquare) == Some(engine.turn(old(game))) &&
        engine.moveFrom(engine.load(engine.fen(old(game))).value, sourceSquare, targetSquare).Moved?
      ensures accepted ==>
        game == engine.moveFrom(engine.load(engine.fen(old(game))).value, sourceSquare, targetSquare).next &&
        currentTurn == engine.turn(game)
      ensures !accepted ==> unchanged(this)
    {
      match engine.load(engine.fen(game)) {
        case None =>
          return false;
        case Some(copy) =>
          match engine.pieceColor(copy, sourceSquare) {
            case None =>
              // reading the colour of a missing piece raises, and the handler catches it
              return false;
            case Some(color) =>
              if color != engine.turn(game) {
                return false;
              }
              match engine.moveFrom(copy, sourceSquare, targetSquare) {
                case Moved(next, _) =>
                  game := next;
                  currentTurn := engine.turn(next);
                  return true;
                case NoMove =>
                  return false;
                case Raised =>
                  return false;
              }
          }
      }
    }

    /** Typing a position string sets both the form's position and the authoring board. */
    method HandleFenChange(value: string)
      requires Valid()
      modifies this`newFen, this`postBoardFen
      ensures Valid()
      ensures newFen == value && postBoardFen == value
    {
      newFen := value;
      postBoardFen := value;
    }
  }
}
