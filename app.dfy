/**
  * The newer component: a feed of posts with a playable board for the
  * shown post, and an authoring form with its own board, a move
  * validator, a movetext loader and Previous/Next navigation over the
  * loaded moves. Each handler is one atomic transition of the component's
  * state; a handler that raises past its own error handling leaves the
  * state as it was.
  */
module App {
  import opened Wrappers
  import opened ChessEngine
  import opened Feed
  import Movetext

  class Component<G> {
    const engine: Engine<G>

    // the feed
    var posts: seq<Post>
    var currentIndex: int
    var game: G
    var currentTurn: Color
    var newComment: string

    // the authoring form
    var newUsername: string
    var newContent: string
    var newCaption: string
    var newFen: string
    var newMove: string
    var newSuggestedMoves: seq<string>
    var newPgn: string

    // the authoring board and its move history
    var postBoardFen: string
    var postMoves: seq<string>
    var postGame: G
    var postGameHistory: seq<string>
    var postGameCurrentMove: int

    /**
      * The shown post exists, post ids are sequential, and the authoring
      * cursor is -1 (no move applied) or an index into the loaded history.
      */
    ghost predicate Valid()
      reads this
    {
      WellFormed(posts, currentIndex) &&
      -1 <= postGameCurrentMove <= |postGameHistory| - 1
    }

    /** All four fields the "Add Post" button requires are filled in. */
    predicate FormFilled()
      reads this
    {
      newUsername != "" && newContent != "" && newCaption != "" && newFen != ""
    }

    constructor (e: Engine<G>)
      ensures Valid()
      ensures engine == e && posts == SeedPosts() && currentIndex == 0
      ensures game == e.initial && currentTurn == e.turn(e.initial) && newComment == ""
      ensures newUsername == "" && newContent == "" && newCaption == ""
      ensures newFen == StartFen && newMove == "" && newSuggestedMoves == [] && newPgn == ""
      ensures postBoardFen == "start" && postMoves == []
      ensures postGame == e.initial && postGameHistory == [] && postGameCurrentMove == -1
    {
      engine := e;
      SeedWellFormed();
      posts := SeedPosts();
      currentIndex := 0;
      // the first sample post is at the "start" sentinel
      game := e.initial;
      currentTurn := e.turn(e.initial);
      newComment := "";
      newUsername, newContent, newCaption := "", "", "";
      newFen := StartFen;
      newMove := "";
      newSuggestedMoves := [];
      newPgn := "";
      postBoardFen := "start";
      postMoves := [];
      postGame := e.initial;
      postGameHistory := [];
      postGameCurrentMove := -1;
    }

    /**
      * "Next Post": show the following post, wrapping to the first, on a
      * board seeded from its position ("start" meaning the initial one).
      * If the engine cannot read the position, nothing changes.
      */
    method HandleNext()
      requires Valid()
      modifies this`currentIndex, this`game, this`currentTurn
      ensures Valid()
      ensures var next := NextIndex(old(currentIndex), |posts|);
        match Open(engine, posts[next].fen)
        case Some(g) => currentIndex == next && game == g && currentTurn == engine.turn(g)
        case None => unchanged(this)
    {
      var next := NextIndex(currentIndex, |posts|);
      match Open(engine, posts[next].fen) {
        case Some(g) =>
          game := g;
          currentTurn := engine.turn(g);
          currentIndex := next;
        case None =>
      }
    }

    /**
      * "Add Post": when the four fields are filled in, append a post
      * numbered one past the feed's length, carrying the suggested moves
      * and the authored moves, and reset the form and the authoring board.
      */
    method HandleAddPost()
      requires Valid()
      modifies this`posts, this`newUsername, this`newContent, this`newCaption, this`newFen,
               this`newSuggestedMoves, this`postBoardFen, this`postMoves
      ensures Valid()
      ensures !old(FormFilled()) ==> unchanged(this)
      ensures old(FormFilled()) ==>
        posts == old(posts) + [Post(|old(posts)| + 1, old(newUsername), old(newContent),
                                    old(newCaption), old(newFen), [], old(newSuggestedMoves),
                                    Some(old(postMoves)))] &&
        newUsername == "" && newContent == "" && newCaption == "" && newFen == StartFen &&
        newSuggestedMoves == [] && postBoardFen == "start" && postMoves == []
    {
      if FormFilled() {
        var post := Post(|posts| + 1, newUsername, newContent, newCaption,
                         if newFen != "" then newFen else "start",
                         [], newSuggestedMoves, Some(postMoves));
        posts := posts + [post];
        newUsername, newContent, newCaption := "", "", "";
        newFen := StartFen;
        newSuggestedMoves := [];
        postBoardFen := "start";
        postMoves := [];
      }
    }

    /**
      * "Add Comment": a non-empty comment is appended to the shown post
      * only, and the input is cleared; an empty one changes nothing.
      */
    method HandleAddComment()
      requires Valid()
      modifies this`posts, this`newComment
      ensures Valid()
      ensures old(newComment) == "" ==> unchanged(this)
      ensures old(newComment) != "" ==>
        posts == WithComment(old(posts), currentIndex, old(newComment)) && newComment == "" &&
        CommentCount(posts) == CommentCount(old(posts)) + 1
    {
      if newComment != "" {
        WithCommentCount(posts, currentIndex, newComment);
        posts := WithComment(posts, currentIndex, newComment);
        newComment := "";
      }
    }

    /**
      * "Validate Move": the move typed in is tried on a throwaway board at
      * the form's position; if the engine plays it its notation joins the
      * suggested moves. The input is cleared unless the engine raised.
      */
    method HandleAddMoveToPost()
      requires Valid()
      modifies this`newSuggestedMoves, this`newMove
      ensures Valid()
      ensures old(newMove) == "" ==> unchanged(this)
      ensures old(newMove) != "" ==>
        match Open(engine, newFen)
        case None => unchanged(this)
        case Some(copy) =>
          match engine.move(copy, old(newMove))
          case Moved(_, san) => newSuggestedMoves == old(newSuggestedMoves) + [san] && newMove == ""
          case NoMove => newSuggestedMoves == old(newSuggestedMoves) && newMove == ""
          case Raised => unchanged(this)
    {
      if newMove != "" {
        match Open(engine, newFen) {
          case None =>
          case Some(copy) =>
            match engine.move(copy, newMove) {
              case Moved(_, san) =>
                newSuggestedMoves := newSuggestedMoves + [san];
                newMove := "";
              case NoMove =>
                newMove := "";
              case Raised =>
            }
        }
      }
    }

    /**
      * A piece dropped on the feed board: accepted only when a copy of the
      * game can be made, the source square holds a piece of the side to
      * move, and the engine plays the move (promoting to a queen); then the
      * game and the turn label advance. Otherwise the piece snaps back and
      * nothing changes.
      */
    method OnDrop(sourceSquare: string, targetSquare: string) returns (accepted: bool)
      requires Valid()
      modifies this`game, this`currentTurn
      ensures Valid()
      ensures accepted <==>
        engine.load(engine.fen(old(game))).Some? &&
        engine.pieceColor(engine.load(engine.fen(old(game))).value, sourceSquare) == Some(engine.turn(old(game))) &&
        engine.moveFrom(engine.load(engine.fen(old(game))).value, sourceSquare, targetSquare).Moved?
      ensures accepted ==>
        game == engine.moveFrom(engine.load(engine.fen(old(game))).value, sourceSquare, targetSquare).next &&
        currentTurn == engine.turn(game)
      ensures !accepted ==> unchanged(this)
    {
      match engine.load(engine.fen(game)) {
        case None =>
          return false;
        case Some(copy) =>
          match engine.pieceColor(copy, sourceSquare) {
            case None =>
              // reading the colour of a missing piece raises, and the handler catches it
              return false;
            case Some(color) =>
              if color != engine.turn(game) {
                return false;
              }
              match engine.moveFrom(copy, sourceSquare, targetSquare) {
                case Moved(next, _) =>
                  game := next;
                  currentTurn := engine.turn(next);
                  return true;
                case NoMove =>
                  return false;
                case Raised =>
                  return false;
              }
          }
      }
    }

    /** Typing a position string sets both the form's position and the authoring board. */
    method HandleFenChange(value: string)
      requires Valid()
      modifies this`newFen, this`postBoardFen
      ensures Valid()
      ensures newFen == value && postBoardFen == value
    {
      newFen := value;
      postBoardFen := value;
    }

    /**
      * A piece dropped on the authoring board: the board's position string
      * is loaded as it is and the move played; on success the board shows
      * the new position and the move's notation is appended to the
      * authored moves. Otherwise nothing changes.
      */
    method OnPostBoardDrop(sourceSquare: string, targetSquare: string) returns (accepted: bool)
      requires Valid()
      modifies this`postBoardFen, this`postMoves
      ensures Valid()
      ensures accepted <==>
        engine.load(old(postBoardFen)).Some? &&
        engine.moveFrom(engine.load(old(postBoardFen)).value, sourceSquare, targetSquare).Moved?
      ensures accepted ==>
        var played := engine.moveFrom(engine.load(old(postBoardFen)).value, sourceSquare, targetSquare);
        postBoardFen == engine.fen(played.next) && postMoves == old(postMoves) + [played.san]
      ensures !accepted ==> unchanged(this)
    {
      match engine.load(postBoardFen) {
        case None =>
          return false;
        case Some(copy) =>
          match engine.moveFrom(copy, sourceSquare, targetSquare) {
            case Moved(next, san) =>
              postBoardFen := engine.fen(next);
              postMoves := postMoves + [san];
              return true;
            case NoMove =>
              return false;
            case Raised =>
              return false;
          }
      }
    }

    /**
      * "Next Move" on the authoring board: at the end of the history it
      * does nothing; otherwise the next move of the history is played on a
      * copy of the board (its result is not checked) and the cursor
      * advances by one. If the engine raises, nothing changes.
      */
    method HandleNextPostMove()
      requires Valid()
      modifies this`postGame, this`postBoardFen, this`postGameCurrentMove
      ensures Valid()
      ensures postGameCurrentMove == old(postGameCurrentMove) ||
              postGameCurrentMove == old(postGameCurrentMove) + 1
      ensures old(postGameCurrentMove) == |postGameHistory| - 1 ==> unchanged(this)
      ensures old(postGameCurrentMove) < |postGameHistory| - 1 ==>
        var stepped :=
          match engine.load(engine.fen(old(postGame)))
          case None => None
          case Some(copy) => Step(engine, copy, postGameHistory[old(postGameCurrentMove) + 1]);
        match stepped
        case None => unchanged(this)
        case Some(g) =>
          postGame == g && postBoardFen == engine.fen(g) &&
          postGameCurrentMove == old(postGameCurrentMove) + 1
    {
      if postGameCurrentMove < |postGameHistory| - 1 {
        var nextMove := postGameCurrentMove + 1;
        match engine.load(engine.fen(postGame)) {
          case None =>
          case Some(copy) =>
            match engine.move(copy, postGameHistory[nextMove]) {
              case Moved(next, _) =>
                postGame := next;
                postBoardFen := engine.fen(next);
                postGameCurrentMove := nextMove;
              case NoMove =>
                postGame := copy;
                postBoardFen := engine.fen(copy);
                postGameCurrentMove := nextMove;
              case Raised =>
            }
        }
      }
    }

    /**
      * "Previous Move" on the authoring board: at cursor -1 it does
      * nothing; otherwise the board is rebuilt by loading the current
      * game's movetext into a fresh game and replaying the history up to
      * the new cursor on top of it, and the cursor moves back by one. If
      * the engine raises, nothing changes.
      */
    method HandlePreviousPostMove()
      requires Valid()
      modifies this`postGame, this`postBoardFen, this`postGameCurrentMove
      ensures Valid()
      ensures postGameCurrentMove == old(postGameCurrentMove) ||
              postGameCurrentMove == old(postGameCurrentMove) - 1
      ensures old(postGameCurrentMove) == -1 ==> unchanged(this)
      ensures old(postGameCurrentMove) >= 0 ==>
        var replayed :=
          match engine.loadPgn(engine.initial, engine.pgn(old(postGame)))
          case None => None
          case Some(base) => Replay(engine, base, postGameHistory[..old(postGameCurrentMove)]);
        match replayed
        case None => unchanged(this)
        case Some(g) =>
          postGame == g && postBoardFen == engine.fen(g) &&
          postGameCurrentMove == old(postGameCurrentMove) - 1
    {
      if postGameCurrentMove >= 0 {
        var prevMove := postGameCurrentMove - 1;
        match engine.loadPgn(engine.initial, engine.pgn(postGame)) {
          case None =>
          case Some(base) =>
            var replayed := PlayAll(engine, base, postGameHistory[..prevMove + 1]);
            match replayed {
              case None =>
              case Some(g) =>
                postGame := g;
                postBoardFen := engine.fen(g);
                postGameCurrentMove := prevMove;
            }
        }
      }
    }

    /**
      * "Parse PGN": blank input changes nothing. Otherwise the plies the
      * tokenizer finds are played on a fresh game; unless the engine
      * raises, the authoring board takes the final position, the history
      * and the authored moves both become the game's history, the cursor
      * restarts at -1 (while the board shows the final position), and the
      * form's position resets to the initial one.
      */
    method HandlePgnParse()
      requires Valid()
      modifies this`postGame, this`postGameHistory, this`postGameCurrentMove, this`postBoardFen,
               this`postMoves, this`newFen
      ensures Valid()
      ensures match ParsedGame(engine, old(newPgn))
        case None => unchanged(this)
        case Some(g) =>
          postGame == g && postGameHistory == engine.history(g) && postMoves == engine.history(g) &&
          postGameCurrentMove == -1 && postBoardFen == engine.fen(g) && newFen == StartFen
    {
      var parsed := ParsePgn(engine, newPgn);
      ShowParsedGame(parsed);
    }

    /**
      * The updates that end a successful "Parse PGN": the authoring board
      * takes the parsed game, the history and the authored moves become
      * its history, the cursor restarts at -1, and the form's position
      * resets to the initial one. A failed parse changes nothing.
      */
    method ShowParsedGame(parsed: Option<G>)
      requires Valid()
      modifies this`postGame, this`postGameHistory, this`postGameCurrentMove, this`postBoardFen,
               this`postMoves, this`newFen
      ensures Valid()
      ensures match parsed
        case None => unchanged(this)
        case Some(g) =>
          postGame == g && postGameHistory == engine.history(g) && postMoves == engine.history(g) &&
          postGameCurrentMove == -1 && postBoardFen == engine.fen(g) && newFen == StartFen
    {
      match parsed {
        case None =>
        case Some(g) =>
          postGame := g;
          postGameHistory := engine.history(g);
          postGameCurrentMove := -1;
          postBoardFen := engine.fen(g);
          postMoves := engine.history(g);
          newFen := StartFen;
      }
    }
  }

  /**
    * The game "Parse PGN" ends with: none when the text is blank or a ply
    * raises, otherwise the game the tokenizer's plies reach from a fresh one.
    */
  function ParsedGame<G>(e: Engine<G>, text: string): Option<G> {
    if Movetext.Trim(text) == "" then None else Replay(e, e.initial, Movetext.Tokenize(text))
  }

  /** Plays the plies of a non-blank movetext on a fresh game, in order. */
  method ParsePgn<G>(e: Engine<G>, text: string) returns (r: Option<G>)
    ensures r == ParsedGame(e, text)
  {
    if Movetext.Trim(text) == "" {
      return None;
    }
    r := PlayAll(e, e.initial, Movetext.Tokenize(text));
  }

  /**
    * The forEach of "Parse PGN" as written: the chunks that are not blank
    * are taken in turn, and each one's plies are played on the same game;
    * a ply that raises ends the whole loop.
    */
  function PlayChunks<G>(e: Engine<G>, g: G, chunks: seq<string>): Option<G>
    decreases |chunks|
  {
    if chunks == [] then Some(g)
    else
      var plies := if Movetext.Trim(chunks[0]) != [] then Movetext.ChunkPlies(chunks[0]) else [];
      match Replay(e, g, plies)
      case None => None
      case Some(h) => PlayChunks(e, h, chunks[1..])
  }

  /**
    * Playing chunk after chunk is replaying the flattened plies once, so
    * `ParsedGame` is the forEach over the split text.
    */
  lemma {:induction false} ChunkByChunk<G>(e: Engine<G>, g: G, chunks: seq<string>)
    ensures PlayChunks(e, g, chunks) == Replay(e, g, Movetext.PliesOf(chunks))
    decreases |chunks|
  {
    if chunks != [] {
      var plies := if Movetext.Trim(chunks[0]) != [] then Movetext.ChunkPlies(chunks[0]) else [];
      var later := Movetext.PliesOf(chunks[1..]);
      assert Movetext.PliesOf(chunks) == plies + later;
      ReplayConcat(e, g, plies, later);
      match Replay(e, g, plies) {
        case None =>
        case Some(h) => ChunkByChunk(e, h, chunks[1..]);
      }
    }
  }

  /** For non-blank text, `ParsedGame` is the forEach over the chunks of the split. */
  lemma ParsedGameByChunks<G>(e: Engine<G>, text: string)
    ensures Movetext.Trim(text) != "" ==>
      ParsedGame(e, text) == PlayChunks(e, e.initial, Movetext.Chunks(text))
  {
    ChunkByChunk(e, e.initial, Movetext.Chunks(text));
  }

  /**
    * What a successful "Parse PGN" records as the history: with an engine
    * that keeps its history, the notation of the plies it accepted; if it
    * also raises on every refused move and answers each ply played in the
    * notation it was given, exactly the tokenizer's plies.
    */
  lemma ParsedHistory<G(!new)>(e: Engine<G>, text: string)
    requires Lawful(e)
    ensures ParsedGame(e, text).Some? ==>
      e.history(ParsedGame(e, text).value) == AppliedSans(e, e.initial, Movetext.Tokenize(text))
    ensures ParsedGame(e, text).Some? && Strict(e) && EchoedAlong(e, e.initial, Movetext.Tokenize(text)) ==>
      e.history(ParsedGame(e, text).value) == Movetext.Tokenize(text)
  {
    var plies := Movetext.Tokenize(text);
    ReplayHistory(e, e.initial, plies);
    assert [] + AppliedSans(e, e.initial, plies) == AppliedSans(e, e.initial, plies);
    if Strict(e) {
      ReplayStrict(e, e.initial, plies);
    }
  }

  /**
    * Parsing "1. e4 e5 2. Nf3" with such an engine, when it succeeds,
    * records the history e4, e5, Nf3.
    */
  lemma ParseExample<G(!new)>(e: Engine<G>)
    requires Lawful(e) && Strict(e) && EchoedAlong(e, e.initial, ["e4", "e5", "Nf3"])
    ensures ParsedGame(e, "1. e4 e5 2. Nf3").Some? ==>
      e.history(ParsedGame(e, "1. e4 e5 2. Nf3").value) == ["e4", "e5", "Nf3"]
  {
    Movetext.TokenizeExample();
    ParsedHistory(e, "1. e4 e5 2. Nf3");
  }
}
