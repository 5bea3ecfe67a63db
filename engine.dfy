/** The usual Some/None wrapper, used for the engine's "null or value" results. */
module Wrappers {
  datatype Option<+T> = None | Some(value: T)
}

/**
  * The chess engine that both components delegate every chess rule to.
  * Its rules are not part of this model: the engine is a value holding
  * total functions over an opaque game-object type `G`, and nothing is
  * required of those functions except where a lemma names a law
  * (`Lawful`, `Strict`, `EchoedAlong`) as a precondition.
  */
module ChessEngine {
  import opened Wrappers

  /** A side; the components show it as "White" or "Black". */
  datatype Color = White | Black

  /**
    * The outcome of asking the engine to play a move on a game object:
    * the move was played (giving the new game object and the move's
    * short algebraic notation), or the engine returned null, or it raised.
    * Engines differ on the last two (one release line returns null for an
    * illegal move, a later one raises); the components react differently
    * to each, so both are kept.
    */
  datatype MoveResult<G> = Moved(next: G, san: string) | NoMove | Raised

  /**
    * The engine's capabilities as the components use them.
    *   load(fen)            constructing a game object from a position string
    *                        (None: the constructor raised);
    *   initial              a game object at the standard initial position
    *                        with an empty history;
    *   fen, turn            the position string and the side to move;
    *   pieceColor(g, sq)    the colour of the piece on a square (None: empty);
    *   move(g, san)         playing a move given as text;
    *   moveFrom(g, a, b)    playing the move from square a to square b,
    *                        promoting to a queen;
    *   history, pgn         the moves played on this object, and its movetext;
    *   loadPgn(g, text)     loading movetext into a game object
    *                        (None: it raised).
    */
  datatype Engine<!G> = Engine(
    load: string -> Option<G>,
    initial: G,
    fen: G -> string,
    turn: G -> Color,
    pieceColor: (G, string) -> Option<Color>,
    move: (G, string) -> MoveResult<G>,
    moveFrom: (G, string, string) -> MoveResult<G>,
    history: G -> seq<string>,
    pgn: G -> string,
    loadPgn: (G, string) -> Option<G>)

  /** The engine keeps `history` as the list of moves played on an object. */
  ghost predicate Lawful<G(!new)>(e: Engine<G>) {
    e.history(e.initial) == [] &&
    forall g, m :: e.move(g, m).Moved? ==>
      e.history(e.move(g, m).next) == e.history(g) + [e.move(g, m).san]
  }

  /** The engine raises on every move it refuses (it never returns null). */
  ghost predicate Strict<G(!new)>(e: Engine<G>) {
    forall g, m :: !e.move(g, m).NoMove?
  }

  /**
    * A game object seeded from a post's position string, where the
    * sentinel "start" means the standard initial position.
    */
  function Open<G>(e: Engine<G>, fen: string): Option<G> {
    if fen != "start" then e.load(fen) else Some(e.initial)
  }

  /**
    * One move played for its effect only, its result ignored: a refused
    * move leaves the object as it was, a raised one aborts (None).
    */
  function Step<G>(e: Engine<G>, g: G, ply: string): Option<G> {
    match e.move(g, ply)
    case Moved(next, _) => Some(next)
    case NoMove => Some(g)
    case Raised => None
  }

  /** The plies played one after another on `g`, as `Step` does each. */
  function Replay<G>(e: Engine<G>, g: G, plies: seq<string>): Option<G>
    decreases |plies|
  {
    if plies == [] then Some(g)
    else match Step(e, g, plies[0])
      case None => None
      case Some(h) => Replay(e, h, plies[1..])
  }

  /**
    * Along the replay of `plies` on `g`, every ply the engine accepts comes
    * back in the notation it was given (the plies were already written in
    * the engine's canonical notation). Only the moves actually played are
    * constrained.
    */
  ghost predicate EchoedAlong<G>(e: Engine<G>, g: G, plies: seq<string>)
    decreases |plies|
  {
    plies == [] ||
    match e.move(g, plies[0])
    case Moved(next, san) => san == plies[0] && EchoedAlong(e, next, plies[1..])
    case NoMove => EchoedAlong(e, g, plies[1..])
    case Raised => true
  }

  /**
    * The notation of the plies the engine accepts while replaying
    * `plies` on `g`, in order, up to the first ply that raises.
    */
  function AppliedSans<G>(e: Engine<G>, g: G, plies: seq<string>): (sans: seq<string>)
    ensures |sans| <= |plies|
    decreases |plies|
  {
    if plies == [] then []
    else match e.move(g, plies[0])
      case Moved(next, san) => [san] + AppliedSans(e, next, plies[1..])
      case NoMove => AppliedSans(e, g, plies[1..])
      case Raised => []
  }

  /**
    * The loop that plays a list of plies on a copy of a game object, one
    * after another, ignoring each move's result and stopping at the first
    * that raises.
    */
  method PlayAll<G>(e: Engine<G>, g: G, plies: seq<string>) returns (r: Option<G>)
    ensures r == Replay(e, g, plies)
  {
    var current := g;
    var i := 0;
    while i < |plies|
      invariant 0 <= i <= |plies|
      invariant Replay(e, g, plies) == Replay(e, current, plies[i..])
    {
      assert plies[i..][1..] == plies[i + 1..];
      match e.move(current, plies[i]) {
        case Moved(next, _) =>
          current := next;
        case NoMove =>
        case Raised =>
          return None;
      }
      i := i + 1;
    }
    return Some(current);
  }

  /** Replaying two lists of plies is replaying their concatenation. */
  lemma {:induction false} ReplayConcat<G>(e: Engine<G>, g: G, a: seq<string>, b: seq<string>)
    ensures Replay(e, g, a + b) ==
            match Replay(e, g, a)
            case None => None
            case Some(h) => Replay(e, h, b)
    decreases |a|
  {
    if a != [] {
      assert (a + b)[0] == a[0];
      assert (a + b)[1..] == a[1..] + b;
      match Step(e, g, a[0]) {
        case None =>
        case Some(h) => ReplayConcat(e, h, a[1..], b);
      }
    } else {
      assert a + b == b;
    }
  }

  /**
    * For an engine that keeps its history, a successful replay extends the
    * history by exactly the notation of the plies the engine accepted.
    */
  lemma {:induction false} ReplayHistory<G(!new)>(e: Engine<G>, g: G, plies: seq<string>)
    requires Lawful(e)
    ensures Replay(e, g, plies).Some? ==>
      e.history(Replay(e, g, plies).value) == e.history(g) + AppliedSans(e, g, plies)
    decreases |plies|
  {
    if plies != [] {
      match e.move(g, plies[0]) {
        case Moved(next, san) =>
          ReplayHistory(e, next, plies[1..]);
          assert e.history(next) == e.history(g) + [san];
        case NoMove =>
          ReplayHistory(e, g, plies[1..]);
        case Raised =>
      }
    }
  }

  /**
    * For an engine that raises on every refused move, a replay succeeds
    * only if every ply was accepted; if the engine also echoes the notation
    * of the plies played, the accepted notation is the plies themselves.
    */
  lemma {:induction false} ReplayStrict<G(!new)>(e: Engine<G>, g: G, plies: seq<string>)
    requires Strict(e)
    ensures Replay(e, g, plies).Some? ==> |AppliedSans(e, g, plies)| == |plies|
    ensures Replay(e, g, plies).Some? && EchoedAlong(e, g, plies) ==> AppliedSans(e, g, plies) == plies
    decreases |plies|
  {
    if plies != [] {
      match e.move(g, plies[0]) {
        case Moved(next, san) =>
          ReplayStrict(e, next, plies[1..]);
          assert plies == [plies[0]] + plies[1..];
        case NoMove =>
        case Raised =>
      }
    }
  }
}
