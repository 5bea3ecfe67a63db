# chess-x: the feed and authoring-board bookkeeping, in Dafny

chess-x is a browser demo of a social feed whose posts carry chess
positions. Readers step through the posts and comment on them. Authors
write a post with a board of its own. They can drag pieces, type a
position string, validate suggested moves and paste movetext, then step
back and forth through the loaded moves. Every chess rule (legality,
notation, position strings, movetext, history) comes from an external
chess library. The repository's own code is the state bookkeeping around
it, in two variants of the component: `src/App.js` (module `App`) and the
older `src/App2.js` (module `App2`).

This model covers that bookkeeping:

- `engine.dfy` holds `ChessEngine`. The chess library is a value
  `Engine<G>` of total functions over an opaque game-object type `G`.
  Playing a move returns `Moved(next, san)`, `NoMove` (the library
  returned null) or `Raised` (it threw). Library versions differ on the
  last two, and the handlers react to each differently, so the model
  keeps both. `Replay` is the loop that plays a list of plies for their
  effect and stops at the first that raises; `PlayAll` is that loop as a
  method. Laws about the library (`Lawful`: history records each accepted
  move; `Strict`: a refused move raises; `EchoedAlong`: each ply played
  in a given replay comes back in the notation it was written in) appear
  only as preconditions of the lemmas that need them.
- `feed.dfy` holds `Feed`: the post record, the three sample posts,
  index cycling, adding a comment, and the feed invariant (a non-empty
  list, an index into it, ids 1, 2, 3, … in order).
- `movetext.dfy` holds `Movetext`: the "Parse PGN" tokenizer as the code
  writes it. It splits at `/\d+\./`, drops chunks that are blank after
  trimming, trims each chunk and splits it at single spaces, and keeps
  its first and second tokens, each only when non-empty. The module
  proves that the tokenizer inverts the usual rendering "1. e4 e5 2. Nf3"
  for plain tokens. It also proves the cases the simplification gets
  wrong: a double space drops Black's ply, and in a chunk that starts
  (after any white space) with two plain tokens, every token after the
  second is ignored, as in " e4 e5 Nf3 ". It is a loose simplification
  of the move number indications of section 8.2.2 of the PGN standard.
  Comments, annotation glyphs, "..." and result tokens are not
  recognised.
- `app.dfy` and `app2.dfy` hold the components as classes. The fields are
  the component's state variables. Each handler is a method whose
  `modifies` frame names exactly the state variables it may set. Every
  handler keeps `Valid()`: the shown post exists, ids stay sequential,
  and the authoring cursor stays in `[-1, |history| - 1]`.

Behaviour kept as the code has it, where a reader might expect
otherwise:

- Dropping a piece on the authoring board appends to the authored moves
  only. It does not touch the navigable history or the cursor, and
  nothing truncates a "redo tail".
- "Next Move" on the authoring board advances the cursor even when the
  library returns null for the move. "Previous Move" reloads the current
  game's movetext and replays the history prefix on top of it. It does
  not undo.
- After a successful "Parse PGN" the cursor is -1 while the board shows
  the final position.
- Whether an illegal ply makes "Parse PGN" fail depends on the library.
  A ply that raises aborts the handler with no change (`ReplayStrict`).
  A ply refused with null is skipped, and the rest are still played.
- The authoring board is loaded from its position string as it is,
  including the initial sentinel "start". The feed board is different:
  it maps "start" to the initial position (`Open`).
- Typing a position string sets the form's position and the authoring
  board. It does not reset any history.
- In "Add Post" the `newFen || 'start'` fallback never applies, because
  the guard requires the position to be non-empty. The contract states
  the new post's position as the form's position.

A handler whose exception escapes its own `try` (a position the library
cannot read in "Next Post" or "Validate Move", a ply that raises during
navigation) is modelled as leaving the state unchanged. "Parse PGN" is
different: its own `try` catches a ply that raises, and since every
setter runs after the loop, the state stays as it was (`ParsedGame` is
`None` and `ShowParsedGame` changes nothing).

## Model

| member | source | states |
|---|---|---|
| `ChessEngine.PlayAll` | src/App.js:209-211 | the loop that plays plies in order on a copy returns exactly `Replay`: each ply's result is ignored, and the first ply that raises aborts with None |
| `ChessEngine.AppliedSans` | src/App.js:227-231 | at most one notation is recorded per ply played |
| `ChessEngine.ReplayConcat` | src/App.js:227-231 | playing the plies chunk after chunk is the same as playing the concatenated list once |
| `ChessEngine.ReplayHistory` | src/App.js:233-237 | with a library that keeps its history, a successful replay extends the history by exactly the notation of the accepted plies, in order |
| `ChessEngine.ReplayStrict` | src/App.js:220-245 | with a library that raises on refused moves, a successful replay accepted every ply; if it also answers each ply played in the notation it was given, the recorded notation is the plies themselves |
| `Feed.SeedWellFormed` | src/App.js:7-35 | the feed starts with three posts numbered 1 to 3, so the first shown post exists and ids are sequential |
| `Feed.NextIndex` | src/App.js:58 | the next post index is in `[0, count)`: one further, or 0 after the last post |
| `Feed.Advance` | src/App.js:56-63 | any number of "Next Post" presses keeps the index inside the feed |
| `Feed.AdvanceWraps` | src/App2.js:53 | k presses (k ≤ count) move the index forward by k, wrapping once past the end |
| `Feed.FullCycle` | src/App2.js:51-59 | after as many presses as there are posts, the same post is shown again |
| `Feed.WithComment` | src/App.js:91-94 | the list keeps its length; the post at the index gains the comment at the end and nothing else; every other post is unchanged |
| `Feed.WithCommentCount` | src/App.js:89-98 | adding a comment to a post in the feed adds exactly one comment to the whole feed |
| `Movetext.TrimStart` | src/App.js:222 | the result is a suffix of the input, starts with a non-white-space character, and everything dropped is white space |
| `Movetext.TrimEnd` | src/App.js:228 | the result is a prefix of the input, ends with a non-white-space character, and everything dropped is white space |
| `Movetext.DigitRun` | src/App.js:224 | the length of the leading digit run: all digits, followed by a non-digit or the end |
| `Movetext.MoveNumberAt` | src/App.js:224 | a match of `\d+\.` at the start is at least two characters long, all digits and then a dot |
| `Movetext.SplitMoveNumbers` | src/App.js:224 | splitting always yields at least one piece; `SplitMissesNone`, `Separators` and `SplitInterleave` state that it cuts at every move number and only there, and loses nothing |
| `Movetext.Separators` | src/App.js:224 | every piece of text the split removes is a move number: one or more digits, then a dot |
| `Movetext.SplitMissesNone` | src/App.js:224 | the split misses no move number: no piece contains a digit followed by a dot, and no piece before a separator ends in a digit, so each separator is the leftmost, longest match |
| `Movetext.ChunksMissNone` | src/App.js:224 | no chunk of a movetext keeps a move number inside it |
| `Movetext.SplitInterleave` | src/App.js:224 | the split loses nothing: there is one more piece than removed move numbers, and putting the numbers back between the pieces gives back the text |
| `Movetext.SplitSkips` | src/App.js:224 | text with no dot (and no digit just before what follows it) is not split |
| `Movetext.SplitAtNumber` | src/App.js:224 | a move number ends the current piece, and the text after it starts a new one |
| `Movetext.TrimAround` | src/App.js:228 | trimming strips exactly the surrounding white space from text with visible ends |
| `Movetext.SplitOnSpace` | src/App.js:228 | splitting at single spaces yields at least one token and no token contains a space |
| `Movetext.SplitJoin` | src/App.js:228 | the tokens of a split, joined with single spaces, give back the text |
| `Movetext.JoinSplit` | src/App.js:228 | splitting space-free tokens joined with single spaces gives back exactly those tokens |
| `Movetext.ChunkPlies` | src/App.js:228-230 | a chunk contributes at most two plies, each non-empty and free of spaces |
| `Movetext.PliesOf` | src/App.js:224-231 | a list of chunks contributes at most two plies per chunk, each non-empty and free of spaces |
| `Movetext.Tokenize` | src/App.js:224-230 | every ply the tokenizer yields is non-empty and contains no space |
| `Movetext.TokenizeRender` | src/App.js:224-230 | for numbered moves of plain tokens, the tokenizer yields every ply of the rendered movetext, in order, and nothing else |
| `Movetext.RenderExample` | src/App.js:224 | the moves e4 e5 and Nf3 render as "1. e4 e5 2. Nf3" |
| `Movetext.TokenizeExample` | src/App.js:224-230 | "1. e4 e5 2. Nf3" yields e4, e5, Nf3 |
| `Movetext.DoubleSpaceDropsBlack` | src/App.js:228-230 | "w  b" (two spaces) yields only w, because the second token is empty |
| `Movetext.LaterTokensIgnored` | src/App.js:228-230 | a chunk made of any leading white space, then "w b", then a space and any further text, yields w and b; no token after the second is played |
| `Movetext.SpacedChunkExample` | src/App.js:224-230 | the chunk " e4 e5 Nf3 " that spaced movetext "1. e4 e5 Nf3 2. d4" leaves between its move numbers yields e4 and e5; Nf3 is dropped |
| `App.Component.constructor` | src/App.js:37-54 | the initial state: the sample posts, index 0, both boards at the initial position, an empty history and cursor -1 |
| `App.Component.HandleNext` | src/App.js:56-64 | the index becomes `(old + 1) % count`, and the game is re-seeded from that post's position ("start" = initial); if the library cannot read the position, nothing changes |
| `App.Component.HandleAddPost` | src/App.js:66-87 | no change unless username, content, caption and position are all non-empty; otherwise one post is appended with id count+1, that position, no comments, the suggested moves and the authored moves, and the form and authoring board are reset |
| `App.Component.HandleAddComment` | src/App.js:89-99 | no change on an empty comment; otherwise only the shown post gains it (the feed gains exactly one comment) and the input is cleared |
| `App.Component.HandleAddMoveToPost` | src/App.js:101-112 | no change on an empty move; an accepted move appends exactly its notation to the suggestions; a refused one leaves them unchanged; the input is cleared unless the library raised; no board is touched |
| `App.Component.OnDrop` | src/App.js:123-145 | accepted exactly when the copy loads, the source square holds a piece of the side to move, and the library plays the move; then game and turn advance; otherwise false and no change |
| `App.Component.HandleFenChange` | src/App.js:147-150 | the form's position and the authoring board's position both become the typed value |
| `App.Component.OnPostBoardDrop` | src/App.js:152-168 | accepted exactly when the board's position loads and the library plays the move; then the board shows the new position and exactly one notation is appended to the authored moves; otherwise false and no change |
| `App.Component.HandleNextPostMove` | src/App.js:186-195 | no change at the end of the history; otherwise the next history move is stepped on a copy and the cursor goes up by exactly one (no change if the library raises); the history is untouched and the cursor stays in range |
| `App.Component.HandlePreviousPostMove` | src/App.js:204-216 | no change at cursor -1; otherwise the board is the replay of the history prefix on the reloaded movetext, and the cursor goes down by exactly one (no change if the library raises); the history is untouched and the cursor stays in range |
| `App.Component.HandlePgnParse` | src/App.js:219-246 | no change on blank input or if a ply raises; otherwise board, history and authored moves come from the plies played on a fresh game, the cursor is -1, and the form's position is reset |
| `App.Component.ShowParsedGame` | src/App.js:233-238 | a parsed game becomes the authoring board's game, its history becomes both the navigable history and the authored moves, the cursor restarts at -1 and the form's position resets; no game, no change |
| `App.ParsePgn` | src/App.js:220-231 | the game reached is exactly `ParsedGame`: none for blank text, otherwise the tokenizer's plies replayed on a fresh game |
| `App.ParsedHistory` | src/App.js:233-237 | the history a successful parse records is the notation of the accepted plies; with a strict library that answers each ply played in the notation it was given, it is exactly the tokenizer's plies |
| `App.ChunkByChunk` | src/App.js:227-231 | playing each non-blank chunk's plies in turn on the same game, stopping at a raise, is replaying the flattened plies once |
| `App.ParsedGameByChunks` | src/App.js:222-231 | for non-blank text, the parsed game is the forEach over the chunks of the split, as written |
| `App.ParseExample` | src/App.js:219-237 | with a strict library that answers e4, e5 and Nf3 in that notation, a successful parse of "1. e4 e5 2. Nf3" records the history e4, e5, Nf3 |
| `App2.Component.constructor` | src/App2.js:37-49 | the initial state: the sample posts, index 0, the game at the initial position, and an empty form position |
| `App2.Component.HandleNext` | src/App2.js:51-59 | the index becomes `(old + 1) % count`, and the game is re-seeded from that post's position; if the position cannot be read, nothing changes |
| `App2.Component.HandleAddPost` | src/App2.js:61-80 | no change unless the four fields are non-empty; otherwise one post with id count+1, no comments, the suggested moves and no authored moves is appended, and the form (position to empty) is reset |
| `App2.Component.HandleAddComment` | src/App2.js:82-92 | no change on an empty comment; otherwise only the shown post gains it and the input is cleared |
| `App2.Component.HandleAddMoveToPost` | src/App2.js:94-105 | an accepted move appends exactly its notation, a refused one leaves the list unchanged, and the input is cleared unless the library raised |
| `App2.Component.ExecuteMove` | src/App2.js:107-114 | game and turn change only when the library plays the move on a copy; otherwise nothing changes |
| `App2.Component.OnDrop` | src/App2.js:116-140 | false and no change for a missing piece, a wrong-colour piece, a refused or raising move; otherwise true, with game and turn advanced |
| `App2.Component.HandleFenChange` | src/App2.js:142-145 | the form's position and the authoring board's position both become the typed value |

## Left out

- Chess rules, move notation, position strings and movetext are the external library's. Here they are the opaque functions of `Engine<G>`.
- "Next Move"/"Previous Move" on the feed board (src/App.js:179-185, 199-204) are left out. They depend on library internals. The copy made from `game.fen()` starts with an empty history, so undo does nothing and Next always plays the post's first move. The sample posts have no `moves` field, so Next on them raises.
- `executeMove` and `executePostMove` in src/App.js (114-121, 170-176) are left out because nothing in that component calls them. `App2.Component.ExecuteMove` models the identical `executeMove` of src/App2.js.
- Rendering, styling and the board widget are left out, along with the inline `onChange` setters that copy an input's text into a field.
- `alert` and `console.error` are I/O, so they are left out.
- React's scheduling and batching of state updates is not modelled. Each handler is one atomic transition.
- When an exception escapes a handler (for example inside a state-updater function), React's own error handling is not modelled. The state is left unchanged.
- The library's history, movetext and position strings are not interpreted. Properties about them hold only under the stated laws `Lawful`, `Strict` and `EchoedAlong`.
