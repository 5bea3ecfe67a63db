/**
  * The tokenizer behind "Parse PGN": the text is split at every move
  * number (one or more digits followed by a dot), chunks that are blank
  * once trimmed are dropped, and each remaining chunk is trimmed, split at
  * single spaces, and contributes its first token and, when present and
  * non-empty, its second. It is a loose simplification of the move-number
  * indications of movetext (section 8.2.2 of the PGN standard): comments,
  * annotation glyphs, "..." and result tokens are not recognised, and this
  * module models the splitting as the component does it.
  */
module Movetext {
  import opened Wrappers

  /** The characters `String.prototype.trim` removes: ECMAScript white space and line terminators. */
  predicate IsWhitespace(c: char) {
    c == '\t' || c == '\n' || c == '\U{000B}' || c == '\U{000C}' || c == '\r' || c == ' ' ||
    c == '\U{00A0}' || c == '\U{1680}' || ('\U{2000}' <= c <= '\U{200A}') ||
    c == '\U{2028}' || c == '\U{2029}' || c == '\U{202F}' || c == '\U{205F}' ||
    c == '\U{3000}' || c == '\U{FEFF}'
  }

  predicate IsDigit(c: char) {
    '0' <= c <= '9'
  }

  /** `s` without its leading white space. */
  function TrimStart(s: string): (r: string)
    ensures |r| <= |s| && r == s[|s| - |r|..]
    ensures r == [] || !IsWhitespace(r[0])
    ensures forall i :: 0 <= i < |s| - |r| ==> IsWhitespace(s[i])
  {
    if s != [] && IsWhitespace(s[0]) then
      var r := TrimStart(s[1..]);
      assert s[1..][|s| - 1 - |r|..] == s[|s| - |r|..];
      assert forall i :: 1 <= i < |s| - |r| ==> s[i] == s[1..][i - 1];
      r
    else s
  }

  /** `s` without its trailing white space. */
  function TrimEnd(s: string): (r: string)
    ensures |r| <= |s| && r == s[..|r|]
    ensures r == [] || !IsWhitespace(r[|r| - 1])
    ensures forall i :: |r| <= i < |s| ==> IsWhitespace(s[i])
  {
    if s != [] && IsWhitespace(s[|s| - 1]) then
      var r := TrimEnd(s[..|s| - 1]);
      assert s[..|s| - 1][..|r|] == s[..|r|];
      r
    else s
  }

  /** `String.prototype.trim`. */
  function Trim(s: string): string {
    TrimEnd(TrimStart(s))
  }

  /** The number of digits `s` starts with. */
  function DigitRun(s: string): (n: nat)
    ensures n <= |s|
    ensures forall i :: 0 <= i < n ==> IsDigit(s[i])
    ensures n == |s| || !IsDigit(s[n])
  {
    if s != [] && IsDigit(s[0]) then 1 + DigitRun(s[1..]) else 0
  }

  /**
    * The length of the match of /\d+\./ at the start of `s`, 0 if there is
    * none. The greedy digit run can only be followed by the dot if the
    * longest run is, so the match, when there is one, is unique.
    */
  function MoveNumberAt(s: string): (n: nat)
    ensures n <= |s|
    ensures n > 0 ==> n >= 2 && s[n - 1] == '.' && forall i :: 0 <= i < n - 1 ==> IsDigit(s[i])
  {
    var d := DigitRun(s);
    if 0 < d < |s| && s[d] == '.' then d + 1 else 0
  }

  /**
    * `String.prototype.split(/\d+\./)`: the pieces between move numbers,
    * scanning left to right for the leftmost match; `piece` is the text
    * gathered since the last move number.
    */
  function SplitMoveNumbers(s: string, piece: string): (pieces: seq<string>)
    ensures |pieces| >= 1
    decreases |s|
  {
    if s == [] then [piece]
    else if MoveNumberAt(s) > 0 then [piece] + SplitMoveNumbers(s[MoveNumberAt(s)..], [])
    else SplitMoveNumbers(s[1..], piece + [s[0]])
  }

  function Chunks(text: string): seq<string> {
    SplitMoveNumbers(text, [])
  }

  /** A move number as the split removes it: one or more digits, then a dot. */
  ghost predicate IsMoveNumber(t: string) {
    |t| >= 2 && t[|t| - 1] == '.' && forall i :: 0 <= i < |t| - 1 ==> IsDigit(t[i])
  }

  /** The move numbers `SplitMoveNumbers` removes from `s`, in order. */
  function Separators(s: string): (seps: seq<string>)
    ensures forall i :: 0 <= i < |seps| ==> IsMoveNumber(seps[i])
    decreases |s|
  {
    if s == [] then []
    else if MoveNumberAt(s) > 0 then [s[..MoveNumberAt(s)]] + Separators(s[MoveNumberAt(s)..])
    else Separators(s[1..])
  }

  /** Pieces and the separators between them, put back together. */
  function Interleave(pieces: seq<string>, seps: seq<string>): string
    requires |pieces| == |seps| + 1
    decreases |seps|
  {
    if seps == [] then pieces[0] else pieces[0] + seps[0] + Interleave(pieces[1..], seps[1..])
  }

  /** `String.prototype.split(' ')`; `piece` is the text gathered since the last space. */
  function SplitOnSpace(s: string, piece: string): (tokens: seq<string>)
    requires ' ' !in piece
    ensures |tokens| >= 1
    ensures forall i :: 0 <= i < |tokens| ==> ' ' !in tokens[i]
    decreases |s|
  {
    if s == [] then [piece]
    else if s[0] == ' ' then [piece] + SplitOnSpace(s[1..], [])
    else SplitOnSpace(s[1..], piece + [s[0]])
  }

  /** Tokens joined with single spaces, the inverse of `SplitOnSpace`. */
  function Join(tokens: seq<string>): string
    requires |tokens| >= 1
    decreases |tokens|
  {
    if |tokens| == 1 then tokens[0] else tokens[0] + " " + Join(tokens[1..])
  }

  /**
    * The plies one chunk contributes: its first and second space-separated
    * tokens, each only when non-empty; later tokens are ignored.
    */
  function ChunkPlies(chunk: string): (plies: seq<string>)
    ensures |plies| <= 2
    ensures forall i :: 0 <= i < |plies| ==> plies[i] != [] && ' ' !in plies[i]
  {
    var tokens := SplitOnSpace(Trim(chunk), []);
    var white := tokens[0];
    (if white != [] then [white] else []) +
    (if |tokens| > 1 && tokens[1] != [] then [tokens[1]] else [])
  }

  /** The plies of a list of chunks, skipping the chunks that are blank. */
  function PliesOf(chunks: seq<string>): (plies: seq<string>)
    ensures |plies| <= 2 * |chunks|
    ensures forall i :: 0 <= i < |plies| ==> plies[i] != [] && ' ' !in plies[i]
  {
    if chunks == [] then []
    else (if Trim(chunks[0]) != [] then ChunkPlies(chunks[0]) else []) + PliesOf(chunks[1..])
  }

  /** The plies the component plays for a movetext, in order. */
  function Tokenize(text: string): (plies: seq<string>)
    ensures forall i :: 0 <= i < |plies| ==> plies[i] != [] && ' ' !in plies[i]
  {
    PliesOf(Chunks(text))
  }

  // ---------------------------------------------------------------------
  // Well-formed movetext, and the tokenizer as its inverse

  /** A move as written in movetext: no white space, no dot, not empty. */
  ghost predicate IsPlainToken(t: string) {
    t != [] && '.' !in t && forall i :: 0 <= i < |t| ==> !IsWhitespace(t[i])
  }

  /** A numbered move: White's ply and, unless the game ends there, Black's. */
  datatype FullMove = FullMove(white: string, black: Option<string>)

  ghost predicate IsPlainMove(m: FullMove) {
    IsPlainToken(m.white) && (m.black.Some? ==> IsPlainToken(m.black.value))
  }

  /** The decimal notation of `n`. */
  function Decimal(n: nat): (digits: string)
    ensures digits != [] && forall i :: 0 <= i < |digits| ==> IsDigit(digits[i])
  {
    if n < 10 then ['0' + n as char] else Decimal(n / 10) + ['0' + (n % 10) as char]
  }

  /** The plies of a numbered move, White's first. */
  function MovePlies(m: FullMove): seq<string> {
    [m.white] + (if m.black.Some? then [m.black.value] else [])
  }

  function AllPlies(moves: seq<FullMove>): seq<string> {
    if moves == [] then [] else MovePlies(moves[0]) + AllPlies(moves[1..])
  }

  /** The text after a move number: " e4 e5", followed by a space unless it is the last. */
  function MoveText(m: FullMove, last: bool): string {
    " " + m.white + (if m.black.Some? then " " + m.black.value else "") + (if last then "" else " ")
  }

  /** Movetext as usually written, "1. e4 e5 2. Nf3", numbering from `n`. */
  function RenderFrom(moves: seq<FullMove>, n: nat): string {
    if moves == [] then []
    else Decimal(n) + "." + MoveText(moves[0], |moves| == 1) + RenderFrom(moves[1..], n + 1)
  }

  function Render(moves: seq<FullMove>): string {
    RenderFrom(moves, 1)
  }

  function MoveTexts(moves: seq<FullMove>): seq<string> {
    if moves == [] then [] else [MoveText(moves[0], |moves| == 1)] + MoveTexts(moves[1..])
  }

  /** Text with no dot, not ending in a digit unless nothing follows it, holds no move number. */
  lemma {:induction false} SplitSkips(x: string, y: string, piece: string)
    requires '.' !in x
    requires y == [] || x == [] || !IsDigit(x[|x| - 1])
    ensures SplitMoveNumbers(x + y, piece) == SplitMoveNumbers(y, piece + x)
    decreases |x|
  {
    if x == [] {
      assert x + y == y && piece + x == piece;
    } else {
      var s := x + y;
      var d := DigitRun(s);
      if d < |x| {
        assert s[d] == x[d] && x[d] in x;
      } else {
        assert s[|x| - 1] == x[|x| - 1];
        assert y == [];
      }
      assert MoveNumberAt(s) == 0;
      assert s[1..] == x[1..] + y;
      assert piece + [s[0]] + x[1..] == piece + x;
      SplitSkips(x[1..], y, piece + [s[0]]);
    }
  }

  /** A move number ends the current piece. */
  lemma SplitAtNumber(digits: string, y: string, piece: string)
    requires digits != [] && forall i :: 0 <= i < |digits| ==> IsDigit(digits[i])
    ensures SplitMoveNumbers(digits + "." + y, piece) == [piece] + SplitMoveNumbers(y, [])
  {
    var s := digits + "." + y;
    assert s[|digits|] == '.';
    DigitRunOf(digits, "." + y);
    assert MoveNumberAt(s) == |digits| + 1;
    assert s[|digits| + 1..] == y;
  }

  lemma {:induction false} DigitRunOf(digits: string, rest: string)
    requires forall i :: 0 <= i < |digits| ==> IsDigit(digits[i])
    requires rest != [] && !IsDigit(rest[0])
    ensures DigitRun(digits + rest) == |digits|
    decreases |digits|
  {
    if digits == [] {
      assert digits + rest == rest;
    } else {
      assert (digits + rest)[1..] == digits[1..] + rest;
      DigitRunOf(digits[1..], rest);
    }
  }

  lemma InterleaveCons(p: string, sep: string, pieces: seq<string>, seps: seq<string>)
    requires |pieces| == |seps| + 1
    ensures Interleave([p] + pieces, [sep] + seps) == p + sep + Interleave(pieces, seps)
  {
    assert ([p] + pieces)[1..] == pieces && ([sep] + seps)[1..] == seps;
  }

  /** At a move number the split closes the pending piece and removes the number. */
  lemma SplitAtMatch(s: string, piece: string, n: nat)
    requires s != [] && n == MoveNumberAt(s) && n > 0
    ensures SplitMoveNumbers(s, piece) == [piece] + SplitMoveNumbers(s[n..], [])
    ensures Separators(s) == [s[..n]] + Separators(s[n..])
  {
  }

  /** Before anything but a move number the split moves one character into the piece. */
  lemma SplitPastChar(s: string, piece: string)
    requires s != [] && MoveNumberAt(s) == 0
    ensures SplitMoveNumbers(s, piece) == SplitMoveNumbers(s[1..], piece + [s[0]])
    ensures Separators(s) == Separators(s[1..])
  {
  }

  /** Re-associating the piece with the text cut at `n`. */
  lemma ConcatAt(piece: string, s: string, n: nat)
    requires n <= |s|
    ensures piece + s[..n] + s[n..] == piece + s
  {
    assert s[..n] + s[n..] == s;
  }

  lemma InterleaveAtMatch(s: string, piece: string, n: nat)
    requires s != [] && n == MoveNumberAt(s) && n > 0
    requires |SplitMoveNumbers(s[n..], [])| == |Separators(s[n..])| + 1
    requires Interleave(SplitMoveNumbers(s[n..], []), Separators(s[n..])) == s[n..]
    ensures |SplitMoveNumbers(s, piece)| == |Separators(s)| + 1
    ensures Interleave(SplitMoveNumbers(s, piece), Separators(s)) == piece + s
  {
    SplitAtMatch(s, piece, n);
    InterleaveCons(piece, s[..n], SplitMoveNumbers(s[n..], []), Separators(s[n..]));
    ConcatAt(piece, s, n);
  }

  lemma InterleavePastChar(s: string, piece: string)
    requires s != [] && MoveNumberAt(s) == 0
    requires |SplitMoveNumbers(s[1..], piece + [s[0]])| == |Separators(s[1..])| + 1
    requires Interleave(SplitMoveNumbers(s[1..], piece + [s[0]]), Separators(s[1..])) == piece + [s[0]] + s[1..]
    ensures |SplitMoveNumbers(s, piece)| == |Separators(s)| + 1
    ensures Interleave(SplitMoveNumbers(s, piece), Separators(s)) == piece + s
  {
    SplitPastChar(s, piece);
    ConcatAt(piece, s, 1);
    assert s[..1] == [s[0]];
  }

  /**
    * The split loses nothing: the pieces, with the removed move numbers
    * put back between them, give back the text (after the pending piece).
    */
  lemma {:induction false} SplitInterleave(s: string, piece: string)
    ensures |SplitMoveNumbers(s, piece)| == |Separators(s)| + 1
    ensures Interleave(SplitMoveNumbers(s, piece), Separators(s)) == piece + s
    decreases |s|
  {
    if s == [] {
      assert piece + s == piece;
    } else if MoveNumberAt(s) > 0 {
      SplitInterleave(s[MoveNumberAt(s)..], []);
      InterleaveAtMatch(s, piece, MoveNumberAt(s));
    } else {
      SplitInterleave(s[1..], piece + [s[0]]);
      InterleavePastChar(s, piece);
    }
  }

  /** `p` contains a match of /\d+\./: some digit directly followed by a dot. */
  ghost predicate HoldsMoveNumber(p: string) {
    exists i :: 0 <= i < |p| - 1 && IsDigit(p[i]) && p[i + 1] == '.'
  }

  /**
    * The scan state is consistent: the pending piece holds no move number,
    * and if it ends in a digit, the text does not continue that digit run
    * into a dot (the scan would have matched earlier).
    */
  ghost predicate Pending(piece: string, s: string) {
    !HoldsMoveNumber(piece) &&
    (piece != [] && IsDigit(piece[|piece| - 1]) ==> !(DigitRun(s) < |s| && s[DigitRun(s)] == '.'))
  }

  /**
    * The split misses no move number: no piece contains one, and no piece
    * before a separator ends in a digit, so each separator is the leftmost,
    * longest match where it stands.
    */
  lemma {:induction false} SplitMissesNone(s: string, piece: string)
    requires Pending(piece, s)
    ensures forall k :: 0 <= k < |SplitMoveNumbers(s, piece)| ==> !HoldsMoveNumber(SplitMoveNumbers(s, piece)[k])
    ensures forall k :: 0 <= k < |SplitMoveNumbers(s, piece)| - 1 ==>
      var p := SplitMoveNumbers(s, piece)[k]; p == [] || !IsDigit(p[|p| - 1])
    decreases |s|
  {
    if s == [] {
    } else if MoveNumberAt(s) > 0 {
      var n := MoveNumberAt(s);
      SplitMissesNone(s[n..], []);
      var rest := SplitMoveNumbers(s[n..], []);
      assert SplitMoveNumbers(s, piece) == [piece] + rest;
    } else {
      var p2 := piece + [s[0]];
      forall i | 0 <= i < |p2| - 1
        ensures !(IsDigit(p2[i]) && p2[i + 1] == '.')
      {
        if i < |piece| - 1 {
          assert p2[i] == piece[i] && p2[i + 1] == piece[i + 1];
        } else {
          assert p2[i] == piece[|piece| - 1] && p2[i + 1] == s[0];
        }
      }
      if IsDigit(s[0]) {
        var t := s[1..];
        assert DigitRun(s) == 1 + DigitRun(t);
        assert DigitRun(t) < |t| ==> t[DigitRun(t)] == s[DigitRun(s)];
      }
      assert Pending(p2, s[1..]);
      SplitMissesNone(s[1..], p2);
    }
  }

  /** No chunk of a movetext keeps a move number inside it. */
  lemma ChunksMissNone(text: string)
    ensures forall k :: 0 <= k < |Chunks(text)| ==> !HoldsMoveNumber(Chunks(text)[k])
  {
    SplitMissesNone(text, []);
  }

  /** The text of a plain move holds no dot, and ends in a space unless it is the last. */
  lemma MoveTextShape(m: FullMove, last: bool)
    requires IsPlainMove(m)
    ensures '.' !in MoveText(m, last)
    ensures !last ==> MoveText(m, last)[|MoveText(m, last)| - 1] == ' '
  {
  }

  lemma {:induction false} SplitRendered(moves: seq<FullMove>, n: nat, piece: string)
    requires forall i :: 0 <= i < |moves| ==> IsPlainMove(moves[i])
    ensures SplitMoveNumbers(RenderFrom(moves, n), piece) == [piece] + MoveTexts(moves)
    decreases |moves|
  {
    if moves != [] {
      var body := MoveText(moves[0], |moves| == 1);
      var rest := RenderFrom(moves[1..], n + 1);
      assert Decimal(n) + "." + body + rest == Decimal(n) + "." + (body + rest);
      SplitAtNumber(Decimal(n), body + rest, piece);
      assert |moves| == 1 ==> rest == [];
      MoveTextShape(moves[0], |moves| == 1);
      SplitSkips(body, rest, []);
      assert [] + body == body;
      SplitRendered(moves[1..], n + 1, body);
    }
  }

  lemma {:induction false} TrimStartOf(pre: string, core: string)
    requires forall i :: 0 <= i < |pre| ==> IsWhitespace(pre[i])
    requires core != [] && !IsWhitespace(core[0])
    ensures TrimStart(pre + core) == core
    decreases |pre|
  {
    if pre == [] {
      assert pre + core == core;
    } else {
      var s := pre + core;
      assert s[0] == pre[0];
      assert s[1..] == pre[1..] + core;
      TrimStartOf(pre[1..], core);
    }
  }

  lemma {:induction false} TrimEndOf(core: string, post: string)
    requires forall i :: 0 <= i < |post| ==> IsWhitespace(post[i])
    requires core != [] && !IsWhitespace(core[|core| - 1])
    ensures TrimEnd(core + post) == core
    decreases |post|
  {
    if post == [] {
      assert core + post == core;
    } else {
      var s := core + post;
      assert s[..|s| - 1] == core + post[..|post| - 1];
      TrimEndOf(core, post[..|post| - 1]);
    }
  }

  /** Trimming white space around text that starts and ends with a visible character. */
  lemma TrimAround(pre: string, core: string, post: string)
    requires forall i :: 0 <= i < |pre| ==> IsWhitespace(pre[i])
    requires forall i :: 0 <= i < |post| ==> IsWhitespace(post[i])
    requires core != [] && !IsWhitespace(core[0]) && !IsWhitespace(core[|core| - 1])
    ensures Trim(pre + core + post) == core
  {
    assert pre + core + post == pre + (core + post);
    TrimStartOf(pre, core + post);
    TrimEndOf(core, post);
  }

  lemma {:induction false} SplitSpaceSkips(x: string, y: string, piece: string)
    requires ' ' !in x && ' ' !in piece
    ensures SplitOnSpace(x + y, piece) == SplitOnSpace(y, piece + x)
    decreases |x|
  {
    if x == [] {
      assert x + y == y && piece + x == piece;
    } else {
      assert (x + y)[0] == x[0] && (x + y)[1..] == x[1..] + y;
      assert piece + [x[0]] + x[1..] == piece + x;
      SplitSpaceSkips(x[1..], y, piece + [x[0]]);
    }
  }

  /** Joining the tokens of a split gives back the text, after the pending piece. */
  lemma {:induction false} SplitJoin(s: string, piece: string)
    requires ' ' !in piece
    ensures Join(SplitOnSpace(s, piece)) == piece + s
    decreases |s|
  {
    if s == [] {
      assert piece + s == piece;
    } else if s[0] == ' ' {
      var rest := SplitOnSpace(s[1..], []);
      SplitJoin(s[1..], []);
      var tokens := [piece] + rest;
      assert tokens[0] == piece && tokens[1..] == rest;
      assert [] + s[1..] == s[1..];
      assert s == " " + s[1..];
    } else {
      SplitJoin(s[1..], piece + [s[0]]);
      assert piece + [s[0]] + s[1..] == piece + s;
    }
  }

  /** Splitting tokens joined with single spaces gives back the tokens. */
  lemma {:induction false} JoinSplit(tokens: seq<string>)
    requires |tokens| >= 1 && forall i :: 0 <= i < |tokens| ==> ' ' !in tokens[i]
    ensures SplitOnSpace(Join(tokens), []) == tokens
    decreases |tokens|
  {
    var w := tokens[0];
    assert [] + w == w;
    if |tokens| == 1 {
      SplitSpaceSkips(w, [], []);
      assert w + [] == w;
    } else {
      var rest := Join(tokens[1..]);
      assert Join(tokens) == w + (" " + rest);
      SplitSpaceSkips(w, " " + rest, []);
      assert (" " + rest)[1..] == rest;
      JoinSplit(tokens[1..]);
      assert tokens == [w] + tokens[1..];
    }
  }

  /** Text that starts and ends with a visible character is its own trim. */
  lemma TrimVisible(text: string)
    requires text != [] && !IsWhitespace(text[0]) && !IsWhitespace(text[|text| - 1])
    ensures Trim(text) == text
  {
    TrimAround([], text, []);
    assert [] + text + [] == text;
  }

  lemma PlainHasNoSpace(t: string)
    requires IsPlainToken(t)
    ensures ' ' !in t
  {
  }

  /** Splitting "w b" at single spaces. */
  lemma SplitTwo(w: string, b: string)
    requires ' ' !in w && ' ' !in b
    ensures SplitOnSpace(w + " " + b, []) == [w, b]
  {
    SplitSpaceSkips(w, " " + b, []);
    assert w + " " + b == w + (" " + b);
    assert [] + w == w;
    assert (" " + b)[1..] == b;
    SplitSpaceSkips(b, [], []);
    assert b + [] == b && [] + b == b;
  }

  /** A chunk whose trimmed text splits into the given tokens contributes their first two non-empty ones. */
  lemma ChunkOfTokens(chunk: string, core: string, tokens: seq<string>)
    requires Trim(chunk) == core && SplitOnSpace(core, []) == tokens
    ensures ChunkPlies(chunk) ==
      (if tokens[0] != [] then [tokens[0]] else []) +
      (if |tokens| > 1 && tokens[1] != [] then [tokens[1]] else [])
  {
  }

  /** The chunk " w b", with or without a trailing space, yields w then b. */
  lemma PairChunk(text: string, w: string, b: string, post: string)
    requires IsPlainToken(w) && IsPlainToken(b) && (post == "" || post == " ")
    requires text == " " + (w + " " + b) + post
    ensures Trim(text) != [] && ChunkPlies(text) == [w, b]
  {
    PlainHasNoSpace(w);
    PlainHasNoSpace(b);
    var core := w + " " + b;
    assert core[0] == w[0] && core[|core| - 1] == b[|b| - 1];
    TrimAround(" ", core, post);
    SplitTwo(w, b);
    ChunkOfTokens(text, core, [w, b]);
  }

  /** The chunk " w", with or without a trailing space, yields w alone. */
  lemma SingleChunk(text: string, w: string, post: string)
    requires IsPlainToken(w) && (post == "" || post == " ")
    requires text == " " + w + post
    ensures Trim(text) != [] && ChunkPlies(text) == [w]
  {
    PlainHasNoSpace(w);
    TrimAround(" ", w, post);
    SplitSpaceSkips(w, [], []);
    assert w + [] == w && [] + w == w;
    ChunkOfTokens(text, w, [w]);
  }

  /** The chunk of one well-formed numbered move yields exactly that move's plies. */
  lemma MoveTextPlies(m: FullMove, last: bool)
    requires IsPlainMove(m)
    ensures Trim(MoveText(m, last)) != []
    ensures ChunkPlies(MoveText(m, last)) == MovePlies(m)
  {
    var post := if last then "" else " ";
    if m.black.Some? {
      PairChunk(MoveText(m, last), m.white, m.black.value, post);
    } else {
      SingleChunk(MoveText(m, last), m.white, post);
    }
  }

  lemma {:induction false} MoveTextsPlies(moves: seq<FullMove>)
    requires forall i :: 0 <= i < |moves| ==> IsPlainMove(moves[i])
    ensures PliesOf(MoveTexts(moves)) == AllPlies(moves)
    decreases |moves|
  {
    if moves != [] {
      MoveTextPlies(moves[0], |moves| == 1);
      MoveTextsPlies(moves[1..]);
      var texts := MoveTexts(moves);
      assert texts[0] == MoveText(moves[0], |moves| == 1);
      assert texts[1..] == MoveTexts(moves[1..]);
    }
  }

  /**
    * The tokenizer inverts rendering: for movetext written as numbered
    * moves of plain tokens, it yields every ply, in order, and nothing else.
    */
  lemma TokenizeRender(moves: seq<FullMove>)
    requires forall i :: 0 <= i < |moves| ==> IsPlainMove(moves[i])
    ensures Tokenize(Render(moves)) == AllPlies(moves)
  {
    SplitRendered(moves, 1, []);
    MoveTextsPlies(moves);
    var chunks := Chunks(Render(moves));
    assert chunks[0] == [] && chunks[1..] == MoveTexts(moves);
  }

  /** The running example: 1. e4 e5 2. Nf3. */
  const ExampleMoves: seq<FullMove> := [FullMove("e4", Some("e5")), FullMove("Nf3", None)]

  /** The moves e4 e5 and Nf3 render as "1. e4 e5 2. Nf3". */
  lemma RenderExample()
    ensures Render(ExampleMoves) == "1. e4 e5 2. Nf3"
  {
    var moves := ExampleMoves;
    assert Decimal(1) == "1" && Decimal(2) == "2";
    assert MoveText(moves[0], false) == " e4 e5 ";
    assert MoveText(moves[1], true) == " Nf3";
    assert moves[1..] == [moves[1]];
    assert RenderFrom(moves[1..], 2) == "2. Nf3";
  }

  lemma ExamplePlain()
    ensures forall i :: 0 <= i < |ExampleMoves| ==> IsPlainMove(ExampleMoves[i])
  {
    assert IsPlainMove(ExampleMoves[0]);
    assert IsPlainMove(ExampleMoves[1]);
  }

  lemma ExamplePlies()
    ensures AllPlies(ExampleMoves) == ["e4", "e5", "Nf3"]
  {
    var moves := ExampleMoves;
    assert moves[1..] == [moves[1]];
    assert AllPlies(moves[1..]) == ["Nf3"];
  }

  /** "1. e4 e5 2. Nf3" yields the plies e4, e5, Nf3. */
  lemma TokenizeExample()
    ensures Tokenize("1. e4 e5 2. Nf3") == ["e4", "e5", "Nf3"]
  {
    RenderExample();
    ExamplePlain();
    ExamplePlies();
    TokenizeRender(ExampleMoves);
  }

  lemma SplitDoubleSpace(w: string, b: string)
    requires ' ' !in w && ' ' !in b
    ensures SplitOnSpace(w + "  " + b, []) == [w, [], b]
  {
    var tail := " " + b;
    assert w + "  " + b == w + (" " + tail);
    SplitSpaceSkips(w, " " + tail, []);
    assert [] + w == w;
    assert (" " + tail)[1..] == tail && tail[1..] == b;
    assert SplitOnSpace(" " + tail, w) == [w] + SplitOnSpace(tail, []);
    assert SplitOnSpace(tail, []) == [[]] + SplitOnSpace(b, []);
    SplitSpaceSkips(b, [], []);
    assert b + [] == b && [] + b == b;
  }

  /** A double space leaves the second token empty, so Black's ply is dropped. */
  lemma DoubleSpaceDropsBlack(w: string, b: string)
    requires IsPlainToken(w) && IsPlainToken(b)
    ensures ChunkPlies(w + "  " + b) == [w]
  {
    PlainHasNoSpace(w);
    PlainHasNoSpace(b);
    var chunk := w + "  " + b;
    assert chunk[0] == w[0] && chunk[|chunk| - 1] == b[|b| - 1];
    TrimVisible(chunk);
    SplitDoubleSpace(w, b);
    ChunkOfTokens(chunk, chunk, [w, [], b]);
  }

  /** Splitting "w b rest" at single spaces: w, b, then the tokens of rest. */
  lemma SplitAfterTwo(w: string, b: string, rest: string)
    requires ' ' !in w && ' ' !in b
    ensures SplitOnSpace(w + " " + b + " " + rest, []) == [w, b] + SplitOnSpace(rest, [])
  {
    var tail := b + (" " + rest);
    assert w + " " + b + " " + rest == w + (" " + tail);
    SplitSpaceSkips(w, " " + tail, []);
    assert [] + w == w && (" " + tail)[1..] == tail;
    SplitSpaceSkips(b, " " + rest, []);
    assert [] + b == b && (" " + rest)[1..] == rest;
  }

  /** Trailing white space cannot reach back past a visible character. */
  lemma TrimEndAfterVisible(head: string, tail: string)
    requires head != [] && !IsWhitespace(head[|head| - 1])
    ensures |head| <= |TrimEnd(head + tail)|
    ensures TrimEnd(head + tail) == head + tail[..|TrimEnd(head + tail)| - |head|]
  {
    var s := head + tail;
    var r := TrimEnd(s);
    assert s[|head| - 1] == head[|head| - 1];
    assert s[..|r|] == head + tail[..|r| - |head|];
  }

  /** Trimming white space, then a core with visible ends, then anything keeps the core and a prefix of the rest. */
  lemma TrimKeepsCore(pre: string, core: string, tail: string) returns (k: nat)
    requires forall i :: 0 <= i < |pre| ==> IsWhitespace(pre[i])
    requires core != [] && !IsWhitespace(core[0]) && !IsWhitespace(core[|core| - 1])
    ensures k <= |tail|
    ensures Trim(pre + core + tail) == core + tail[..k]
  {
    var text := core + tail;
    assert text[0] == core[0];
    assert pre + core + tail == pre + text;
    TrimStartOf(pre, text);
    TrimEndAfterVisible(core, tail);
    k := |TrimEnd(text)| - |core|;
  }

  /** "w b" followed by nothing or by a space and more text splits into w, b and then the rest. */
  lemma SplitPairThen(w: string, b: string, tail: string)
    requires ' ' !in w && ' ' !in b
    requires tail == [] || tail[0] == ' '
    ensures |SplitOnSpace(w + " " + b + tail, [])| >= 2
    ensures SplitOnSpace(w + " " + b + tail, [])[..2] == [w, b]
  {
    if tail == [] {
      assert w + " " + b + tail == w + " " + b;
      SplitTwo(w, b);
    } else {
      assert w + " " + b + tail == w + " " + b + " " + tail[1..];
      SplitAfterTwo(w, b, tail[1..]);
    }
  }

  /** A chunk that trims to "w b", alone or followed by a space and more, yields w and b. */
  lemma ChunkOfPair(chunk: string, w: string, b: string, tail: string)
    requires w != [] && b != [] && ' ' !in w && ' ' !in b
    requires tail == [] || tail[0] == ' '
    requires Trim(chunk) == w + " " + b + tail
    ensures ChunkPlies(chunk) == [w, b]
  {
    SplitPairThen(w, b, tail);
    var tokens := SplitOnSpace(w + " " + b + tail, []);
    assert tokens[0] == tokens[..2][0] && tokens[1] == tokens[..2][1];
    ChunkOfTokens(chunk, w + " " + b + tail, tokens);
  }

  /**
    * A chunk that, after any leading white space, starts with the plain
    * tokens w and b separated by one space yields w and b: every token
    * after the second is ignored, whatever text follows.
    */
  lemma LaterTokensIgnored(pre: string, w: string, b: string, rest: string)
    requires forall i :: 0 <= i < |pre| ==> IsWhitespace(pre[i])
    requires IsPlainToken(w) && IsPlainToken(b)
    ensures ChunkPlies(pre + w + " " + b + " " + rest) == [w, b]
  {
    PlainHasNoSpace(w);
    PlainHasNoSpace(b);
    var pair := w + " " + b;
    assert pair[0] == w[0] && pair[|pair| - 1] == b[|b| - 1];
    assert pre + w + " " + b + " " + rest == pre + pair + (" " + rest);
    var k := TrimKeepsCore(pre, pair, " " + rest);
    var tail := (" " + rest)[..k];
    assert tail == [] || tail[0] == ' ';
    ChunkOfPair(pre + w + " " + b + " " + rest, w, b, tail);
  }

  /** The chunk the split leaves between "1." and "2." in "1. e4 e5 Nf3 2. d4". */
  lemma SpacedChunkExample()
    ensures ChunkPlies(" e4 e5 Nf3 ") == ["e4", "e5"]
  {
    ExamplePlain();
    assert IsPlainMove(ExampleMoves[0]);
    SpacedChunkText();
    LaterTokensIgnored(" ", "e4", "e5", "Nf3 ");
  }

  lemma SpacedChunkText()
    ensures " " + "e4" + " " + "e5" + " " + "Nf3 " == " e4 e5 Nf3 "
  {
  }
}
