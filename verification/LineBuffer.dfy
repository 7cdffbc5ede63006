/** Splitting a character stream into lines, chunk by chunk, and the crash log made of its end.
 *  Decoding bytes into characters happens before this. */
module LineBuffers {
  import opened Options

  const CRASH_LOG_LINES: nat := 20

  // ---------------------------------------------------------------- what the whole stream says

  /** What one more character does to the pieces. */
  function OneMore(pieces: seq<string>, c: char): seq<string>
    requires |pieces| > 0
  {
    var last := |pieces| - 1;
    if c == '\n' then pieces + [[]] else pieces[last := pieces[last] + [c]]
  }

  /** The stream cut at every newline: one piece more than there are newlines. */
  function Pieces(text: string): (pieces: seq<string>)
    ensures |pieces| > 0
  {
    if text == [] then [[]]
    else
      OneMore(Pieces(text[..|text| - 1]), text[|text| - 1])
  }

  /** A piece as a line: one carriage return at its end does not count. */
  function Chomp(piece: string): string {
    if piece != [] && piece[|piece| - 1] == '\r' then piece[..|piece| - 1] else piece
  }

  /** The finished pieces as lines, empty ones dropped. */
  function Kept(pieces: seq<string>): seq<string> {
    if pieces == [] then []
    else
      var line := Chomp(pieces[|pieces| - 1]);
      Kept(pieces[..|pieces| - 1]) + if line == [] then [] else [line]
  }

  /** All lines of a stream: its finished pieces, and what is left after the last newline as it is. */
  function Lines(text: string): seq<string> {
    var pieces := Pieces(text);
    var tail := pieces[|pieces| - 1];
    Kept(pieces[..|pieces| - 1]) + if tail == [] then [] else [tail]
  }

  function Joined(pieces: seq<string>): string
    requires |pieces| > 0
  {
    if |pieces| == 1 then pieces[0] else Joined(pieces[..|pieces| - 1]) + "\n" + pieces[|pieces| - 1]
  }

  lemma JoinedOneMore(pieces: seq<string>, c: char)
    requires |pieces| > 0
    ensures Joined(OneMore(pieces, c)) == Joined(pieces) + [c]
  {
    var last := |pieces| - 1;
    if c == '\n' {
      assert OneMore(pieces, c)[..last + 1] == pieces;
    } else {
      assert OneMore(pieces, c)[..last] == pieces[..last];
    }
  }

  predicate NoNewlines(pieces: seq<string>) {
    forall i :: 0 <= i < |pieces| ==> '\n' !in pieces[i]
  }

  lemma NoNewlinesOneMore(pieces: seq<string>, c: char)
    requires |pieces| > 0 && NoNewlines(pieces)
    ensures NoNewlines(OneMore(pieces, c))
  {}

  /** The pieces are the stream: no piece holds a newline, and joined by newlines they give it back. */
  lemma {:induction false} PiecesAreTheStream(text: string)
    ensures Joined(Pieces(text)) == text && NoNewlines(Pieces(text))
  {
    if text != [] {
      var init, c := text[..|text| - 1], text[|text| - 1];
      PiecesAreTheStream(init);
      hide Joined, OneMore, NoNewlines;
      JoinedOneMore(Pieces(init), c);
      NoNewlinesOneMore(Pieces(init), c);
      assert text == init + [c];
    }
  }

  /** Cutting what was left over together with what comes next continues the cut. */
  lemma {:induction false} PiecesGoOn(x: string, done: seq<string>, last: string, y: string)
    requires Pieces(x) == done + [last]
    ensures Pieces(x + y) == done + Pieces(last + y)
  {
    if y == [] {
      PiecesAreTheStream(x);
      assert Pieces(x)[|done|] == last;
      PieceAlone(last);
      assert x + y == x && last + y == last;
    } else {
      var init, c := y[..|y| - 1], y[|y| - 1];
      PiecesGoOn(x, done, last, init);
      PiecesOfOneMore(x + init, c);
      PiecesOfOneMore(last + init, c);
      assert y == init + [c];
      assert x + y == x + init + [c] && last + y == last + init + [c];
      OneMoreBehind(done, Pieces(last + init), c);
    }
  }

  lemma PiecesOfOneMore(text: string, c: char)
    ensures Pieces(text + [c]) == OneMore(Pieces(text), c)
  {
    assert (text + [c])[..|text|] == text;
  }

  lemma OneMoreBehind(done: seq<string>, pieces: seq<string>, c: char)
    requires |pieces| > 0
    ensures OneMore(done + pieces, c) == done + OneMore(pieces, c)
  {}

  lemma {:induction false} PieceAlone(piece: string)
    requires '\n' !in piece
    ensures Pieces(piece) == [piece]
  {
    if piece != [] {
      PieceAlone(piece[..|piece| - 1]);
      assert piece == piece[..|piece| - 1] + [piece[|piece| - 1]];
    }
  }

  /** Text with a newline starts with a finished piece. */
  lemma FirstPiece(piece: string, rest: string)
    requires '\n' !in piece
    ensures Pieces(piece + ['\n'] + rest) == [piece] + Pieces(rest)
  {
    PieceThenNewline(piece);
    assert [piece] + [[]] == [piece, []];
    PiecesGoOn(piece + ['\n'], [piece], [], rest);
    assert [] + rest == rest;
  }

  lemma CutAt(buf: string, idx: nat)
    requires idx < |buf|
    ensures buf == buf[..idx] + [buf[idx]] + buf[idx + 1..]
  {}

  lemma PieceThenNewline(piece: string)
    requires '\n' !in piece
    ensures Pieces(piece + ['\n']) == [piece, []]
  {
    PieceAlone(piece);
    assert (piece + ['\n'])[..|piece|] == piece;
  }

  lemma PutBehind(done: seq<string>, piece: string, rest: seq<string>)
    ensures done + ([piece] + rest) == done + [piece] + rest
  {}

  lemma KeptOneMore(done: seq<string>, piece: string)
    ensures Kept(done + [piece]) == Kept(done) + if Chomp(piece) == [] then [] else [Chomp(piece)]
  {
    assert (done + [piece])[..|done|] == done;
  }

  // ---------------------------------------------------------------- what a process prints

  /** A line as a process prints it: not empty, and without the characters that end lines. */
  predicate Printable(line: string) {
    line != [] && '\n' !in line && line[|line| - 1] != '\r'
  }

  /** A line printed with the ending of Windows or of anybody else. */
  datatype Print = Print(line: string, windows: bool)

  function Ended(p: Print): string {
    if p.windows then p.line + "\r\n" else p.line + "\n"
  }

  function Printed(out: seq<Print>): string {
    if out == [] then [] else Printed(out[..|out| - 1]) + Ended(out[|out| - 1])
  }

  function LinesOf(out: seq<Print>): seq<string> {
    seq(|out|, i requires 0 <= i < |out| => out[i].line)
  }

  /** A print without its newline. */
  function Piece(p: Print): string {
    if p.windows then p.line + ['\r'] else p.line
  }

  function PiecesOf(out: seq<Print>): seq<string> {
    if out == [] then [] else PiecesOf(out[..|out| - 1]) + [Piece(out[|out| - 1])]
  }

  predicate AllPrintable(out: seq<Print>) {
    forall i :: 0 <= i < |out| ==> Printable(out[i].line)
  }

  lemma PrintedGoesOn(done: seq<string>, text: string, p: Print)
    requires Pieces(text) == done + [[]] && Printable(p.line)
    ensures Pieces(text + Ended(p)) == done + [Piece(p)] + [[]]
  {
    hide Pieces, Piece, Ended, Printable;
    EndedIsPiece(p);
    assert [] + Ended(p) == Ended(p);
    PiecesGoOn(text, done, [], Ended(p));
    PieceThenNewline(Piece(p));
    assert [Piece(p), []] == [Piece(p)] + [[]];
    PutBehind(done, Piece(p), [[]]);
  }

  lemma EndedIsPiece(p: Print)
    requires Printable(p.line)
    ensures Ended(p) == Piece(p) + ['\n'] && '\n' !in Piece(p)
  {}

  lemma {:induction false} PrintedPieces(out: seq<Print>)
    requires AllPrintable(out)
    ensures Pieces(Printed(out)) == PiecesOf(out) + [[]]
  {
    if out != [] {
      PrintedPieces(out[..|out| - 1]);
      hide Pieces, Piece, Ended;
      PrintedGoesOn(PiecesOf(out[..|out| - 1]), Printed(out[..|out| - 1]), out[|out| - 1]);
    }
  }

  lemma {:induction false} PiecesAreKept(out: seq<Print>)
    requires AllPrintable(out)
    ensures Kept(PiecesOf(out)) == LinesOf(out)
  {
    if out != [] {
      var init, p := out[..|out| - 1], out[|out| - 1];
      PiecesAreKept(init);
      KeptOneMore(PiecesOf(init), Piece(p));
      assert Chomp(Piece(p)) == p.line;
      hide Kept, Piece, Chomp;
      assert LinesOf(out) == LinesOf(init) + [p.line];
    }
  }

  /** What a process prints line by line is what is delivered, whatever the lines end with. */
  lemma PrintedLinesArrive(out: seq<Print>)
    requires AllPrintable(out)
    ensures Lines(Printed(out)) == LinesOf(out)
  {
    PrintedPieces(out);
    PiecesAreKept(out);
    hide Pieces, Kept, Printed, PiecesOf;
    assert (PiecesOf(out) + [[]])[..|PiecesOf(out)|] == PiecesOf(out);
  }

  // ---------------------------------------------------------------- the buffer

  method IndexOfNewline(s: string) returns (idx: int)
    ensures idx == -1 ==> '\n' !in s
    ensures idx != -1 ==> 0 <= idx < |s| && s[idx] == '\n' && '\n' !in s[..idx]
  {
    for i := 0 to |s|
      invariant '\n' !in s[..i]
    {
      if s[i] == '\n' { return i; }
      assert s[..i + 1] == s[..i] + [s[i]];
    }
    assert s[..|s|] == s;
    return -1;
  }

  class LineBuffer {
    var buf: string
    /** The lines handed to `onLine` so far, and the characters pushed so far. */
    var lines: seq<string>
    ghost var seen: string

    /** The lines delivered are those of the finished pieces, and the buffer is the unfinished one. */
    ghost predicate Valid()
      reads this
    {
      var pieces := Pieces(seen);
      lines == Kept(pieces[..|pieces| - 1]) && buf == pieces[|pieces| - 1]
    }

    constructor ()
      ensures Valid() && seen == [] && lines == []
    {
      buf, lines, seen := [], [], [];
    }

    /** One finished piece leaves the buffer. */
    method TakeLine(idx: nat, ghost done: seq<string>) returns (ghost done': seq<string>)
      requires idx < |buf| && buf[idx] == '\n' && '\n' !in buf[..idx] && lines == Kept(done)
      modifies `buf, `lines
      ensures done + Pieces(old(buf)) == done' + Pieces(buf) && lines == Kept(done')
      ensures |buf| < |old(buf)| && old(lines) <= lines
    {
      var piece, rest := buf[..idx], buf[idx + 1..];
      CutAt(buf, idx);
      FirstPiece(piece, rest);
      KeptOneMore(done, piece);
      hide Pieces, Kept;
      done' := done + [piece];
      PutBehind(done, piece, Pieces(rest));
      var line := piece;
      if line != [] && line[|line| - 1] == '\r' { line := line[..|line| - 1]; }
      buf := rest;
      if |line| > 0 { lines := lines + [line]; }
    }

    method Push(chunk: string)
      requires Valid()
      modifies this
      ensures Valid() && seen == old(seen) + chunk && old(lines) <= lines
    {
      ghost var done := Pieces(seen)[..|Pieces(seen)| - 1];
      ghost var start := lines;
      assert Pieces(seen) == done + [buf];
      PiecesGoOn(seen, done, buf, chunk);
      seen := seen + chunk;
      buf := buf + chunk;
      var idx := IndexOfNewline(buf);
      hide Pieces, Kept;
      while idx != -1
        invariant idx == -1 ==> '\n' !in buf
        invariant idx != -1 ==> 0 <= idx < |buf| && buf[idx] == '\n' && '\n' !in buf[..idx]
        invariant seen == old(seen) + chunk
        invariant Pieces(seen) == done + Pieces(buf) && lines == Kept(done) && start <= lines
        decreases |buf|
      {
        done := TakeLine(idx, done);
        idx := IndexOfNewline(buf);
      }
      PieceAlone(buf);
      assert Pieces(seen)[..|Pieces(seen)| - 1] == done;
    }

    /** The stream has ended: whatever is left is a line. */
    method Flush()
      requires Valid()
      modifies `buf, `lines
      ensures lines == Lines(seen) && buf == []
    {
      if |buf| > 0 {
        lines := lines + [buf];
        buf := [];
      }
    }
  }

  function Concat(chunks: seq<string>): string {
    if chunks == [] then [] else Concat(chunks[..|chunks| - 1]) + chunks[|chunks| - 1]
  }

  /** However a stream is cut into chunks, the lines delivered are the lines of the whole stream. */
  method Deliver(chunks: seq<string>) returns (lines: seq<string>)
    ensures lines == Lines(Concat(chunks))
  {
    var buffer := new LineBuffer();
    for i := 0 to |chunks|
      invariant fresh(buffer) && buffer.Valid() && buffer.seen == Concat(chunks[..i])
    {
      assert chunks[..i + 1][..i] == chunks[..i];
      buffer.Push(chunks[i]);
    }
    assert chunks[..|chunks|] == chunks;
    buffer.Flush();
    lines := buffer.lines;
  }

  // ---------------------------------------------------------------- the crash log

  function LastN<T>(s: seq<T>, n: nat): (r: seq<T>)
    ensures |r| == if |s| <= n then |s| else n
  {
    if |s| <= n then s else s[|s| - n..]
  }

  /** The rolling buffer of stderr lines. */
  method KeepLast(kept: seq<string>, line: string, ghost all: seq<string>) returns (kept': seq<string>)
    requires kept == LastN(all, CRASH_LOG_LINES)
    ensures kept' == LastN(all + [line], CRASH_LOG_LINES)
  {
    kept' := kept + [line];
    if |kept'| > CRASH_LOG_LINES { kept' := kept'[1..]; }
  }

  /** The crash log of a process whose stderr came in these chunks: its last lines, or nothing. */
  method CrashLog(stderr: seq<string>) returns (log: Option<seq<string>>)
    ensures var lines := Lines(Concat(stderr));
            && (log.None? <==> lines == [])
            && (log.Some? ==>
                  && |log.value| == (if |lines| <= 20 then |lines| else 20)
                  && log.value == lines[|lines| - |log.value|..])
  {
    var lines := Deliver(stderr);
    var kept: seq<string> := [];
    for i := 0 to |lines|
      invariant kept == LastN(lines[..i], CRASH_LOG_LINES)
    {
      assert lines[..i + 1] == lines[..i] + [lines[i]];
      kept := KeepLast(kept, lines[i], lines[..i]);
    }
    assert lines[..|lines|] == lines;
    log := if |kept| > 0 then Some(kept) else None;
  }
}
