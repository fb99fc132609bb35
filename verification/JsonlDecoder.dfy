/** Framing of the child process's output into lines (apps/cursor-extension/src/ipc/jsonl.ts). */
module JsonlDecoder {
  import opened Common

  /** The complete, non-blank lines of a text and the unfinished rest. */
  datatype Framed = Framed(lines: seq<string>, rest: string)

  /** White space as String.prototype.trim removes it. */
  predicate IsSpace(c: char) {
    var u := c as int;
    || 9 <= u <= 13 || u == 32 || u == 0xA0 || u == 0x1680 || 0x2000 <= u <= 0x200A
    || u == 0x2028 || u == 0x2029 || u == 0x202F || u == 0x205F || u == 0x3000 || u == 0xFEFF
  }

  predicate Blank(line: string) {
    forall i :: 0 <= i < |line| ==> IsSpace(line[i])
  }

  /** Position of the first newline, or the length of the text. */
  function NewlineAt(text: string): (i: nat)
    ensures i <= |text|
    ensures i < |text| ==> text[i] == '\n'
    ensures forall j :: 0 <= j < i ==> text[j] != '\n'
  {
    if text == [] || text[0] == '\n' then 0
    else
      assert forall j :: 0 < j < |text| ==> text[1..][j - 1] == text[j];
      1 + NewlineAt(text[1..])
  }

  /** One carriage return before the newline belongs to the line ending. */
  function StripReturn(line: string): string {
    if line != [] && line[|line| - 1] == '\r' then line[..|line| - 1] else line
  }

  function Emitted(line: string): seq<string> {
    if Blank(StripReturn(line)) then [] else [StripReturn(line)]
  }

  function Frames(text: string): Framed
    decreases |text|
  {
    var i := NewlineAt(text);
    if i == |text| then Framed([], text)
    else
      var later := Frames(text[i + 1..]);
      Framed(Emitted(text[..i]) + later.lines, later.rest)
  }

  lemma NewlineAtPrefix(line: string, after: string)
    requires '\n' !in line
    ensures NewlineAt(line + "\n" + after) == |line|
  {
    var text := line + "\n" + after;
    assert text[|line|] == '\n';
    forall j | 0 <= j < |line|
      ensures text[j] != '\n'
    {
      assert text[j] == line[j];
    }
  }

  lemma FramesLine(line: string, after: string)
    requires '\n' !in line
    ensures Frames(line + "\n" + after)
            == Framed(Emitted(line) + Frames(after).lines, Frames(after).rest)
  {
    NewlineAtPrefix(line, after);
    var text := line + "\n" + after;
    assert text[..|line|] == line && text[|line| + 1..] == after;
  }

  lemma NoNewline(text: string)
    requires NewlineAt(text) == |text|
    ensures '\n' !in text && Frames(text) == Framed([], text)
  {
  }

  lemma FirstLine(text: string) returns (line: string, after: string)
    requires NewlineAt(text) < |text|
    ensures '\n' !in line && text == line + "\n" + after && |after| < |text|
    ensures Frames(text) == Framed(Emitted(line) + Frames(after).lines, Frames(after).rest)
  {
    var i := NewlineAt(text);
    line, after := text[..i], text[i + 1..];
    assert text == line + "\n" + after;
    FramesLine(line, after);
  }

  lemma RegroupText(line: string, a: string, b: string)
    ensures (line + "\n" + a) + b == line + "\n" + (a + b)
  {
  }

  /** Framing in two pieces: what the first leaves unfinished is carried into the second. */
  lemma {:induction false} FramesInTwo(a: string, b: string)
    ensures var first := Frames(a);
            var second := Frames(first.rest + b);
            Frames(a + b) == Framed(first.lines + second.lines, second.rest)
    decreases |a|
  {
    if NewlineAt(a) == |a| {
      NoNewline(a);
      assert [] + Frames(a + b).lines == Frames(a + b).lines;
    } else {
      var line, after := FirstLine(a);
      FramesInTwo(after, b);
      RegroupText(line, after, b);
      FramesLine(line, after + b);
      ConcatAssoc(Emitted(line), Frames(after).lines, Frames(Frames(after).rest + b).lines);
    }
  }

  function Joined(chunks: seq<string>): string {
    if chunks == [] then "" else chunks[0] + Joined(chunks[1..])
  }

  /** Pushing chunks one after the other. */
  function Pushed(buffer: string, chunks: seq<string>): Framed
    decreases |chunks|
  {
    if chunks == [] then Framed([], buffer)
    else
      var first := Frames(buffer + chunks[0]);
      var later := Pushed(first.rest, chunks[1..]);
      Framed(first.lines + later.lines, later.rest)
  }

  lemma {:induction false} RestIsUnfinished(text: string)
    ensures '\n' !in Frames(text).rest
    ensures forall line :: line in Frames(text).lines ==> '\n' !in line && !Blank(line)
    decreases |text|
  {
    if NewlineAt(text) == |text| {
      NoNewline(text);
    } else {
      var line, after := FirstLine(text);
      RestIsUnfinished(after);
    }
  }

  /** However a text is cut into chunks, its lines are those of the whole text. */
  lemma {:induction false} ChunksAgree(buffer: string, chunks: seq<string>)
    requires '\n' !in buffer
    ensures Pushed(buffer, chunks) == Frames(buffer + Joined(chunks))
    decreases |chunks|
  {
    if chunks == [] {
      assert buffer + "" == buffer;
      NewlineAbsent(buffer);
    } else {
      RestIsUnfinished(buffer + chunks[0]);
      ChunksAgree(Frames(buffer + chunks[0]).rest, chunks[1..]);
      FramesInTwo(buffer + chunks[0], Joined(chunks[1..]));
      ConcatAssoc(buffer, chunks[0], Joined(chunks[1..]));
    }
  }

  lemma NewlineAbsent(text: string)
    requires '\n' !in text
    ensures Frames(text) == Framed([], text)
  {
    assert NewlineAt(text) == |text|;
  }

  // ---- What the lines hold ----

  /** A line its ending does not blur: no newline inside, and a return at its end only before another one. */
  predicate Whole(line: string, cr: bool) {
    '\n' !in line && (cr || line == [] || Last(line) != '\r')
  }

  /** Lines as they are sent, each with a newline or with a return and a newline. */
  function Wire(lines: seq<string>, cr: seq<bool>): string
    requires |lines| == |cr|
  {
    if lines == [] then "" else lines[0] + (if cr[0] then "\r" else "") + "\n" + Wire(lines[1..], cr[1..])
  }

  lemma StripLast(line: string)
    ensures StripReturn(line + "\r") == line
  {
    assert (line + "\r")[..|line|] == line;
  }

  lemma WireFirst(line: string, cr: bool, after: string)
    requires Whole(line, cr)
    ensures Frames(line + (if cr then "\r" else "") + "\n" + after)
            == Framed((if Blank(line) then [] else [line]) + Frames(after).lines, Frames(after).rest)
  {
    StripLast(line);
    ConcatEmpty(line);
    FramesLine(line + if cr then "\r" else "", after);
  }

  /** Framing gives back the lines that were sent, whatever their endings, without the blank ones, and nothing
      is left. */
  lemma {:induction false} WireFrames(lines: seq<string>, cr: seq<bool>)
    requires |lines| == |cr| && forall i :: 0 <= i < |lines| ==> Whole(lines[i], cr[i])
    ensures Frames(Wire(lines, cr)) == Framed(Filter(lines, (line: string) => !Blank(line)), "")
  {
    if lines != [] {
      WireFrames(lines[1..], cr[1..]);
      WireFirst(lines[0], cr[0], Wire(lines[1..], cr[1..]));
    }
  }

  /** Also when they arrive in pieces cut anywhere. */
  lemma WireArrives(lines: seq<string>, cr: seq<bool>, chunks: seq<string>)
    requires |lines| == |cr| && forall i :: 0 <= i < |lines| ==> Whole(lines[i], cr[i])
    requires Joined(chunks) == Wire(lines, cr)
    ensures Pushed("", chunks) == Framed(Filter(lines, (line: string) => !Blank(line)), "")
  {
    WireFrames(lines, cr);
    ChunksAgree("", chunks);
    ConcatEmpty(Joined(chunks));
  }

  /** A line with a printable ASCII character is not blank; spaces, tabs and returns alone are. */
  lemma BlankMeaning(line: string)
    ensures (exists i :: 0 <= i < |line| && '!' <= line[i] <= '~') ==> !Blank(line)
    ensures (forall i :: 0 <= i < |line| ==> line[i] in {' ', '\t', '\r'}) ==> Blank(line)
  {
  }

  // ---- The loop ----

  /** Lines framed already, and the framing of what is left. */
  function Resumed(lines: seq<string>, buffer: string): Framed {
    Framed(lines + Frames(buffer).lines, Frames(buffer).rest)
  }

  /** One turn of the loop. */
  lemma ResumeNext(lines: seq<string>, buffer: string)
    ensures var i := NewlineAt(buffer);
            if i == |buffer| then Resumed(lines, buffer) == Framed(lines, buffer)
            else
              var line := StripReturn(buffer[..i]);
              Resumed(lines, buffer) == Resumed(if Blank(line) then lines else lines + [line], buffer[i + 1..])
  {
    var i := NewlineAt(buffer);
    ConcatEmpty(lines);
    if i < |buffer| {
      ConcatAssoc(lines, Emitted(buffer[..i]), Frames(buffer[i + 1..]).lines);
    }
  }

  lemma ResumeFirst(buffer: string)
    ensures Resumed([], buffer) == Frames(buffer)
  {
    ConcatEmpty(Frames(buffer).lines);
  }

  class Decoder {
    var buffer: string

    constructor ()
      ensures buffer == ""
    {
      buffer := "";
    }

    method Push(chunk: string) returns (lines: seq<string>)
      modifies this
      ensures Framed(lines, buffer) == Frames(old(buffer) + chunk)
    {
      buffer := buffer + chunk;
      lines := [];
      ghost var whole := Resumed([], buffer);
      ResumeFirst(buffer);
      while true
        invariant whole == Resumed(lines, buffer)
        decreases |buffer|
      {
        var newline := NewlineAt(buffer);
        ResumeNext(lines, buffer);
        if newline == |buffer| {
          return;
        }
        var line := buffer[..newline];
        buffer := buffer[newline + 1..];
        line := StripReturn(line);
        if Blank(line) {
          continue;
        }
        lines := lines + [line];
      }
    }
  }
}
