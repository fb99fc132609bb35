/** A codec for one-field records {"m":"..."} with escaped text: the laws the log relies on hold of a real grammar. */
module TextCodec {
  import opened Common
  import opened Jsonl

  const QUOTE: Byte := 34
  const BACKSLASH: Byte := 92
  const LETTER_N: Byte := 110
  const CLOSE_BRACE: Byte := 125
  const HEAD: Bytes := [123, 34, 109, 34, 58, 34]

  function EscapeByte(b: Byte): Bytes {
    if b == NL then [BACKSLASH, LETTER_N]
    else if b == QUOTE || b == BACKSLASH then [BACKSLASH, b]
    else [b]
  }

  function Escape(text: Bytes): Bytes {
    if text == [] then [] else EscapeByte(text[0]) + Escape(text[1..])
  }

  /** Reads string content up to its closing quote; the rest follows it. */
  function Unescape(b: Bytes): Option<(Bytes, Bytes)>
    decreases |b|
  {
    if b == [] || b[0] == NL then None
    else if b[0] == QUOTE then Some(([], b[1..]))
    else if b[0] == BACKSLASH then
      if |b| < 2 || b[1] !in {LETTER_N, QUOTE, BACKSLASH} then None
      else Prepend(if b[1] == LETTER_N then NL else b[1], Unescape(b[2..]))
    else Prepend(b[0], Unescape(b[1..]))
  }

  function Prepend(first: Byte, r: Option<(Bytes, Bytes)>): Option<(Bytes, Bytes)> {
    if r.None? then None else Some(([first] + r.value.0, r.value.1))
  }

  function Encode(text: Bytes): Bytes {
    HEAD + (Escape(text) + [QUOTE, CLOSE_BRACE])
  }

  function Loads(b: Bytes): Loaded<Bytes> {
    if |b| < |HEAD| || b[..|HEAD|] != HEAD then Malformed
    else
      var r := Unescape(b[|HEAD|..]);
      if r.Some? && r.value.1 == [CLOSE_BRACE] then Object(r.value.0) else Malformed
  }

  lemma ByteReads(b: Byte, rest: Bytes)
    ensures Unescape(EscapeByte(b) + rest) == Prepend(b, Unescape(rest))
    ensures NL !in EscapeByte(b)
  {
    var all := EscapeByte(b) + rest;
    if |EscapeByte(b)| == 2 {
      assert all[2..] == rest;
    } else {
      assert all[1..] == rest;
    }
  }

  lemma {:induction false} EscapeReads(text: Bytes, rest: Bytes)
    ensures Unescape(Escape(text) + ([QUOTE] + rest)) == Some((text, rest))
    ensures NL !in Escape(text)
  {
    var closing := [QUOTE] + rest;
    if text == [] {
      assert Escape(text) + closing == closing;
      assert closing[1..] == rest;
    } else {
      EscapeReads(text[1..], rest);
      ByteReads(text[0], Escape(text[1..]) + closing);
      ConcatAssoc(EscapeByte(text[0]), Escape(text[1..]), closing);
      assert [text[0]] + text[1..] == text;
    }
  }

  /** Cut before its closing quote, escaped text has no reading. */
  lemma {:induction false} EscapeCut(text: Bytes, cut: nat)
    requires cut <= |Escape(text)|
    ensures Unescape(Escape(text)[..cut]) == None
  {
    if text != [] && cut > 0 {
      var width := |EscapeByte(text[0])|;
      if cut >= width {
        EscapeCut(text[1..], cut - width);
        ByteReads(text[0], Escape(text[1..])[..cut - width]);
        assert Escape(text)[..cut] == EscapeByte(text[0]) + Escape(text[1..])[..cut - width];
      } else {
        assert Escape(text)[..cut] == [BACKSLASH];
      }
    }
  }

  lemma CutMalformed(text: Bytes, cut: nat)
    requires cut < |Encode(text)|
    ensures Loads(Encode(text)[..cut]) == Malformed
  {
    var b := Encode(text)[..cut];
    if cut >= |HEAD| {
      var left := cut - |HEAD|;
      var inside := Escape(text) + [QUOTE, CLOSE_BRACE];
      assert b[|HEAD|..] == inside[..left];
      if left <= |Escape(text)| {
        EscapeCut(text, left);
        assert inside[..left] == Escape(text)[..left];
      } else {
        EscapeReads(text, []);
        assert inside[..left] == Escape(text) + ([QUOTE] + []);
      }
    }
  }

  lemma EncodesWell(text: Bytes)
    ensures WritesWell(Codec(Encode, Loads), text)
  {
    EscapeReads(text, [CLOSE_BRACE]);
    var b := Encode(text);
    assert [QUOTE] + [CLOSE_BRACE] == [QUOTE, CLOSE_BRACE];
    assert b[|HEAD|..] == Escape(text) + [QUOTE, CLOSE_BRACE];
    assert b[..|HEAD|] == HEAD;
    assert b[0] == 123;
    assert NL !in HEAD && NL !in [QUOTE, CLOSE_BRACE];
    forall i | 0 <= i < |b|
      ensures Loads(b[..i]) == Malformed
    {
      CutMalformed(text, i);
    }
  }

  lemma CodecIsLawful()
    ensures Lawful(Codec(Encode, Loads))
  {
    forall text
      ensures WritesWell(Codec(Encode, Loads), text)
    {
      EncodesWell(text);
    }
  }
}
