/** The telemetry log file as bytes: lines, tolerant reading, torn-tail repair (telemetry/jsonl.py). */
module Jsonl {
  import opened Common

  newtype Byte = b: int | 0 <= b < 256

  type Bytes = seq<Byte>

  const NL: Byte := 10

  /** What decoding one line as UTF-8 JSON yields. */
  datatype Loaded<+R> = Object(value: R) | NonObject | Malformed

  /** How records are written and how text is read back. */
  datatype Codec<!R> = Codec(encode: R -> Bytes, loads: Bytes -> Loaded<R>)

  predicate IsSpace(b: Byte) {
    b == 32 || 9 <= b <= 13
  }

  predicate Blank(line: Bytes) {
    forall i :: 0 <= i < |line| ==> IsSpace(line[i])
  }

  /** An encoded object is one line that reads back as itself, and no proper prefix of it is a JSON text. */
  ghost predicate WritesWell<R>(c: Codec<R>, r: R) {
    var text := c.encode(r);
    && c.loads(text) == Object(r)
    && NL !in text
    && !Blank(text)
    && forall i :: 0 <= i < |text| ==> c.loads(text[..i]) == Malformed
  }

  /** The facts about JSON text the log relies on (RFC 8259, sections 2, 4 and 7). */
  ghost predicate Lawful<R(!new)>(c: Codec<R>) {
    forall r :: WritesWell(c, r)
  }

  // ---- Newlines ----

  function FirstNl(b: Bytes): (i: nat)
    ensures i <= |b|
    ensures i < |b| ==> b[i] == NL
    ensures forall j :: 0 <= j < i ==> b[j] != NL
  {
    if b == [] || b[0] == NL then 0
    else
      assert forall j :: 0 < j < |b| ==> b[1..][j - 1] == b[j];
      1 + FirstNl(b[1..])
  }

  /** The length of the part up to and including the last newline. */
  function CompleteLength(b: Bytes): (n: nat)
    ensures n <= |b|
    ensures n > 0 ==> b[n - 1] == NL
    ensures forall j :: n <= j < |b| ==> b[j] != NL
  {
    if b == [] then 0
    else if b[|b| - 1] == NL then |b|
    else CompleteLength(b[..|b| - 1])
  }

  function Complete(b: Bytes): Bytes {
    b[..CompleteLength(b)]
  }

  function Tail(b: Bytes): Bytes {
    b[CompleteLength(b)..]
  }

  /** The part up to the last newline and the rest determine each other. */
  lemma TailUnique(done: Bytes, rest: Bytes)
    requires Terminated(done) && NL !in rest
    ensures Complete(done + rest) == done && Tail(done + rest) == rest
  {
    var b := done + rest;
    forall j | |done| <= j < |b|
      ensures b[j] != NL
    {
      assert b[j] == rest[j - |done|];
    }
    assert done != [] ==> b[|done| - 1] == done[|done| - 1];
    assert CompleteLength(b) == |done|;
  }

  /** Empty, or ending in a newline. */
  predicate Terminated(b: Bytes) {
    b != [] ==> b[|b| - 1] == NL
  }

  /** The lines of a newline-terminated text, without their newlines. */
  function Lines(b: Bytes): seq<Bytes>
    requires Terminated(b)
    decreases |b|
  {
    if b == [] then []
    else
      var i := FirstNl(b);
      assert b[|b| - 1] == NL;
      [b[..i]] + Lines(b[i + 1..])
  }

  /** Splitting at every newline, as bytes.split does: one part more than there are newlines. */
  function Split(b: Bytes): seq<Bytes>
    decreases |b|
  {
    var i := FirstNl(b);
    if i == |b| then [b] else [b[..i]] + Split(b[i + 1..])
  }

  function NewlineTerminatedLines(b: Bytes): seq<Bytes> {
    if b == [] then []
    else
      var parts := Split(b);
      if b[|b| - 1] == NL then (if parts == [] then [] else parts[..|parts| - 1]) else parts
  }

  /** Splitting and dropping the last, empty part yields the lines. */
  lemma {:induction false} SplitGivesLines(b: Bytes)
    requires Terminated(b)
    ensures |Split(b)| > 0
    ensures Split(b) == Lines(b) + [[]]
    ensures NewlineTerminatedLines(b) == Lines(b)
    decreases |b|
  {
    if b != [] {
      assert b[|b| - 1] == NL;
      SplitGivesLines(b[FirstNl(b) + 1..]);
    }
  }

  /** One line in front of a terminated text is its first line. */
  lemma LineFirst(text: Bytes, rest: Bytes)
    requires NL !in text && Terminated(rest)
    ensures Terminated(text + [NL] + rest)
    ensures Lines(text + [NL] + rest) == [text] + Lines(rest)
  {
    var b := text + [NL] + rest;
    assert b[|text|] == NL;
    forall j | 0 <= j < |text|
      ensures b[j] != NL
    {
      assert b[j] == text[j];
    }
    assert FirstNl(b) == |text|;
    assert b[..|text|] == text;
    assert b[|text| + 1..] == rest;
    assert rest != [] ==> b[|b| - 1] == rest[|rest| - 1];
  }

  lemma OneLine(text: Bytes)
    requires NL !in text
    ensures Terminated(text + [NL]) && Lines(text + [NL]) == [text]
  {
    LineFirst(text, []);
    assert text + [NL] + [] == text + [NL];
  }

  /** A non-empty terminated text is its first line, a newline, and a terminated rest. */
  lemma FirstLine(b: Bytes) returns (text: Bytes, rest: Bytes)
    requires Terminated(b) && b != []
    ensures NL !in text && Terminated(rest) && |rest| < |b|
    ensures b == (text + [NL]) + rest
    ensures Lines(b) == [text] + Lines(rest)
  {
    assert b[|b| - 1] == NL;
    var i := FirstNl(b);
    text, rest := b[..i], b[i + 1..];
    assert rest != [] ==> rest[|rest| - 1] == b[|b| - 1];
  }

  lemma {:induction false} LinesConcat(a: Bytes, b: Bytes)
    requires Terminated(a) && Terminated(b)
    ensures Terminated(a + b)
    ensures Lines(a + b) == Lines(a) + Lines(b)
    decreases |a|
  {
    if a == [] {
      assert a + b == b;
      assert [] + Lines(b) == Lines(b);
    } else {
      var text, rest := FirstLine(a);
      LinesConcat(rest, b);
      LineFirst(text, rest + b);
      ConcatAssoc(text + [NL], rest, b);
      PrependLine(text, Lines(rest), Lines(b));
    }
  }

  lemma PrependLine(text: Bytes, a: seq<Bytes>, b: seq<Bytes>)
    ensures ([text] + a) + b == [text] + (a + b)
  {
  }

  // ---- Reading ----

  datatype ReadResult<+R> = ReadResult(records: seq<R>, skippedTrailing: bool, malformed: nat)

  function LineRecords<R>(c: Codec<R>, line: Bytes): seq<R> {
    if Blank(line) then []
    else
      match c.loads(line)
      case Object(r) => [r]
      case _ => []
  }

  function LineFaults<R>(c: Codec<R>, line: Bytes): nat {
    if Blank(line) || c.loads(line).Object? then 0 else 1
  }

  function RecordsOf<R>(c: Codec<R>, lines: seq<Bytes>): seq<R> {
    if lines == [] then [] else LineRecords(c, lines[0]) + RecordsOf(c, lines[1..])
  }

  function FaultsOf<R>(c: Codec<R>, lines: seq<Bytes>): nat {
    if lines == [] then 0 else LineFaults(c, lines[0]) + FaultsOf(c, lines[1..])
  }

  /** A fragment after the last newline that is no JSON text. */
  predicate Torn<R>(c: Codec<R>, tail: Bytes) {
    tail != [] && c.loads(tail) == Malformed
  }

  /** A fragment that is a JSON text by itself counts as a line. */
  function ExtraLine<R>(c: Codec<R>, tail: Bytes): seq<Bytes> {
    if tail == [] || Torn(c, tail) then [] else [tail]
  }

  function CountedLines<R>(c: Codec<R>, raw: Bytes): seq<Bytes> {
    Lines(Complete(raw)) + ExtraLine(c, Tail(raw))
  }

  function Read<R>(c: Codec<R>, raw: Bytes): ReadResult<R> {
    ReadResult(RecordsOf(c, CountedLines(c, raw)), Torn(c, Tail(raw)), FaultsOf(c, CountedLines(c, raw)))
  }

  lemma {:induction false} RecordsConcat<R>(c: Codec<R>, a: seq<Bytes>, b: seq<Bytes>)
    ensures RecordsOf(c, a + b) == RecordsOf(c, a) + RecordsOf(c, b)
    ensures FaultsOf(c, a + b) == FaultsOf(c, a) + FaultsOf(c, b)
  {
    if a == [] {
      assert a + b == b;
    } else {
      assert (a + b)[1..] == a[1..] + b;
      RecordsConcat(c, a[1..], b);
    }
  }

  lemma RecordsOfNext<R>(c: Codec<R>, lines: seq<Bytes>, i: nat)
    requires i < |lines|
    ensures RecordsOf(c, lines[..i + 1]) == RecordsOf(c, lines[..i]) + LineRecords(c, lines[i])
    ensures FaultsOf(c, lines[..i + 1]) == FaultsOf(c, lines[..i]) + LineFaults(c, lines[i])
  {
    assert lines[..i + 1] == lines[..i] + [lines[i]];
    RecordsConcat(c, lines[..i], [lines[i]]);
    assert [lines[i]][1..] == [];
    assert LineRecords(c, lines[i]) + [] == LineRecords(c, lines[i]);
  }

  // ---- What is counted ----

  /** A line with a printable ASCII character is not blank; spaces, tabs and returns alone are. */
  lemma BlankMeaning(line: Bytes)
    ensures (exists i :: 0 <= i < |line| && 33 <= line[i] <= 126) ==> !Blank(line)
    ensures (forall i :: 0 <= i < |line| ==> line[i] in {32, 9, 13}) ==> Blank(line)
  {
  }

  predicate Loads<R>(c: Codec<R>, line: Bytes) {
    c.loads(line).Object?
  }

  function Inked(lines: seq<Bytes>): seq<Bytes> {
    Filter(lines, (line: Bytes) => !Blank(line))
  }

  /** Every line that is not blank is either a record or damage, and is damage exactly when it does not load as an
      object. */
  lemma {:induction false} LinesAccounted<R>(c: Codec<R>, lines: seq<Bytes>)
    ensures |RecordsOf(c, lines)| == |Filter(Inked(lines), (line: Bytes) => Loads(c, line))|
    ensures FaultsOf(c, lines) == |Filter(Inked(lines), (line: Bytes) => !Loads(c, line))|
    ensures |RecordsOf(c, lines)| + FaultsOf(c, lines) == |Inked(lines)|
  {
    if lines != [] {
      LinesAccounted(c, lines[1..]);
    }
  }

  /** For any bytes: records and damage together are the lines that are not blank, a torn tail apart; the damage is the
      number of those that do not load as an object, so there is none exactly when all of them do. */
  lemma DamageIsCounted<R>(c: Codec<R>, raw: Bytes)
    ensures var lines := Inked(CountedLines(c, raw));
            && |Read(c, raw).records| + Read(c, raw).malformed == |lines|
            && Read(c, raw).malformed == |Filter(lines, (line: Bytes) => !Loads(c, line))|
            && (Read(c, raw).malformed == 0 <==> forall line :: line in lines ==> Loads(c, line))
  {
    LinesAccounted(c, CountedLines(c, raw));
    var damaged := Filter(Inked(CountedLines(c, raw)), (line: Bytes) => !Loads(c, line));
    if damaged != [] {
      assert damaged[0] in damaged;
    }
  }

  /** Decodes a file line by line; damage is counted, never raised. */
  method ReadJsonl<R>(c: Codec<R>, raw: Bytes) returns (result: ReadResult<R>)
    ensures result == Read(c, raw)
  {
    var skipped := false;
    var complete := raw;
    var extra: seq<Bytes> := [];
    if raw != [] && raw[|raw| - 1] != NL {
      var n := CompleteLength(raw);
      var tail := raw[n..];
      complete := raw[..n];
      if c.loads(tail) == Malformed {
        skipped := true;
      } else {
        extra := [tail];
      }
    }
    assert complete == Complete(raw) && extra == ExtraLine(c, Tail(raw));
    SplitGivesLines(complete);
    var records, malformed := DecodeLines(c, NewlineTerminatedLines(complete) + extra);
    result := ReadResult(records, skipped, malformed);
  }

  method DecodeLines<R>(c: Codec<R>, lines: seq<Bytes>) returns (records: seq<R>, malformed: nat)
    ensures records == RecordsOf(c, lines) && malformed == FaultsOf(c, lines)
  {
    records := [];
    malformed := 0;
    for i := 0 to |lines|
      invariant records == RecordsOf(c, lines[..i])
      invariant malformed == FaultsOf(c, lines[..i])
    {
      var line := lines[i];
      RecordsOfNext(c, lines, i);
      if Blank(line) {
        continue;
      }
      match c.loads(line)
      case Object(r) =>
        records := records + [r];
      case NonObject =>
        malformed := malformed + 1;
      case Malformed =>
        malformed := malformed + 1;
    }
    assert lines[..|lines|] == lines;
  }

  // ---- Repair ----

  /** What opening the log makes of a file left behind: a torn tail is cut, a tail that is JSON gets its newline. */
  function Repaired<R>(c: Codec<R>, raw: Bytes): Bytes {
    if Tail(raw) == [] then raw
    else if c.loads(Tail(raw)) == Malformed then Complete(raw)
    else raw + [NL]
  }

  method TruncateTrailingPartial<R>(c: Codec<R>, raw: Bytes) returns (repaired: Bytes)
    ensures repaired == Repaired(c, raw)
  {
    if raw == [] {
      return raw;
    }
    if raw[|raw| - 1] == NL {
      return raw;
    }
    var n := CompleteLength(raw);
    var tail := raw[n..];
    if c.loads(tail) == Malformed {
      return raw[..n];
    }
    repaired := raw + [NL];
  }

  // ---- Properties ----

  lemma ReadTerminated<R>(c: Codec<R>, raw: Bytes)
    requires Terminated(raw)
    ensures Read(c, raw) == ReadResult(RecordsOf(c, Lines(raw)), false, FaultsOf(c, Lines(raw)))
  {
    assert raw + [] == raw;
    TailUnique(raw, []);
    assert Lines(raw) + [] == Lines(raw);
  }

  /** Repair leaves a file that ends in a newline or is empty, and a second repair changes nothing. */
  lemma RepairIdempotent<R>(c: Codec<R>, raw: Bytes)
    ensures Terminated(Repaired(c, raw))
    ensures Repaired(c, Repaired(c, raw)) == Repaired(c, raw)
  {
    var fixed := Repaired(c, raw);
    assert Terminated(fixed);
    assert fixed + [] == fixed;
    TailUnique(fixed, []);
  }

  /** The last newline splits any text. */
  lemma Parts(raw: Bytes) returns (done: Bytes, rest: Bytes)
    ensures Terminated(done) && NL !in rest && raw == done + rest
    ensures done == Complete(raw) && rest == Tail(raw)
  {
    done, rest := Complete(raw), Tail(raw);
    forall j | 0 <= j < |rest|
      ensures rest[j] != NL
    {
      assert rest[j] == raw[CompleteLength(raw) + j];
    }
  }

  lemma ReadParts<R>(c: Codec<R>, done: Bytes, rest: Bytes)
    requires Terminated(done) && NL !in rest
    ensures CountedLines(c, done + rest) == Lines(done) + ExtraLine(c, rest)
    ensures Read(c, done + rest).skippedTrailing == Torn(c, rest)
  {
    TailUnique(done, rest);
  }

  /** Repair keeps everything a reader gets from the file, records and damage count, for any bytes whatever. */
  lemma RepairPreserves<R>(c: Codec<R>, raw: Bytes)
    ensures var before, after := Read(c, raw), Read(c, Repaired(c, raw));
            && after.records == before.records && after.malformed == before.malformed
            && !after.skippedTrailing
  {
    var done, rest := Parts(raw);
    RepairIdempotent(c, raw);
    RepairKeepsLines(c, done, rest);
    ReadTerminated(c, Repaired(c, raw));
  }

  lemma RepairKeepsLines<R>(c: Codec<R>, done: Bytes, rest: Bytes)
    requires Terminated(done) && NL !in rest
    ensures Terminated(Repaired(c, done + rest))
    ensures Lines(Repaired(c, done + rest)) == CountedLines(c, done + rest)
  {
    ReadParts(c, done, rest);
    TailUnique(done, rest);
    RepairIdempotent(c, done + rest);
    if rest == [] || c.loads(rest) == Malformed {
      assert rest == [] ==> done + rest == done;
      assert Lines(done) + [] == Lines(done);
    } else {
      OneLine(rest);
      LinesConcat(done, rest + [NL]);
      ConcatAssoc(done, rest, [NL]);
    }
  }

  function LineOf<R>(c: Codec<R>, r: R): Bytes {
    c.encode(r) + [NL]
  }

  lemma LineReads<R(!new)>(c: Codec<R>, r: R)
    requires Lawful(c)
    ensures NL !in c.encode(r) && !Blank(c.encode(r))
    ensures RecordsOf(c, [c.encode(r)]) == [r] && FaultsOf(c, [c.encode(r)]) == 0
  {
    assert WritesWell(c, r);
    assert [c.encode(r)][1..] == [];
    assert RecordsOf(c, [c.encode(r)]) == LineRecords(c, c.encode(r)) + [];
  }

  /** A record appended to a repaired file reads as the old records and that one. */
  lemma AppendReads<R(!new)>(c: Codec<R>, raw: Bytes, r: R)
    requires Lawful(c) && Terminated(raw)
    ensures Terminated(raw + LineOf(c, r))
    ensures Read(c, raw + LineOf(c, r))
            == ReadResult(Read(c, raw).records + [r], false, Read(c, raw).malformed)
  {
    LineReads(c, r);
    OneLine(c.encode(r));
    LinesConcat(raw, LineOf(c, r));
    ReadTerminated(c, raw);
    ReadTerminated(c, raw + LineOf(c, r));
    RecordsConcat(c, Lines(raw), [c.encode(r)]);
  }

  lemma AppendAfterRepair<R(!new)>(c: Codec<R>, raw: Bytes, r: R)
    requires Lawful(c)
    ensures Read(c, Repaired(c, raw) + LineOf(c, r))
            == ReadResult(Read(c, raw).records + [r], false, Read(c, raw).malformed)
  {
    RepairIdempotent(c, raw);
    RepairPreserves(c, raw);
    AppendReads(c, Repaired(c, raw), r);
  }

  // ---- Files of records, and cutting them anywhere ----

  function Encoded<R>(c: Codec<R>, records: seq<R>): Bytes {
    if records == [] then [] else LineOf(c, records[0]) + Encoded(c, records[1..])
  }

  lemma {:induction false} EncodedReads<R(!new)>(c: Codec<R>, records: seq<R>)
    requires Lawful(c)
    ensures Terminated(Encoded(c, records))
    ensures Read(c, Encoded(c, records)) == ReadResult(records, false, 0)
  {
    if records == [] {
      ReadTerminated(c, []);
    } else {
      var first, later := records[0], records[1..];
      EncodedReads(c, later);
      RecordBefore(c, first, later, Encoded(c, later));
      assert [first] + later == records;
    }
  }

  lemma RecordBefore<R(!new)>(c: Codec<R>, first: R, later: seq<R>, rest: Bytes)
    requires Lawful(c) && Terminated(rest)
    requires Read(c, rest) == ReadResult(later, false, 0)
    ensures Terminated(LineOf(c, first) + rest)
    ensures Read(c, LineOf(c, first) + rest) == ReadResult([first] + later, false, 0)
  {
    ReadAfterRecord(c, first, rest);
    TerminatedConcat(LineOf(c, first), rest);
  }

  lemma TerminatedConcat(a: Bytes, b: Bytes)
    requires Terminated(a) && Terminated(b)
    ensures Terminated(a + b)
  {
    assert b != [] ==> (a + b)[|a + b| - 1] == b[|b| - 1];
    assert b == [] ==> a + b == a;
  }

  lemma {:induction false} EncodedConcat<R>(c: Codec<R>, a: seq<R>, b: seq<R>)
    ensures Encoded(c, a + b) == Encoded(c, a) + Encoded(c, b)
  {
    if a == [] {
      assert a + b == b;
    } else {
      assert (a + b)[1..] == a[1..] + b;
      EncodedConcat(c, a[1..], b);
    }
  }

  /** How many records have their whole text inside the first `cut` bytes. */
  function Survivors<R>(c: Codec<R>, records: seq<R>, cut: nat): (k: nat)
    ensures k <= |records|
  {
    if records == [] then 0
    else
      var n := |c.encode(records[0])|;
      if cut < n then 0
      else if cut == n then 1
      else 1 + Survivors(c, records[1..], cut - n - 1)
  }

  /** The cut falls inside a record's text. */
  predicate Tears<R>(c: Codec<R>, records: seq<R>, cut: nat) {
    if records == [] then false
    else
      var n := |c.encode(records[0])|;
      if cut <= n then 0 < cut < n else Tears(c, records[1..], cut - n - 1)
  }

  /** Whatever byte a crash cuts the file at, a reader gets exactly the records whose text survived, finds no damage,
      and reports a skipped fragment exactly when the cut tore a record. */
  lemma {:induction false} CutReads<R(!new)>(c: Codec<R>, records: seq<R>, cut: nat)
    requires Lawful(c) && cut <= |Encoded(c, records)|
    ensures Read(c, Encoded(c, records)[..cut])
            == ReadResult(records[..Survivors(c, records, cut)], Tears(c, records, cut), 0)
    decreases records
  {
    if records == [] {
      EncodedReads(c, records);
    } else if cut <= |c.encode(records[0])| {
      CutFirstRecord(c, records, cut);
    } else {
      CutReads(c, records[1..], cut - |c.encode(records[0])| - 1);
      CutLaterRecord(c, records, cut);
    }
  }

  lemma CutFirstRecord<R(!new)>(c: Codec<R>, records: seq<R>, cut: nat)
    requires Lawful(c) && records != [] && cut <= |c.encode(records[0])|
    ensures Read(c, Encoded(c, records)[..cut])
            == ReadResult(records[..Survivors(c, records, cut)], Tears(c, records, cut), 0)
  {
    CutInFirst(c, records[0], cut);
    CutLine(c.encode(records[0]), Encoded(c, records[1..]), cut);
    assert records[..1] == [records[0]];
  }

  lemma CutLaterRecord<R(!new)>(c: Codec<R>, records: seq<R>, cut: nat)
    requires Lawful(c) && records != [] && |c.encode(records[0])| < cut <= |Encoded(c, records)|
    requires var left := cut - |c.encode(records[0])| - 1;
             var later := records[1..];
             Read(c, Encoded(c, later)[..left])
             == ReadResult(later[..Survivors(c, later, left)], Tears(c, later, left), 0)
    ensures Read(c, Encoded(c, records)[..cut])
            == ReadResult(records[..Survivors(c, records, cut)], Tears(c, records, cut), 0)
  {
    var left := cut - |c.encode(records[0])| - 1;
    var later := records[1..];
    var k, torn := Survivors(c, later, left), Tears(c, later, left);
    CutFurther(c, records, cut);
    CutAfterRecord(c, records[0], Encoded(c, later), cut, later[..k], torn);
    PrefixStep(records, k);
  }

  /** Cutting behind the first record is cutting among the later ones. */
  lemma CutFurther<R>(c: Codec<R>, records: seq<R>, cut: nat)
    requires records != [] && |c.encode(records[0])| < cut <= |Encoded(c, records)|
    ensures var left := cut - |c.encode(records[0])| - 1;
            && left <= |Encoded(c, records[1..])|
            && Encoded(c, records) == LineOf(c, records[0]) + Encoded(c, records[1..])
            && Survivors(c, records, cut) == 1 + Survivors(c, records[1..], left)
            && Tears(c, records, cut) == Tears(c, records[1..], left)
  {
  }

  lemma CutAfterRecord<R(!new)>(c: Codec<R>, first: R, rest: Bytes, cut: nat, later: seq<R>, torn: bool)
    requires Lawful(c)
    requires |c.encode(first)| < cut <= |c.encode(first)| + 1 + |rest|
    requires Read(c, rest[..cut - |c.encode(first)| - 1]) == ReadResult(later, torn, 0)
    ensures Read(c, (LineOf(c, first) + rest)[..cut]) == ReadResult([first] + later, torn, 0)
  {
    CutLater(c.encode(first), rest, cut);
    ReadAfterRecord(c, first, rest[..cut - |c.encode(first)| - 1]);
  }

  lemma CutLine(text: Bytes, rest: Bytes, cut: nat)
    requires cut <= |text|
    ensures (text + [NL] + rest)[..cut] == text[..cut]
  {
  }

  lemma CutLater(text: Bytes, rest: Bytes, cut: nat)
    requires |text| < cut <= |text| + 1 + |rest|
    ensures (text + [NL] + rest)[..cut] == (text + [NL]) + rest[..cut - |text| - 1]
  {
  }

  lemma PrefixStep<R>(records: seq<R>, k: nat)
    requires k < |records|
    ensures records[..1 + k] == [records[0]] + records[1..][..k]
  {
  }

  /** A first record cut short: the whole text reads as the record, a proper part of it as nothing. */
  lemma CutInFirst<R(!new)>(c: Codec<R>, r: R, cut: nat)
    requires Lawful(c) && cut <= |c.encode(r)|
    ensures var n := |c.encode(r)|;
            n > 0 && Read(c, c.encode(r)[..cut]) == ReadResult(if cut == n then [r] else [], 0 < cut < n, 0)
  {
    var text := c.encode(r);
    assert WritesWell(c, r);
    LineReads(c, r);
    var torn := text[..cut];
    assert NL !in torn;
    ReadParts(c, [], torn);
    assert [] + torn == torn;
    assert text[..|text|] == text;
    if 0 < cut == |text| {
      assert Lines([]) + [text] == [text];
    }
  }

  /** A record's line in front of a text contributes that record. */
  lemma ReadAfterRecord<R(!new)>(c: Codec<R>, r: R, raw: Bytes)
    requires Lawful(c)
    ensures Terminated(LineOf(c, r))
    ensures Read(c, LineOf(c, r) + raw)
            == ReadResult([r] + Read(c, raw).records, Read(c, raw).skippedTrailing, Read(c, raw).malformed)
  {
    LineReads(c, r);
    OneLine(c.encode(r));
    ReadAfterLines(c, LineOf(c, r), raw);
  }

  /** Complete lines in front of a text only contribute their own records. */
  lemma ReadAfterLines<R>(c: Codec<R>, before: Bytes, raw: Bytes)
    requires Terminated(before)
    ensures Read(c, before + raw)
            == ReadResult(RecordsOf(c, Lines(before)) + Read(c, raw).records, Read(c, raw).skippedTrailing,
                          FaultsOf(c, Lines(before)) + Read(c, raw).malformed)
  {
    var done, rest := Parts(raw);
    CountedAfterLines(c, before, done, rest);
    RecordsConcat(c, Lines(before), CountedLines(c, raw));
  }

  lemma CountedAfterLines<R>(c: Codec<R>, before: Bytes, done: Bytes, rest: Bytes)
    requires Terminated(before) && Terminated(done) && NL !in rest
    ensures CountedLines(c, before + (done + rest)) == Lines(before) + CountedLines(c, done + rest)
    ensures Read(c, before + (done + rest)).skippedTrailing == Read(c, done + rest).skippedTrailing
  {
    LinesConcat(before, done);
    ReadParts(c, done, rest);
    ReadParts(c, before + done, rest);
    ConcatAssoc(before, done, rest);
    ConcatAssoc(Lines(before), Lines(done), ExtraLine(c, rest));
  }


  // ---- Repairing a torn file of records ----

  /** Complete lines in front are not touched by repair. */
  lemma RepairedAfter<R>(c: Codec<R>, done: Bytes, raw: Bytes)
    requires Terminated(done)
    ensures Repaired(c, done + raw) == done + Repaired(c, raw)
  {
    var complete, tail := Parts(raw);
    TerminatedConcat(done, complete);
    TailUnique(done + complete, tail);
    ConcatAssoc(done, complete, tail);
    ConcatAssoc(done, raw, [NL]);
  }

  lemma RepairedTail<R>(c: Codec<R>, text: Bytes)
    requires NL !in text
    ensures Repaired(c, text) == if text == [] || c.loads(text) == Malformed then [] else text + [NL]
  {
    ConcatEmpty(text);
    TailUnique([], text);
  }

  lemma RepairedLine<R(!new)>(c: Codec<R>, r: R, cut: nat)
    requires Lawful(c) && cut <= |LineOf(c, r)|
    ensures Repaired(c, LineOf(c, r)[..cut]) == if cut < |c.encode(r)| then [] else LineOf(c, r)
  {
    var text := c.encode(r);
    assert WritesWell(c, r);
    if cut <= |text| {
      assert LineOf(c, r)[..cut] == text[..cut];
      assert cut == |text| ==> text[..cut] == text;
      RepairedTail(c, text[..cut]);
    } else {
      assert LineOf(c, r)[..cut] == LineOf(c, r);
      ConcatEmpty(LineOf(c, r));
      TailUnique(LineOf(c, r), []);
    }
  }

  /** Repairing a file of records cut anywhere leaves the file of the records that survived. */
  lemma {:induction false} RepairedPrefix<R(!new)>(c: Codec<R>, records: seq<R>, cut: nat)
    requires Lawful(c) && cut <= |Encoded(c, records)|
    ensures Repaired(c, Encoded(c, records)[..cut]) == Encoded(c, records[..Survivors(c, records, cut)])
    decreases records
  {
    if records == [] {
      RepairedTail(c, []);
    } else if cut <= |c.encode(records[0])| {
      CutLine(c.encode(records[0]), Encoded(c, records[1..]), cut);
      RepairedFirst(c, records[0], cut);
      assert records[..1] == [records[0]];
    } else {
      RepairedPrefix(c, records[1..], cut - |c.encode(records[0])| - 1);
      RepairedLater(c, records, cut);
    }
  }

  lemma RepairedFirst<R(!new)>(c: Codec<R>, r: R, cut: nat)
    requires Lawful(c) && cut <= |c.encode(r)|
    ensures |c.encode(r)| > 0
    ensures Repaired(c, c.encode(r)[..cut]) == if cut < |c.encode(r)| then [] else Encoded(c, [r])
  {
    LineReads(c, r);
    RepairedLine(c, r, cut);
    assert LineOf(c, r)[..cut] == c.encode(r)[..cut];
    assert [r][1..] == [];
    ConcatEmpty(LineOf(c, r));
  }

  lemma RepairedLater<R(!new)>(c: Codec<R>, records: seq<R>, cut: nat)
    requires Lawful(c) && records != [] && |c.encode(records[0])| < cut <= |Encoded(c, records)|
    requires var left := cut - |c.encode(records[0])| - 1;
             Repaired(c, Encoded(c, records[1..])[..left])
             == Encoded(c, records[1..][..Survivors(c, records[1..], left)])
    ensures Repaired(c, Encoded(c, records)[..cut]) == Encoded(c, records[..Survivors(c, records, cut)])
  {
    var left := cut - |c.encode(records[0])| - 1;
    var k := Survivors(c, records[1..], left);
    RepairedAfterRecord(c, records[0], Encoded(c, records[1..]), cut, records[1..][..k]);
    PrefixStep(records, k);
  }

  lemma EncodedFirst<R>(c: Codec<R>, first: R, later: seq<R>)
    ensures Encoded(c, [first] + later) == LineOf(c, first) + Encoded(c, later)
  {
    assert ([first] + later)[1..] == later;
  }

  lemma RepairedAfterRecord<R(!new)>(c: Codec<R>, first: R, rest: Bytes, cut: nat, later: seq<R>)
    requires Lawful(c) && |c.encode(first)| < cut <= |LineOf(c, first) + rest|
    requires Repaired(c, rest[..cut - |c.encode(first)| - 1]) == Encoded(c, later)
    ensures Repaired(c, (LineOf(c, first) + rest)[..cut]) == Encoded(c, [first] + later)
  {
    CutLater(c.encode(first), rest, cut);
    LineReads(c, first);
    OneLine(c.encode(first));
    RepairedAfter(c, LineOf(c, first), rest[..cut - |c.encode(first)| - 1]);
    EncodedFirst(c, first, later);
  }

  /** A crash inside the repair itself, whose rewrite of a torn file got `kept` bytes far, leaves exactly the records
      whose text is within them: records that were complete before can be lost, from the end of the file. */
  lemma CrashInRepairReads<R(!new)>(c: Codec<R>, records: seq<R>, cut: nat, kept: nat)
    requires Lawful(c) && cut <= |Encoded(c, records)|
    requires kept <= |Repaired(c, Encoded(c, records)[..cut])|
    ensures var whole := records[..Survivors(c, records, cut)];
            && Read(c, Repaired(c, Encoded(c, records)[..cut])[..kept])
               == ReadResult(whole[..Survivors(c, whole, kept)], Tears(c, whole, kept), 0)
  {
    RepairedPrefix(c, records, cut);
    CutReads(c, records[..Survivors(c, records, cut)], kept);
  }
}
