/** How large files get when crashes leave a full file behind: one more record for each such crash. */
module RotationMarks {
  import opened Common
  import opened Jsonl
  import opened RotatedLog
  import opened RotationBounds

  /** For each file, how many crashes left it full while it was the current file. */
  type Marks = map<nat, nat>

  function CrashMarks(m: Marks, full: bool): Marks {
    var current := if 0 in m then m else m[0 := 0];
    if full then current[0 := current[0] + 1] else current
  }

  /** The marks travel with the files. */
  function StepMarks<R>(c: Codec<R>, lim: Limits, d: Disk, m: Marks, e: Event<R>): Marks {
    match e
    case Put(r) =>
      if Full(Appended(d, LineOf(c, r)), lim) then Shifted(m, lim.backups, lim.backups + 1)[0 := 0] else m
    case CrashInWrite(r, cut) =>
      CrashMarks(m, Full(Step(c, lim, d, e), lim))
    case CrashInRotation(r, steps) =>
      var moved := if Full(Appended(d, LineOf(c, r)), lim) then Shifted(m, lim.backups, StepsOf(lim, e)) else m;
      CrashMarks(moved, Full(Step(c, lim, d, e), lim))
  }

  function MarksAfter<R>(c: Codec<R>, lim: Limits, events: seq<Event<R>>): Marks {
    if events == [] then map[0 := 0]
    else
      var before := events[..|events| - 1];
      StepMarks(c, lim, After(c, lim, EMPTY_DISK, before), MarksAfter(c, lim, before), Last(events))
  }

  // ---- Files that keep a bound, whatever the bound is ----

  datatype Place = Current | Backup

  /** One more line on the current file: still small, full and left there by a crash, or full and moved
      to the backups. */
  ghost predicate Grows(ok: (Place, Bytes, nat) -> bool, lim: Limits, line: Bytes, file: Bytes, j: nat) {
    Terminated(file) && ok(Current, file, j) ==>
      && (|file| >= lim.maxBytes ==> ok(Current, file, j + 1))
      && (|file + line| < lim.maxBytes ==> ok(Current, file + line, j))
      && (|file + line| >= lim.maxBytes ==> ok(Current, file + line, j + 1) && ok(Backup, file + line, j))
  }

  ghost predicate Bounds(ok: (Place, Bytes, nat) -> bool, lim: Limits, line: Bytes) {
    && lim.Valid() && line != [] && Terminated(line) && ok(Current, [], 0)
    && forall file, j :: Grows(ok, lim, line, file, j)
  }

  /** Every file keeps the bound of its place by its marks. */
  ghost predicate Marked(ok: (Place, Bytes, nat) -> bool, lim: Limits, d: Disk, m: Marks) {
    && 0 in d && 0 in m && Terminated(d[0]) && ok(Current, d[0], m[0])
    && forall k :: 1 <= k <= lim.backups && k in d ==> k in m && ok(Backup, d[k], m[k])
  }

  lemma SameBackupsMarked(ok: (Place, Bytes, nat) -> bool, lim: Limits, d: Disk, post: Disk, m: Marks, n: Marks)
    requires Marked(ok, lim, d, m) && 0 in post && 0 in n && Terminated(post[0]) && ok(Current, post[0], n[0])
    requires forall k :: k > 0 ==> File(post, k) == File(d, k)
    requires forall k :: k > 0 ==> File(n, k) == File(m, k)
    ensures Marked(ok, lim, post, n)
  {
    forall k | 1 <= k <= lim.backups && k in post
      ensures k in n && ok(Backup, post[k], n[k])
    {
      assert File(post, k) == File(d, k) && File(n, k) == File(m, k);
    }
  }

  lemma LineTerminates(file: Bytes, line: Bytes)
    requires line != [] && Terminated(line)
    ensures Terminated(file + line)
  {
    assert (file + line)[|file + line| - 1] == line[|line| - 1];
  }

  /** After a crash the current file has the line or has not; a full one has one mark more. */
  lemma CrashMarked(ok: (Place, Bytes, nat) -> bool, lim: Limits, line: Bytes, d: Disk, m: Marks, post: Disk)
    requires Bounds(ok, lim, line) && Marked(ok, lim, d, m)
    requires 0 in post && (post[0] == d[0] || post[0] == d[0] + line)
    requires forall k :: k > 0 ==> File(post, k) == File(d, k)
    ensures Marked(ok, lim, post, CrashMarks(m, Full(post, lim)))
  {
    assert Grows(ok, lim, line, d[0], m[0]);
    LineTerminates(d[0], line);
    SameBackupsMarked(ok, lim, d, post, m, CrashMarks(m, Full(post, lim)));
  }

  /** A completed write that does not fill the file. */
  lemma SmallWriteMarked(ok: (Place, Bytes, nat) -> bool, lim: Limits, line: Bytes, d: Disk, m: Marks)
    requires Bounds(ok, lim, line) && Marked(ok, lim, d, m) && !Full(Appended(d, line), lim)
    ensures Marked(ok, lim, Appended(d, line), m)
  {
    assert Grows(ok, lim, line, d[0], m[0]);
    LineTerminates(d[0], line);
    SameBackupsMarked(ok, lim, d, Appended(d, line), m, m);
  }

  /** A backup after any number of a rotation's file operations: the one that was current has one line more. */
  lemma ShiftedMarked(ok: (Place, Bytes, nat) -> bool, lim: Limits, line: Bytes, d: Disk, m: Marks, steps: nat, k: nat)
    requires Bounds(ok, lim, line) && Marked(ok, lim, d, m) && 1 <= steps <= lim.backups + 1 && 1 <= k <= lim.backups
    requires Full(Appended(d, line), lim)
    requires k in Shifted(Appended(d, line), lim.backups, steps)
    ensures k in Shifted(m, lim.backups, steps)
    ensures ok(Backup, Shifted(Appended(d, line), lim.backups, steps)[k], Shifted(m, lim.backups, steps)[k])
  {
    var w := Appended(d, line);
    ShiftedFile(w, lim.backups, steps, k);
    ShiftedFile(m, lim.backups, steps, k);
    assert Grows(ok, lim, line, d[0], m[0]);
    ShiftedSource(ok, lim, d, w, m, line, if k > lim.backups + 1 - steps then k - 1 else k,
                  Shifted(w, lim.backups, steps), Shifted(m, lim.backups, steps), k);
  }

  lemma ShiftedSource(ok: (Place, Bytes, nat) -> bool, lim: Limits, d: Disk, w: Disk, m: Marks, line: Bytes, from: nat,
                      s: Disk, t: Marks, k: nat)
    requires Marked(ok, lim, d, m) && w == d[0 := d[0] + line] && ok(Backup, d[0] + line, m[0])
    requires k in s && from <= lim.backups && File(s, k) == File(w, from) && File(t, k) == File(m, from)
    ensures k in t && ok(Backup, s[k], t[k])
  {
    assert File(s, k) == Some(s[k]);
    if from == 0 {
      assert File(w, 0) == Some(d[0] + line) && File(m, 0) == Some(m[0]);
    } else {
      assert File(w, from) == Some(d[from]);
      assert File(m, from) == Some(m[from]);
    }
  }

  lemma RotatedMarked(ok: (Place, Bytes, nat) -> bool, lim: Limits, line: Bytes, d: Disk, m: Marks, steps: nat,
                      post: Disk,
                      n: Marks)
    requires Bounds(ok, lim, line) && Marked(ok, lim, d, m) && 1 <= steps <= lim.backups + 1
    requires Full(Appended(d, line), lim)
    requires 0 in post && 0 in n && Terminated(post[0]) && ok(Current, post[0], n[0])
    requires forall k :: k > 0 ==> File(post, k) == File(Shifted(Appended(d, line), lim.backups, steps), k)
    requires forall k :: k > 0 ==> File(n, k) == File(Shifted(m, lim.backups, steps), k)
    ensures Marked(ok, lim, post, n)
  {
    forall k | 1 <= k <= lim.backups && k in post
      ensures k in n && ok(Backup, post[k], n[k])
    {
      assert File(post, k) == File(Shifted(Appended(d, line), lim.backups, steps), k);
      ShiftedMarked(ok, lim, line, d, m, steps, k);
      assert File(n, k) == File(Shifted(m, lim.backups, steps), k);
    }
  }

  /** A whole rotation, completed by a write or by the opening after a crash: the current file is new. */
  lemma NewFileMarked(ok: (Place, Bytes, nat) -> bool, lim: Limits, line: Bytes, d: Disk, m: Marks)
    requires Bounds(ok, lim, line) && Marked(ok, lim, d, m)
    requires Full(Appended(d, line), lim)
    ensures var s := Shifted(Appended(d, line), lim.backups, lim.backups + 1);
            var t := Shifted(m, lim.backups, lim.backups + 1);
            && 0 !in s && 0 !in t && Marked(ok, lim, s[0 := []], t[0 := 0])
  {
    ShiftedFile(Appended(d, line), lim.backups, lim.backups + 1, 0);
    ShiftedFile(m, lim.backups, lim.backups + 1, 0);
    assert File(Shifted(Appended(d, line), lim.backups, lim.backups + 1), 0) == None;
    assert File(Shifted(m, lim.backups, lim.backups + 1), 0) == None;
    RotatedMarked(ok, lim, line, d, m, lim.backups + 1,
                  Shifted(Appended(d, line), lim.backups, lim.backups + 1)[0 := []],
                  Shifted(m, lim.backups, lim.backups + 1)[0 := 0]);
  }

  /** A crash inside the rotation: the current file is still the full one. */
  lemma InterruptedMarked(ok: (Place, Bytes, nat) -> bool, lim: Limits, line: Bytes, d: Disk, m: Marks, steps: nat)
    requires Bounds(ok, lim, line) && Marked(ok, lim, d, m) && 1 <= steps <= lim.backups
    requires Full(Appended(d, line), lim)
    ensures var s, t := Shifted(Appended(d, line), lim.backups, steps), Shifted(m, lim.backups, steps);
            && 0 in s && s[0] == d[0] + line && 0 in t && Marked(ok, lim, s, t[0 := t[0] + 1])
  {
    ShiftedFile(Appended(d, line), lim.backups, steps, 0);
    ShiftedFile(m, lim.backups, steps, 0);
    assert File(Shifted(Appended(d, line), lim.backups, steps), 0) == Some(d[0] + line);
    assert File(Shifted(m, lim.backups, steps), 0) == Some(m[0]);
    assert Grows(ok, lim, line, d[0], m[0]);
    LineTerminates(d[0], line);
    RotatedMarked(ok, lim, line, d, m, steps, Shifted(Appended(d, line), lim.backups, steps),
                  Shifted(m, lim.backups, steps)[0 := m[0] + 1]);
  }

  // ---- Every event ----

  lemma CrashedFile<R(!new)>(c: Codec<R>, d: Disk, r: R, cut: nat)
    requires Lawful(c) && Ready(d)
    ensures var post := Opened(c, Appended(d, Written(c, r, cut)));
            && 0 in post && (post[0] == d[0] || post[0] == d[0] + LineOf(c, r))
            && forall k :: k > 0 ==> File(post, k) == File(d, k)
  {
    RepairedAfter(c, d[0], Written(c, r, cut));
    RepairedLine(c, r, Min(cut, |LineOf(c, r)|));
    ConcatEmpty(d[0]);
  }

  lemma WholeFileOpens<R>(c: Codec<R>, w: Disk)
    requires Ready(w)
    ensures Opened(c, w) == w
  {
    ConcatEmpty(w[0]);
    TailUnique(w[0], []);
  }

  /** How a rotation interrupted after these steps is opened. */
  lemma OpenedShift<R>(c: Codec<R>, lim: Limits, line: Bytes, d: Disk, steps: nat)
    requires lim.Valid() && line != [] && Terminated(line) && 0 in d && 1 <= steps <= lim.backups + 1
    ensures var s := Shifted(Appended(d, line), lim.backups, steps);
            Opened(c, s) == if steps == lim.backups + 1 then s[0 := []] else s
  {
    var s := Shifted(Appended(d, line), lim.backups, steps);
    ShiftedFile(Appended(d, line), lim.backups, steps, 0);
    LineTerminates(d[0], line);
    if steps <= lim.backups {
      assert File(s, 0) == Some(d[0] + line);
      WholeFileOpens(c, s);
    } else {
      assert File(s, 0) == None;
    }
  }

  ghost predicate StepIsMarked<R>(c: Codec<R>, lim: Limits, ok: (Place, Bytes, nat) -> bool, d: Disk, m: Marks,
                                  e: Event<R>) {
    Marked(ok, lim, d, m) ==> Marked(ok, lim, Step(c, lim, d, e), StepMarks(c, lim, d, m, e))
  }

  lemma PutMarked<R(!new)>(c: Codec<R>, lim: Limits, ok: (Place, Bytes, nat) -> bool, d: Disk, m: Marks, r: R)
    requires Bounds(ok, lim, LineOf(c, r)) && Marked(ok, lim, d, m)
    ensures StepIsMarked(c, lim, ok, d, m, Put(r))
  {
    if Full(Appended(d, LineOf(c, r)), lim) {
      NewFileMarked(ok, lim, LineOf(c, r), d, m);
    } else {
      SmallWriteMarked(ok, lim, LineOf(c, r), d, m);
    }
  }

  lemma CrashInWriteIs<R>(c: Codec<R>, lim: Limits, d: Disk, m: Marks, r: R, cut: nat)
    ensures var post := Opened(c, Appended(d, Written(c, r, cut)));
            && Step(c, lim, d, CrashInWrite(r, cut)) == post
            && StepMarks(c, lim, d, m, CrashInWrite(r, cut)) == CrashMarks(m, Full(post, lim))
  {
  }

  lemma CrashInWriteMarked<R(!new)>(c: Codec<R>, lim: Limits, ok: (Place, Bytes, nat) -> bool, d: Disk, m: Marks, r: R,
                                    cut: nat)
    requires Lawful(c) && Bounds(ok, lim, LineOf(c, r)) && Marked(ok, lim, d, m)
    ensures StepIsMarked(c, lim, ok, d, m, CrashInWrite(r, cut))
  {
    CrashedFile(c, d, r, cut);
    CrashMarked(ok, lim, LineOf(c, r), d, m, Opened(c, Appended(d, Written(c, r, cut))));
    CrashInWriteIs(c, lim, d, m, r, cut);
  }

  lemma UnrotatedMarked<R(!new)>(c: Codec<R>, lim: Limits, ok: (Place, Bytes, nat) -> bool, d: Disk, m: Marks, r: R)
    requires Bounds(ok, lim, LineOf(c, r)) && Marked(ok, lim, d, m)
    ensures Opened(c, Appended(d, LineOf(c, r))) == Appended(d, LineOf(c, r))
    ensures Marked(ok, lim, Appended(d, LineOf(c, r)), CrashMarks(m, Full(Appended(d, LineOf(c, r)), lim)))
  {
    LineTerminates(d[0], LineOf(c, r));
    WholeFileOpens(c, Appended(d, LineOf(c, r)));
    CrashMarked(ok, lim, LineOf(c, r), d, m, Appended(d, LineOf(c, r)));
  }

  lemma CrashInRotationMarked<R(!new)>(c: Codec<R>, lim: Limits, ok: (Place, Bytes, nat) -> bool, d: Disk, m: Marks,
                                       r: R,
                                       wanted: nat)
    requires Bounds(ok, lim, LineOf(c, r)) && Marked(ok, lim, d, m)
    ensures StepIsMarked(c, lim, ok, d, m, CrashInRotation(r, wanted))
  {
    var e := CrashInRotation(r, wanted);
    if !Full(Appended(d, LineOf(c, r)), lim) || StepsOf(lim, e) == 0 {
      UnrotatedMarked(c, lim, ok, d, m, r);
    } else {
      CrashInShiftMarked(c, lim, ok, d, m, LineOf(c, r), StepsOf(lim, e));
    }
  }

  lemma CrashInShiftMarked<R>(c: Codec<R>, lim: Limits, ok: (Place, Bytes, nat) -> bool, d: Disk, m: Marks, line: Bytes,
                              steps: nat)
    requires Bounds(ok, lim, line) && Marked(ok, lim, d, m) && 1 <= steps <= lim.backups + 1
    requires Full(Appended(d, line), lim)
    ensures var post := Opened(c, Shifted(Appended(d, line), lim.backups, steps));
            Marked(ok, lim, post, CrashMarks(Shifted(m, lim.backups, steps), Full(post, lim)))
  {
    OpenedShift(c, lim, line, d, steps);
    if steps == lim.backups + 1 {
      CrashAfterShift(ok, lim, line, d, m);
    } else {
      CrashAmidShift(ok, lim, line, d, m, steps);
    }
  }

  lemma CrashAfterShift(ok: (Place, Bytes, nat) -> bool, lim: Limits, line: Bytes, d: Disk, m: Marks)
    requires Bounds(ok, lim, line) && Marked(ok, lim, d, m)
    requires Full(Appended(d, line), lim)
    ensures var post := Shifted(Appended(d, line), lim.backups, lim.backups + 1)[0 := []];
            Marked(ok, lim, post, CrashMarks(Shifted(m, lim.backups, lim.backups + 1), Full(post, lim)))
  {
    NewFileMarked(ok, lim, line, d, m);
  }

  lemma CrashAmidShift(ok: (Place, Bytes, nat) -> bool, lim: Limits, line: Bytes, d: Disk, m: Marks, steps: nat)
    requires Bounds(ok, lim, line) && Marked(ok, lim, d, m) && 1 <= steps <= lim.backups && Full(Appended(d, line), lim)
    ensures var post := Shifted(Appended(d, line), lim.backups, steps);
            Marked(ok, lim, post, CrashMarks(Shifted(m, lim.backups, steps), Full(post, lim)))
  {
    InterruptedMarked(ok, lim, line, d, m, steps);
  }

  lemma StepMarked<R(!new)>(c: Codec<R>, lim: Limits, ok: (Place, Bytes, nat) -> bool, d: Disk, m: Marks, e: Event<R>)
    requires Lawful(c) && Bounds(ok, lim, LineOf(c, e.record))
    ensures StepIsMarked(c, lim, ok, d, m, e)
  {
    if Marked(ok, lim, d, m) {
      match e
      case Put(r) => PutMarked(c, lim, ok, d, m, r);
      case CrashInWrite(r, cut) => CrashInWriteMarked(c, lim, ok, d, m, r, cut);
      case CrashInRotation(r, steps) => CrashInRotationMarked(c, lim, ok, d, m, r, steps);
    }
  }

  lemma {:induction false} RunMarkedBy<R(!new)>(c: Codec<R>, lim: Limits, ok: (Place, Bytes, nat) -> bool,
                                                events: seq<Event<R>>)
    requires ok(Current, [], 0) && forall d, m, e: Event<R> :: StepIsMarked(c, lim, ok, d, m, e)
    ensures Marked(ok, lim, After(c, lim, EMPTY_DISK, events), MarksAfter(c, lim, events))
  {
    if events != [] {
      var before := events[..|events| - 1];
      RunMarkedBy(c, lim, ok, before);
      assert StepIsMarked(c, lim, ok, After(c, lim, EMPTY_DISK, before), MarksAfter(c, lim, before), Last(events));
    }
  }

  // ---- The bound: the last records ----

  /** Below the limit without its last j records. */
  ghost predicate OverBy<R(!new)>(c: Codec<R>, lim: Limits, file: Bytes, j: nat) {
    exists before: Bytes, records: seq<R> ::
      file == before + Encoded(c, records) && |before| < lim.maxBytes && |records| <= j
  }

  lemma OverByWeakens<R(!new)>(c: Codec<R>, lim: Limits, file: Bytes, j: nat, more: nat)
    ensures |file| < lim.maxBytes ==> OverBy(c, lim, file, j)
    ensures OverBy(c, lim, file, j) && j <= more ==> OverBy(c, lim, file, more)
  {
    var none: seq<R> := [];
    assert file == file + Encoded(c, none);
  }

  lemma OverByGrows<R(!new)>(c: Codec<R>, lim: Limits, file: Bytes, j: nat, r: R)
    requires OverBy(c, lim, file, j)
    ensures OverBy(c, lim, file + LineOf(c, r), j + 1)
  {
    var before: Bytes, records: seq<R> :|
      file == before + Encoded(c, records) && |before| < lim.maxBytes && |records| <= j;
    EncodedConcat(c, records, [r]);
    EncodedFirst(c, r, []);
    assert [r] + [] == [r];
    ConcatEmpty(LineOf(c, r));
    ConcatAssoc(before, Encoded(c, records), LineOf(c, r));
    assert file + LineOf(c, r) == before + Encoded(c, records + [r]);
    assert |records + [r]| <= j + 1;
  }

  /** A bound on the current file by its marks and on a backup by one more. */
  ghost function OneMore(over: (Bytes, nat) -> bool): (Place, Bytes, nat) -> bool {
    (place: Place, file: Bytes, j: nat) => over(file, if place.Backup? then j + 1 else j)
  }

  lemma OneMoreGrows(over: (Bytes, nat) -> bool, lim: Limits, line: Bytes, file: Bytes, j: nat)
    requires over(file, j) ==> over(file, j + 1) && over(file + line, j + 1)
    requires |file + line| < lim.maxBytes ==> over(file + line, j)
    ensures Grows(OneMore(over), lim, line, file, j)
  {
  }

  ghost function Over<R(!new)>(c: Codec<R>, lim: Limits): (Place, Bytes, nat) -> bool {
    OneMore((file: Bytes, j: nat) => OverBy(c, lim, file, j))
  }

  lemma OverBounds<R(!new)>(c: Codec<R>, lim: Limits, r: R)
    requires Lawful(c) && lim.Valid()
    ensures Bounds(Over(c, lim), lim, LineOf(c, r))
  {
    LineReads(c, r);
    OneLine(c.encode(r));
    OverByWeakens(c, lim, [], 0, 0);
    forall file, j: nat
      ensures Grows(Over(c, lim), lim, LineOf(c, r), file, j)
    {
      OverGrows(c, lim, r, file, j);
    }
  }

  lemma OverGrows<R(!new)>(c: Codec<R>, lim: Limits, r: R, file: Bytes, j: nat)
    ensures Grows(Over(c, lim), lim, LineOf(c, r), file, j)
  {
    OverByWeakens(c, lim, file, j, j + 1);
    OverByWeakens(c, lim, file + LineOf(c, r), j, j + 1);
    if OverBy(c, lim, file, j) {
      OverByGrows(c, lim, file, j, r);
    }
    OneMoreGrows((f: Bytes, n: nat) => OverBy(c, lim, f, n), lim, LineOf(c, r), file, j);
  }

  lemma RunMarkedIf<R(!new)>(c: Codec<R>, lim: Limits, ok: (Place, Bytes, nat) -> bool, events: seq<Event<R>>)
    requires Lawful(c) && ok(Current, [], 0) && forall r :: Bounds(ok, lim, LineOf(c, r))
    ensures Marked(ok, lim, After(c, lim, EMPTY_DISK, events), MarksAfter(c, lim, events))
  {
    forall d, m, e: Event<R>
      ensures StepIsMarked(c, lim, ok, d, m, e)
    {
      assert Bounds(ok, lim, LineOf(c, e.record));
      StepMarked(c, lim, ok, d, m, e);
    }
    RunMarkedBy(c, lim, ok, events);
  }

  /** Whatever crashes: the current file is below the limit without as many records as it has marks, every backup
      without one more. */
  lemma RunMarked<R(!new)>(c: Codec<R>, lim: Limits, events: seq<Event<R>>)
    requires Lawful(c) && lim.Valid()
    ensures var d, m := After(c, lim, EMPTY_DISK, events), MarksAfter(c, lim, events);
            && 0 in d && 0 in m && OverBy(c, lim, d[0], m[0])
            && forall k :: 1 <= k <= lim.backups && k in d ==> k in m && OverBy(c, lim, d[k], m[k] + 1)
  {
    forall r: R
      ensures Bounds(Over(c, lim), lim, LineOf(c, r))
    {
      OverBounds(c, lim, r);
    }
    OverByWeakens(c, lim, [], 0, 0);
    RunMarkedIf(c, lim, Over(c, lim), events);
  }

  // ---- Exactly the unmarked files keep the bound of one record ----

  /** After text that ends in a newline a last line that starts within the text holds a newline itself. */
  lemma LastLineIsLast(file: Bytes, line: Bytes, before: Bytes, text: Bytes)
    requires Terminated(file) && line != [] && file + line == before + (text + [NL])
    ensures |before| < |file| ==> NL in text
  {
    if |before| < |file| {
      var at := |file| - 1 - |before|;
      assert (file + line)[|file| - 1] == NL;
      assert (before + (text + [NL]))[|file| - 1] == (text + [NL])[at];
      assert text[at] == NL;
    }
  }

  lemma OneLineOverExactly<R(!new)>(c: Codec<R>, lim: Limits, file: Bytes, r: R)
    requires Lawful(c) && Terminated(file)
    ensures OneLineOver(c, lim, file + LineOf(c, r)) <==> |file| < lim.maxBytes
  {
    forall before: Bytes, last: R | file + LineOf(c, r) == before + LineOf(c, last)
      ensures |before| >= |file|
    {
      LineReads(c, last);
      LastLineIsLast(file, LineOf(c, r), before, c.encode(last));
    }
  }

  ghost function Exact<R(!new)>(c: Codec<R>, lim: Limits): (Place, Bytes, nat) -> bool {
    (place: Place, file: Bytes, j: nat) =>
      (j == 0 <==> if place.Current? then |file| < lim.maxBytes else OneLineOver(c, lim, file))
  }

  lemma ExactBounds<R(!new)>(c: Codec<R>, lim: Limits, r: R)
    requires Lawful(c) && lim.Valid()
    ensures Bounds(Exact(c, lim), lim, LineOf(c, r))
  {
    LineReads(c, r);
    OneLine(c.encode(r));
    forall file, j
      ensures Grows(Exact(c, lim), lim, LineOf(c, r), file, j)
    {
      if Terminated(file) {
        OneLineOverExactly(c, lim, file, r);
      }
    }
  }

  /** In every run, crashes or not: the current file is below the limit exactly when it has no marks, and a backup is
      below it without its last record exactly when it has none. */
  lemma RunExactly<R(!new)>(c: Codec<R>, lim: Limits, events: seq<Event<R>>)
    requires Lawful(c) && lim.Valid()
    ensures var d, m := After(c, lim, EMPTY_DISK, events), MarksAfter(c, lim, events);
            && 0 in d && 0 in m && (|d[0]| < lim.maxBytes <==> m[0] == 0)
            && forall k :: 1 <= k <= lim.backups && k in d ==> k in m && (OneLineOver(c, lim, d[k]) <==> m[k] == 0)
  {
    forall r: R
      ensures Bounds(Exact(c, lim), lim, LineOf(c, r))
    {
      ExactBounds(c, lim, r);
    }
    RunMarkedIf(c, lim, Exact(c, lim), events);
  }

  ghost predicate NoMarks(m: Marks) {
    forall k :: k in m ==> m[k] == 0
  }

  lemma ShiftKeepsNoMarks(m: Marks, n: nat, steps: nat)
    requires NoMarks(m) && 1 <= steps <= n + 1
    ensures NoMarks(Shifted(m, n, steps))
  {
    forall k | k in Shifted(m, n, steps)
      ensures Shifted(m, n, steps)[k] == 0
    {
      ShiftedFile(m, n, steps, k);
      assert File(Shifted(m, n, steps), k).Some?;
    }
  }

  /** Without crashes there are no marks, and the bound is RunSized's. */
  lemma {:induction false} CrashFreeNoMarks<R>(c: Codec<R>, lim: Limits, events: seq<Event<R>>)
    requires lim.Valid() && CrashFree(events)
    ensures NoMarks(MarksAfter(c, lim, events))
  {
    if events != [] {
      CrashFreeNoMarks(c, lim, events[..|events| - 1]);
      ShiftKeepsNoMarks(MarksAfter(c, lim, events[..|events| - 1]), lim.backups, lim.backups + 1);
    }
  }

  // ---- The bound without marks fails ----

  /** A crash before the rotation that a write set off, then one more write. */
  function Overrun<R>(r: R): seq<Event<R>> {
    [CrashInRotation(r, 0), Put(r)]
  }

  lemma FirstOverrun<R(!new)>(c: Codec<R>, lim: Limits, r: R)
    requires Lawful(c) && lim.Valid()
    ensures Step(c, lim, EMPTY_DISK, CrashInRotation(r, 0)) == EMPTY_DISK[0 := LineOf(c, r)]
  {
    LineReads(c, r);
    OneLine(c.encode(r));
    CrashAtOnce(c, lim, EMPTY_DISK, r);
    ConcatEmpty(LineOf(c, r));
  }

  lemma CrashAtOnce<R>(c: Codec<R>, lim: Limits, d: Disk, r: R)
    requires lim.Valid() && Terminated(LineOf(c, r)) && 0 in d
    ensures Step(c, lim, d, CrashInRotation(r, 0)) == Appended(d, LineOf(c, r))
  {
    LineTerminates(d[0], LineOf(c, r));
    WholeFileOpens(c, Appended(d, LineOf(c, r)));
  }

  lemma SecondOverrun<R(!new)>(c: Codec<R>, lim: Limits, r: R, d: Disk)
    requires lim.Valid() && |LineOf(c, r)| >= lim.maxBytes && d == EMPTY_DISK[0 := LineOf(c, r)]
    ensures File(Step(c, lim, d, Put(r)), 1) == Some(LineOf(c, r) + LineOf(c, r))
  {
    ShiftedFile(Appended(d, LineOf(c, r)), lim.backups, lim.backups + 1, 1);
  }

  lemma OverrunFile<R(!new)>(c: Codec<R>, lim: Limits, r: R)
    requires Lawful(c) && lim.Valid() && |LineOf(c, r)| >= lim.maxBytes
    ensures File(After(c, lim, EMPTY_DISK, Overrun(r)), 1) == Some(LineOf(c, r) + LineOf(c, r))
  {
    FirstOverrun(c, lim, r);
    SecondOverrun(c, lim, r, EMPTY_DISK[0 := LineOf(c, r)]);
    TwoEvents(c, lim, CrashInRotation(r, 0), Put(r));
  }

  lemma TwoEvents<R>(c: Codec<R>, lim: Limits, a: Event<R>, b: Event<R>)
    ensures After(c, lim, EMPTY_DISK, [a, b]) == Step(c, lim, Step(c, lim, EMPTY_DISK, a), b)
  {
    assert [a, b][..1] == [a] && [a][..0] == [];
    assert After(c, lim, EMPTY_DISK, [a]) == Step(c, lim, EMPTY_DISK, a);
  }

  /** So a run with a crash can leave a backup that is not below the limit without its last record. */
  lemma CrashOverruns<R(!new)>(c: Codec<R>, lim: Limits, r: R)
    requires Lawful(c) && lim.Valid() && |LineOf(c, r)| >= lim.maxBytes
    ensures var d := After(c, lim, EMPTY_DISK, Overrun(r)); 1 in d && !OneLineOver(c, lim, d[1])
  {
    OverrunFile(c, lim, r);
    LineReads(c, r);
    OneLine(c.encode(r));
    OneLineOverExactly(c, lim, LineOf(c, r), r);
  }
}
