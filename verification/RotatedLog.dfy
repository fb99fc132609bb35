/** Rotation of the telemetry log over a directory of files, crashes included (telemetry/jsonl.py,
    evaluation/reader.py). File 0 is the current log; file k is its k-th backup. */
module RotatedLog {
  import opened Common
  import opened Jsonl

  type Disk = map<nat, Bytes>

  datatype Limits = Limits(maxBytes: nat, backups: nat) {
    predicate Valid() {
      maxBytes >= 1 && backups >= 1
    }
  }

  function File<T>(d: map<nat, T>, k: nat): Option<T> {
    if k in d then Some(d[k]) else None
  }

  // ---- Reading all files, oldest first ----

  function RecordsIn<R>(c: Codec<R>, file: Option<Bytes>): seq<R> {
    if file.None? then [] else Read(c, file.value).records
  }

  function FaultsIn<R>(c: Codec<R>, file: Option<Bytes>): nat {
    if file.None? then 0 else Read(c, file.value).malformed
  }

  predicate TornIn<R>(c: Codec<R>, file: Option<Bytes>) {
    file.Some? && Read(c, file.value).skippedTrailing
  }

  /** What files k, k-1, ..., 0 hold, in that order. */
  function Joined<R>(hold: Option<Bytes> -> seq<R>, d: Disk, k: nat): seq<R> {
    hold(File(d, k)) + if k == 0 then [] else Joined(hold, d, k - 1)
  }

  function Sum(count: Option<Bytes> -> nat, d: Disk, k: nat): nat {
    count(File(d, k)) + if k == 0 then 0 else Sum(count, d, k - 1)
  }

  function Reader<R>(c: Codec<R>): Option<Bytes> -> seq<R> {
    (file: Option<Bytes>) => RecordsIn(c, file)
  }

  function Damage<R>(c: Codec<R>): Option<Bytes> -> nat {
    (file: Option<Bytes>) => FaultsIn(c, file)
  }

  /** The records of all files up to the k-th backup, oldest first. */
  function OldestFirst<R>(c: Codec<R>, d: Disk, k: nat): seq<R> {
    Joined(Reader(c), d, k)
  }

  function Faults<R>(c: Codec<R>, d: Disk, k: nat): nat {
    Sum(Damage(c), d, k)
  }

  /** How many lines of a file are not blank, a torn tail apart. */
  function InkedIn<R>(c: Codec<R>, file: Option<Bytes>): nat {
    if file.None? then 0 else |Inked(CountedLines(c, file.value))|
  }

  function Ink<R>(c: Codec<R>): Option<Bytes> -> nat {
    (file: Option<Bytes>) => InkedIn(c, file)
  }

  lemma {:induction false} SumsAdd<R>(hold: Option<Bytes> -> seq<R>, count: Option<Bytes> -> nat,
                                      all: Option<Bytes> -> nat, d: Disk, k: nat)
    requires forall f :: |hold(f)| + count(f) == all(f)
    ensures |Joined(hold, d, k)| + Sum(count, d, k) == Sum(all, d, k)
  {
    assert |hold(File(d, k))| + count(File(d, k)) == all(File(d, k));
    if k > 0 {
      SumsAdd(hold, count, all, d, k - 1);
    }
  }

  lemma {:induction false} SumIsZero(count: Option<Bytes> -> nat, d: Disk, k: nat)
    ensures Sum(count, d, k) == 0 <==> forall j: nat :: j <= k ==> count(File(d, j)) == 0
  {
    if k > 0 {
      SumIsZero(count, d, k - 1);
    }
  }

  ghost predicate Healthy<R>(c: Codec<R>, file: Bytes) {
    forall line :: line in Inked(CountedLines(c, file)) ==> Loads(c, line)
  }

  /** Over all files, whatever they hold: records and damage together are the lines that are not blank, and there is no
      damage exactly when each of these lines loads as an object. */
  lemma LogIsCounted<R>(c: Codec<R>, d: Disk, k: nat)
    ensures |OldestFirst(c, d, k)| + Faults(c, d, k) == Sum(Ink(c), d, k)
    ensures Faults(c, d, k) == 0 <==> forall j: nat :: j <= k && j in d ==> Healthy(c, d[j])
  {
    forall f
      ensures |Reader(c)(f)| + Damage(c)(f) == Ink(c)(f)
      ensures Damage(c)(f) == 0 <==> f.None? || Healthy(c, f.value)
    {
      if f.Some? {
        DamageIsCounted(c, f.value);
      }
    }
    SumsAdd(Reader(c), Damage(c), Ink(c), d, k);
    SumIsZero(Damage(c), d, k);
    forall j: nat
      ensures Damage(c)(File(d, j)) == 0 <==> (j in d ==> Healthy(c, d[j]))
    {
    }
  }

  // ---- Rotation, one file operation at a time ----

  function Move<T>(d: map<nat, T>, k: nat): map<nat, T> {
    if k in d then (d - {k})[k + 1 := d[k]] else d
  }

  /** The i-th file operation of a rotation: first the oldest backup goes, then every file moves up, oldest first. */
  function FileStep<T>(d: map<nat, T>, n: nat, i: nat): map<nat, T>
    requires i <= n
  {
    if i == 0 then d - {n} else Move(d, n - i)
  }

  function Shifted<T>(d: map<nat, T>, n: nat, steps: nat): map<nat, T>
    requires steps <= n + 1
  {
    if steps == 0 then d else FileStep(Shifted(d, n, steps - 1), n, steps - 1)
  }

  /** What is where after any number of those operations: one slot is free, the files above it have moved up. */
  lemma {:induction false} ShiftedFile<T>(d: map<nat, T>, n: nat, steps: nat, k: nat)
    requires 1 <= steps <= n + 1
    ensures File(Shifted(d, n, steps), k)
            == if k > n || k < n + 1 - steps then File(d, k)
               else if k == n + 1 - steps then None
               else File(d, k - 1)
  {
    if steps > 1 {
      ShiftedFile(d, n, steps - 1, k);
      ShiftedFile(d, n, steps - 1, n + 1 - steps);
    }
  }

  function Created(d: Disk): Disk {
    if 0 in d then d else d[0 := []]
  }

  function Appended(d: Disk, text: Bytes): Disk {
    d[0 := (if 0 in d then d[0] else []) + text]
  }

  predicate Full(d: Disk, lim: Limits) {
    0 in d && |d[0]| >= lim.maxBytes
  }

  /** Opening the log in a directory left behind: the current file is repaired, or created. */
  function Opened<R>(c: Codec<R>, d: Disk): Disk {
    Created(if 0 in d then d[0 := Repaired(c, d[0])] else d)
  }

  // ---- What can happen to the directory ----

  /** A completed write; a crash after `cut` bytes of a record's line reached the file; a crash after a completed write
      and `steps` file operations of the rotation it set off. After a crash the log is opened again. */
  datatype Event<R> =
    | Put(record: R)
    | CrashInWrite(record: R, cut: nat)
    | CrashInRotation(record: R, steps: nat)

  /** The part of a record's line that reached the file. */
  function Written<R>(c: Codec<R>, r: R, cut: nat): Bytes {
    LineOf(c, r)[..Min(cut, |LineOf(c, r)|)]
  }

  function Step<R>(c: Codec<R>, lim: Limits, d: Disk, e: Event<R>): Disk {
    match e
    case Put(r) =>
      var w := Appended(d, LineOf(c, r));
      if Full(w, lim) then Created(Shifted(w, lim.backups, lim.backups + 1)) else w
    case CrashInWrite(r, cut) =>
      Opened(c, Appended(d, Written(c, r, cut)))
    case CrashInRotation(r, steps) =>
      var w := Appended(d, LineOf(c, r));
      Opened(c, if Full(w, lim) then Shifted(w, lim.backups, Min(steps, lim.backups + 1)) else w)
  }

  /** The record of an event whose whole text reached the file. */
  function Survived<R>(c: Codec<R>, e: Event<R>): seq<R> {
    if e.CrashInWrite? && e.cut < |c.encode(e.record)| then [] else [e.record]
  }

  predicate Shifts<R>(c: Codec<R>, lim: Limits, d: Disk, e: Event<R>) {
    && !e.CrashInWrite?
    && Full(Appended(d, LineOf(c, e.record)), lim)
    && (e.CrashInRotation? ==> e.steps > 0)
  }

  /** How many records an event removes: those of the oldest backup, when files were shifted. */
  function Dropped<R>(c: Codec<R>, lim: Limits, d: Disk, e: Event<R>): nat {
    if Shifts(c, lim, d, e) then |RecordsIn(c, File(d, lim.backups))| else 0
  }

  function After<R>(c: Codec<R>, lim: Limits, d: Disk, events: seq<Event<R>>): Disk {
    if events == [] then d else Step(c, lim, After(c, lim, d, events[..|events| - 1]), Last(events))
  }

  function History<R>(c: Codec<R>, events: seq<Event<R>>): seq<R> {
    if events == [] then [] else History(c, events[..|events| - 1]) + Survived(c, Last(events))
  }

  function Lost<R>(c: Codec<R>, lim: Limits, d: Disk, events: seq<Event<R>>): nat {
    if events == [] then 0
    else
      var before := events[..|events| - 1];
      Lost(c, lim, d, before) + Dropped(c, lim, After(c, lim, d, before), Last(events))
  }

  /** The current file exists and ends in a newline: what opening establishes and every event keeps. */
  predicate Ready(d: Disk) {
    0 in d && Terminated(d[0])
  }

  // ---- Proofs ----

  /** Reading depends on the files only. */
  lemma {:induction false} SameFiles<R>(hold: Option<Bytes> -> seq<R>, count: Option<Bytes> -> nat, d: Disk, e: Disk,
                                        k: nat)
    requires forall j: nat :: j <= k ==> File(d, j) == File(e, j)
    ensures Joined(hold, d, k) == Joined(hold, e, k) && Sum(count, d, k) == Sum(count, e, k)
  {
    if k > 0 {
      SameFiles(hold, count, d, e, k - 1);
    }
  }

  lemma {:induction false} ShiftedUpTo<R>(hold: Option<Bytes> -> seq<R>, count: Option<Bytes> -> nat, d: Disk, n: nat,
                                          steps: nat, k: nat)
    requires 1 <= steps <= n + 1 && n + 1 - steps <= k <= n
    requires hold(None) == [] && count(None) == 0
    ensures Joined(hold, Shifted(d, n, steps), k) == if k == 0 then [] else Joined(hold, d, k - 1)
    ensures Sum(count, Shifted(d, n, steps), k) == if k == 0 then 0 else Sum(count, d, k - 1)
    decreases k
  {
    var s := Shifted(d, n, steps);
    ShiftedFile(d, n, steps, k);
    if k == n + 1 - steps {
      if k > 0 {
        ShiftedBelow(hold, count, d, n, steps);
      }
    } else {
      ShiftedUpTo(hold, count, d, n, steps, k - 1);
    }
  }

  lemma ShiftedBelow<R>(hold: Option<Bytes> -> seq<R>, count: Option<Bytes> -> nat, d: Disk, n: nat, steps: nat)
    requires 1 <= steps <= n
    ensures Joined(hold, Shifted(d, n, steps), n - steps) == Joined(hold, d, n - steps)
    ensures Sum(count, Shifted(d, n, steps), n - steps) == Sum(count, d, n - steps)
  {
    forall j: nat | j <= n - steps
      ensures File(Shifted(d, n, steps), j) == File(d, j)
    {
      ShiftedFile(d, n, steps, j);
    }
    SameFiles(hold, count, Shifted(d, n, steps), d, n - steps);
  }

  /** However far a rotation gets, reading afterwards gives everything but the oldest backup, in the same order. */
  lemma ShiftDropsOldest<R>(c: Codec<R>, d: Disk, n: nat, steps: nat)
    requires n >= 1 && 1 <= steps <= n + 1
    ensures OldestFirst(c, d, n) == RecordsIn(c, File(d, n)) + OldestFirst(c, Shifted(d, n, steps), n)
    ensures Faults(c, d, n) == FaultsIn(c, File(d, n)) + Faults(c, Shifted(d, n, steps), n)
  {
    ShiftedUpTo(Reader(c), Damage(c), d, n, steps, n);
  }

  lemma {:induction false} CurrentIsLastIn<R>(hold: Option<Bytes> -> seq<R>, count: Option<Bytes> -> nat, d: Disk,
                                              e: Disk, more: seq<R>, k: nat)
    requires hold(File(e, 0)) == hold(File(d, 0)) + more && count(File(e, 0)) == count(File(d, 0))
    requires forall j: nat :: 0 < j <= k ==> File(e, j) == File(d, j)
    ensures Joined(hold, e, k) == Joined(hold, d, k) + more && Sum(count, e, k) == Sum(count, d, k)
  {
    if k == 0 {
      ConcatEmpty(hold(File(d, 0)));
      ConcatEmpty(hold(File(d, 0)) + more);
    } else {
      CurrentIsLastIn(hold, count, d, e, more, k - 1);
      ConcatAssoc(hold(File(d, k)), Joined(hold, d, k - 1), more);
    }
  }

  /** Changing file 0 changes the end of what is read. */
  lemma CurrentIsLast<R>(c: Codec<R>, d: Disk, e: Disk, more: seq<R>, k: nat)
    requires RecordsIn(c, File(e, 0)) == RecordsIn(c, File(d, 0)) + more
    requires FaultsIn(c, File(e, 0)) == FaultsIn(c, File(d, 0))
    requires forall j: nat :: 0 < j <= k ==> File(e, j) == File(d, j)
    ensures OldestFirst(c, e, k) == OldestFirst(c, d, k) + more
    ensures Faults(c, e, k) == Faults(c, d, k)
  {
    CurrentIsLastIn(Reader(c), Damage(c), d, e, more, k);
  }

  lemma OpenedReads<R>(c: Codec<R>, d: Disk, n: nat)
    ensures Ready(Opened(c, d))
    ensures OldestFirst(c, Opened(c, d), n) == OldestFirst(c, d, n)
    ensures Faults(c, Opened(c, d), n) == Faults(c, d, n)
  {
    ReadTerminated(c, []);
    if 0 in d {
      RepairIdempotent(c, d[0]);
      RepairPreserves(c, d[0]);
    }
    ConcatEmpty(RecordsIn(c, File(d, 0)));
    CurrentIsLast(c, d, Opened(c, d), [], n);
    ConcatEmpty(OldestFirst(c, d, n));
  }

  lemma AppendedReads<R(!new)>(c: Codec<R>, d: Disk, r: R, n: nat)
    requires Lawful(c) && Ready(d)
    ensures Ready(Appended(d, LineOf(c, r)))
    ensures OldestFirst(c, Appended(d, LineOf(c, r)), n) == OldestFirst(c, d, n) + [r]
    ensures Faults(c, Appended(d, LineOf(c, r)), n) == Faults(c, d, n)
  {
    AppendReads(c, d[0], r);
    CurrentIsLast(c, d, Appended(d, LineOf(c, r)), [r], n);
  }

  lemma TornReads<R(!new)>(c: Codec<R>, d: Disk, r: R, cut: nat, n: nat)
    requires Lawful(c) && Ready(d)
    ensures var torn := Appended(d, Written(c, r, cut));
            && OldestFirst(c, torn, n) == OldestFirst(c, d, n) + Survived(c, CrashInWrite(r, cut))
            && Faults(c, torn, n) == Faults(c, d, n)
  {
    var text := Written(c, r, cut);
    TornLineReads(c, r, cut);
    TornFileReads(c, d[0], text, Survived(c, CrashInWrite(r, cut)));
    CurrentIsLast(c, d, Appended(d, text), Survived(c, CrashInWrite(r, cut)), n);
  }

  lemma TornFileReads<R>(c: Codec<R>, file: Bytes, text: Bytes, records: seq<R>)
    requires Terminated(file) && Read(c, text).records == records && Read(c, text).malformed == 0
    ensures Read(c, file + text).records == Read(c, file).records + records
    ensures Read(c, file + text).malformed == Read(c, file).malformed
  {
    ReadAfterLines(c, file, text);
    ReadTerminated(c, file);
  }

  lemma TornLineReads<R(!new)>(c: Codec<R>, r: R, cut: nat)
    requires Lawful(c)
    ensures Read(c, Written(c, r, cut)).records == Survived(c, CrashInWrite(r, cut))
    ensures Read(c, Written(c, r, cut)).malformed == 0
  {
    var one := [r];
    assert one[1..] == [];
    assert LineOf(c, r) + [] == LineOf(c, r);
    assert Encoded(c, one) == LineOf(c, r);
    CutReads(c, one, Min(cut, |LineOf(c, r)|));
    assert one[..1] == one;
  }

  /** What one event does to a reader's view: `after` shows the old records and `more`, without the first `lost`. */
  ghost predicate Reads<R>(c: Codec<R>, n: nat, d: Disk, more: seq<R>, lost: nat, after: Disk) {
    ReadsBy(Reader(c), Damage(c), n, d, more, lost, after)
  }

  ghost predicate ReadsBy<R>(hold: Option<Bytes> -> seq<R>, count: Option<Bytes> -> nat, n: nat, d: Disk, more: seq<R>,
                             lost: nat, after: Disk)
  {
    && Ready(after)
    && lost <= |Joined(hold, d, n) + more|
    && Joined(hold, after, n) == (Joined(hold, d, n) + more)[lost..]
    && Sum(count, after, n) <= Sum(count, d, n)
  }

  lemma CrashStepReads<R(!new)>(c: Codec<R>, d: Disk, r: R, cut: nat, n: nat)
    requires Lawful(c) && Ready(d)
    ensures Reads(c, n, d, Survived(c, CrashInWrite(r, cut)), 0, Opened(c, Appended(d, Written(c, r, cut))))
  {
    TornReads(c, d, r, cut, n);
    OpenedReads(c, Appended(d, Written(c, r, cut)), n);
  }

  lemma WriteStepReads<R(!new)>(c: Codec<R>, d: Disk, r: R, n: nat)
    requires Lawful(c) && Ready(d)
    ensures Reads(c, n, d, [r], 0, Appended(d, LineOf(c, r)))
    ensures Reads(c, n, d, [r], 0, Opened(c, Appended(d, LineOf(c, r))))
  {
    AppendedReads(c, d, r, n);
    OpenedReads(c, Appended(d, LineOf(c, r)), n);
  }

  lemma RotateStepReads<R(!new)>(c: Codec<R>, d: Disk, r: R, n: nat, steps: nat)
    requires Lawful(c) && Ready(d) && n >= 1 && steps <= n + 1
    ensures var s := Shifted(Appended(d, LineOf(c, r)), n, steps);
            && (steps == n + 1 ==> Opened(c, s) == Created(s))
            && Reads(c, n, d, [r], if steps == 0 then 0 else |RecordsIn(c, File(d, n))|, Opened(c, s))
  {
    var w := Appended(d, LineOf(c, r));
    AppendedReads(c, d, r, n);
    assert File(w, n) == File(d, n);
    ShiftReads(c, w, n, steps);
  }

  /** Each event, crash or not: the reader then gets what it got before plus the record that survived, minus at most the
      whole oldest backup; damage never appears. */
  lemma StepReads<R(!new)>(c: Codec<R>, lim: Limits, d: Disk, e: Event<R>)
    requires Lawful(c) && lim.Valid() && Ready(d)
    ensures Reads(c, lim.backups, d, Survived(c, e), Dropped(c, lim, d, e), Step(c, lim, d, e))
  {
    var n := lim.backups;
    if e.CrashInWrite? {
      CrashStepReads(c, d, e.record, e.cut, n);
    } else if !Full(Appended(d, LineOf(c, e.record)), lim) {
      WriteStepReads(c, d, e.record, n);
    } else {
      FullStepReads(c, lim, d, e);
    }
  }

  lemma FullStepReads<R(!new)>(c: Codec<R>, lim: Limits, d: Disk, e: Event<R>)
    requires Lawful(c) && lim.Valid() && Ready(d)
    requires !e.CrashInWrite? && Full(Appended(d, LineOf(c, e.record)), lim)
    ensures Reads(c, lim.backups, d, Survived(c, e), Dropped(c, lim, d, e), Step(c, lim, d, e))
  {
    FullStep(c, lim, d, e);
    RotateStepReads(c, d, e.record, lim.backups, StepsOf(lim, e));
  }

  function StepsOf<R>(lim: Limits, e: Event<R>): nat
    ensures StepsOf(lim, e) <= lim.backups + 1
  {
    if e.CrashInRotation? then Min(e.steps, lim.backups + 1) else lim.backups + 1
  }

  lemma FullStep<R>(c: Codec<R>, lim: Limits, d: Disk, e: Event<R>)
    requires !e.CrashInWrite? && Full(Appended(d, LineOf(c, e.record)), lim)
    ensures var s := Shifted(Appended(d, LineOf(c, e.record)), lim.backups, StepsOf(lim, e));
            Step(c, lim, d, e) == if e.Put? then Created(s) else Opened(c, s)
    ensures Survived(c, e) == [e.record]
    ensures Dropped(c, lim, d, e)
            == if StepsOf(lim, e) == 0 then 0 else |RecordsIn(c, File(d, lim.backups))|
  {
  }

  lemma ShiftReads<R>(c: Codec<R>, w: Disk, n: nat, steps: nat)
    requires n >= 1 && steps <= n + 1
    ensures Ready(Opened(c, Shifted(w, n, steps)))
    ensures steps == n + 1 ==> Opened(c, Shifted(w, n, steps)) == Created(Shifted(w, n, steps))
    ensures var lost := if steps == 0 then 0 else |RecordsIn(c, File(w, n))|;
            && lost <= |OldestFirst(c, w, n)|
            && OldestFirst(c, Opened(c, Shifted(w, n, steps)), n) == OldestFirst(c, w, n)[lost..]
    ensures Faults(c, Opened(c, Shifted(w, n, steps)), n) <= Faults(c, w, n)
  {
    OpenedReads(c, Shifted(w, n, steps), n);
    if steps > 0 {
      ShiftDropsOldest(c, w, n, steps);
      ShiftedFile(w, n, steps, 0);
    }
  }

  /** A step as a reader sees it. */
  ghost predicate StepIsRead<R>(c: Codec<R>, lim: Limits, hold: Option<Bytes> -> seq<R>, count: Option<Bytes> -> nat,
                                d: Disk, e: Event<R>)
  {
    ReadsBy(hold, count, lim.backups, d, Survived(c, e), Dropped(c, lim, d, e), Step(c, lim, d, e))
  }

  ghost predicate StepsAreRead<R(!new)>(c: Codec<R>, lim: Limits, hold: Option<Bytes> -> seq<R>,
                                        count: Option<Bytes> -> nat)
  {
    forall d, e :: Ready(d) ==> StepIsRead(c, lim, hold, count, d, e)
  }

  lemma {:induction false} RunReadsBy<R(!new)>(c: Codec<R>, lim: Limits, hold: Option<Bytes> -> seq<R>,
                                               count: Option<Bytes> -> nat, d: Disk, events: seq<Event<R>>)
    requires Ready(d) && StepsAreRead(c, lim, hold, count)
    ensures ReadsBy(hold, count, lim.backups, d, History(c, events), Lost(c, lim, d, events), After(c, lim, d, events))
  {
    if events == [] {
      ConcatEmpty(Joined(hold, d, lim.backups));
    } else {
      var before := events[..|events| - 1];
      var e := Last(events);
      var mid := After(c, lim, d, before);
      RunReadsBy(c, lim, hold, count, d, before);
      ReadsOn(c, lim, hold, count, d, mid, e, History(c, before), Lost(c, lim, d, before));
    }
  }

  lemma ReadsOn<R(!new)>(c: Codec<R>, lim: Limits, hold: Option<Bytes> -> seq<R>, count: Option<Bytes> -> nat, d: Disk,
                         mid: Disk, e: Event<R>, history: seq<R>, lost: nat)
    requires StepsAreRead(c, lim, hold, count)
    requires ReadsBy(hold, count, lim.backups, d, history, lost, mid)
    ensures ReadsBy(hold, count, lim.backups, d, history + Survived(c, e), lost + Dropped(c, lim, mid, e),
                    Step(c, lim, mid, e))
  {
    assert StepIsRead(c, lim, hold, count, mid, e);
    ReadsCompose(hold, count, lim.backups, d, mid, Step(c, lim, mid, e), history, Survived(c, e), lost,
                 Dropped(c, lim, mid, e));
  }

  /** Over any run of writes and crashes the readable records are a contiguous suffix of what was readable at the start
      followed by every record that survived; only records of dropped oldest files are missing. */
  lemma RunReads<R(!new)>(c: Codec<R>, lim: Limits, d: Disk, events: seq<Event<R>>)
    requires Lawful(c) && lim.Valid() && Ready(d)
    ensures Reads(c, lim.backups, d, History(c, events), Lost(c, lim, d, events), After(c, lim, d, events))
  {
    forall at, e | Ready(at)
      ensures StepIsRead(c, lim, Reader(c), Damage(c), at, e)
    {
      StepReads(c, lim, at, e);
    }
    RunReadsBy(c, lim, Reader(c), Damage(c), d, events);
  }

  lemma ReadsCompose<R>(hold: Option<Bytes> -> seq<R>, count: Option<Bytes> -> nat, n: nat, d: Disk, mid: Disk,
                        after: Disk, a: seq<R>, b: seq<R>, first: nat, second: nat)
    requires ReadsBy(hold, count, n, d, a, first, mid) && ReadsBy(hold, count, n, mid, b, second, after)
    ensures ReadsBy(hold, count, n, d, a + b, first + second, after)
  {
    DropTwice(Joined(hold, d, n), a, b, first, second);
  }

  lemma DropTwice<T>(a: seq<T>, b: seq<T>, more: seq<T>, first: nat, second: nat)
    requires first <= |a + b| && second <= |(a + b)[first..] + more|
    ensures first + second <= |a + (b + more)|
    ensures ((a + b)[first..] + more)[second..] == (a + (b + more))[first + second..]
  {
    ConcatAssoc(a, b, more);
  }
}
