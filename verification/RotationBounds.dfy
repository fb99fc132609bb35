/** How large the rotated files are, and how much of the log outlives what rotation drops. */
module RotationBounds {
  import opened Common
  import opened Jsonl
  import opened RotatedLog

  const EMPTY_DISK: Disk := map[0 := []]

  // ---- Size of every file, in runs without crashes ----

  /** Shorter than the limit without its last record. */
  ghost predicate OneLineOver<R(!new)>(c: Codec<R>, lim: Limits, file: Bytes) {
    exists before: Bytes, r: R :: file == before + LineOf(c, r) && |before| < lim.maxBytes
  }

  ghost predicate Sized<R(!new)>(c: Codec<R>, lim: Limits, d: Disk) {
    && 0 in d && |d[0]| < lim.maxBytes
    && forall k :: 1 <= k <= lim.backups && k in d ==> OneLineOver(c, lim, d[k])
  }

  lemma PutSized<R(!new)>(c: Codec<R>, lim: Limits, d: Disk, r: R)
    requires lim.Valid() && Sized(c, lim, d)
    ensures Sized(c, lim, Step(c, lim, d, Put(r)))
  {
    var w := Appended(d, LineOf(c, r));
    if Full(w, lim) {
      var n := lim.backups;
      var s := Shifted(w, n, n + 1);
      ShiftedFile(w, n, n + 1, 0);
      assert 0 in w;
      forall k | 1 <= k <= n && k in s
        ensures OneLineOver(c, lim, s[k])
      {
        ShiftedFile(w, n, n + 1, k);
        assert File(s, k) == File(w, k - 1);
        assert k - 1 in w && s[k] == w[k - 1];
        if k == 1 {
          assert s[k] == d[0] + LineOf(c, r);
        }
      }
    }
  }

  predicate CrashFree<R>(events: seq<Event<R>>) {
    forall i :: 0 <= i < |events| ==> events[i].Put?
  }

  /** Without crashes every file stays shorter than the limit plus its last record, the current one below the limit. */
  lemma {:induction false} RunSized<R(!new)>(c: Codec<R>, lim: Limits, events: seq<Event<R>>)
    requires lim.Valid() && CrashFree(events)
    ensures Sized(c, lim, After(c, lim, EMPTY_DISK, events))
  {
    if events != [] {
      RunSized(c, lim, events[..|events| - 1]);
      PutSized(c, lim, After(c, lim, EMPTY_DISK, events[..|events| - 1]), Last(events).record);
    }
  }

  // ---- What remains once something has been dropped ----

  /** How many of the backups 1..k do not exist. */
  function Missing(d: Disk, k: nat): nat {
    if k == 0 then 0 else Missing(d, k - 1) + if k in d then 0 else 1
  }

  function BackupBytes(d: Disk, k: nat): nat {
    if k == 0 then 0 else BackupBytes(d, k - 1) + if k in d then |d[k]| else 0
  }

  function Interruptions<R>(events: seq<Event<R>>): nat {
    if events == [] then 0
    else Interruptions(events[..|events| - 1]) + if Last(events).CrashInRotation? then 1 else 0
  }

  predicate BackupsFull(d: Disk, lim: Limits) {
    forall k :: 1 <= k <= lim.backups && k in d ==> |d[k]| >= lim.maxBytes
  }

  /** A rotation opens at most one hole among the backups, and none when it completes. */
  lemma {:induction false} MissingShifted(d: Disk, n: nat, steps: nat, k: nat)
    requires 0 in d && 1 <= steps <= n + 1 && k <= n
    ensures Missing(Shifted(d, n, steps), k)
            == if k < n + 1 - steps || k == 0 then Missing(d, k)
               else Missing(d, k - 1) + if steps <= n then 1 else 0
  {
    if k > 0 {
      MissingShifted(d, n, steps, k - 1);
      ShiftedFile(d, n, steps, k);
      assert k in Shifted(d, n, steps) <==> File(Shifted(d, n, steps), k).Some?;
      assert k - 1 in d <==> File(d, k - 1).Some?;
    }
  }

  lemma {:induction false} SameMissing(d: Disk, e: Disk, k: nat)
    requires forall j :: 1 <= j <= k ==> (j in d <==> j in e)
    ensures Missing(d, k) == Missing(e, k)
  {
    if k > 0 {
      SameMissing(d, e, k - 1);
    }
  }

  /** Holes are accounted for: at most `cuts` below any existing backup, and at most `cuts` overall after a loss. */
  ghost predicate FewHoles(d: Disk, n: nat, cuts: nat, lost: bool) {
    && (forall t :: 1 <= t <= n && t in d ==> Missing(d, t) <= cuts)
    && (lost ==> Missing(d, n) <= cuts)
  }

  lemma ShiftKeepsFewHoles(d: Disk, n: nat, steps: nat, cuts: nat, lost: bool)
    requires 0 in d && n >= 1 && 1 <= steps <= n + 1 && FewHoles(d, n, cuts, lost)
    ensures FewHoles(Shifted(d, n, steps), n, cuts + if steps <= n then 1 else 0, lost || n in d)
  {
    var s := Shifted(d, n, steps);
    forall t | 1 <= t <= n && t in s
      ensures Missing(s, t) <= cuts + if steps <= n then 1 else 0
    {
      MissingShifted(d, n, steps, t);
      ShiftedFile(d, n, steps, t);
      assert File(s, t).Some?;
    }
    MissingShifted(d, n, steps, n);
    assert n >= n + 1 - steps;
    assert Missing(d, n) >= Missing(d, n - 1);
  }

  lemma ShiftKeepsFull(d: Disk, lim: Limits, steps: nat)
    requires lim.Valid() && Full(d, lim) && BackupsFull(d, lim) && 1 <= steps <= lim.backups + 1
    ensures BackupsFull(Shifted(d, lim.backups, steps), lim)
  {
    var s := Shifted(d, lim.backups, steps);
    forall k | 1 <= k <= lim.backups && k in s
      ensures |s[k]| >= lim.maxBytes
    {
      ShiftedFile(d, lim.backups, steps, k);
      assert File(s, k).Some?;
    }
  }

  lemma FewHolesCarries(d: Disk, e: Disk, n: nat, cuts: nat, lost: bool)
    requires FewHoles(d, n, cuts, lost)
    requires forall k :: k > 0 ==> File(e, k) == File(d, k)
    ensures FewHoles(e, n, cuts, lost)
  {
    forall k | k > 0
      ensures k in e <==> k in d
    {
      assert File(e, k) == File(d, k);
    }
    forall k | 0 <= k <= n
      ensures Missing(e, k) == Missing(d, k)
    {
      SameMissing(e, d, k);
    }
  }

  lemma FullCarries(d: Disk, e: Disk, lim: Limits)
    requires BackupsFull(d, lim)
    requires forall k :: k > 0 ==> File(e, k) == File(d, k)
    ensures BackupsFull(e, lim)
  {
    forall k | 1 <= k <= lim.backups && k in e
      ensures |e[k]| >= lim.maxBytes
    {
      assert File(e, k) == File(d, k);
    }
  }

  ghost predicate Retains(d: Disk, lim: Limits, cuts: nat, lost: bool) {
    0 in d && BackupsFull(d, lim) && FewHoles(d, lim.backups, cuts, lost)
  }

  lemma SameBackupsRetain(d: Disk, e: Disk, lim: Limits, cuts: nat, lost: bool)
    requires Retains(d, lim, cuts, lost) && 0 in e
    requires forall k :: k > 0 ==> File(e, k) == File(d, k)
    ensures Retains(e, lim, cuts, lost)
  {
    FewHolesCarries(d, e, lim.backups, cuts, lost);
    FullCarries(d, e, lim);
  }

  lemma ShiftRetains(d: Disk, e: Disk, lim: Limits, steps: nat, cuts: nat, lost: bool)
    requires lim.Valid() && Retains(d, lim, cuts, lost) && Full(d, lim) && 1 <= steps <= lim.backups + 1
    requires 0 in e && forall k :: k > 0 ==> File(e, k) == File(Shifted(d, lim.backups, steps), k)
    ensures Retains(e, lim, cuts + if steps <= lim.backups then 1 else 0, lost || lim.backups in d)
  {
    var s := Shifted(d, lim.backups, steps);
    ShiftKeepsFewHoles(d, lim.backups, steps, cuts, lost);
    ShiftKeepsFull(d, lim, steps);
    FewHolesCarries(s, e, lim.backups, cuts + if steps <= lim.backups then 1 else 0, lost || lim.backups in d);
    FullCarries(s, e, lim);
  }

  lemma MoreCuts(d: Disk, lim: Limits, cuts: nat, more: nat, lost: bool, less: bool)
    requires Retains(d, lim, cuts, lost) && more >= cuts && (less ==> lost)
    ensures Retains(d, lim, more, less)
  {
  }

  lemma StepRetains<R>(c: Codec<R>, lim: Limits, d: Disk, e: Event<R>, cuts: nat, lost: bool)
    requires lim.Valid() && Retains(d, lim, cuts, lost)
    ensures Retains(Step(c, lim, d, e), lim, cuts + if e.CrashInRotation? then 1 else 0,
                    lost || Dropped(c, lim, d, e) > 0)
  {
    var after := Step(c, lim, d, e);
    if Shifts(c, lim, d, e) {
      var w := Appended(d, LineOf(c, e.record));
      SameBackupsRetain(d, w, lim, cuts, lost);
      FullStep(c, lim, d, e);
      ShiftRetains(w, after, lim, StepsOf(lim, e), cuts, lost);
      var moved := cuts + if StepsOf(lim, e) <= lim.backups then 1 else 0;
      MoreCuts(after, lim, moved, cuts + if e.CrashInRotation? then 1 else 0, lost || lim.backups in w,
               lost || Dropped(c, lim, d, e) > 0);
    } else {
      SameBackupsRetain(d, after, lim, cuts, lost);
      MoreCuts(after, lim, cuts, cuts + if e.CrashInRotation? then 1 else 0, lost, lost);
    }
  }

  lemma {:induction false} RunRetains<R>(c: Codec<R>, lim: Limits, events: seq<Event<R>>)
    requires lim.Valid()
    ensures Retains(After(c, lim, EMPTY_DISK, events), lim, Interruptions(events), Lost(c, lim, EMPTY_DISK, events) > 0)
  {
    if events != [] {
      var before := events[..|events| - 1];
      RunRetains(c, lim, before);
      StepRetains(c, lim, After(c, lim, EMPTY_DISK, before), Last(events), Interruptions(before),
                  Lost(c, lim, EMPTY_DISK, before) > 0);
    }
  }

  lemma {:induction false} FullBackupsWeigh(d: Disk, lim: Limits, k: nat)
    requires BackupsFull(d, lim) && k <= lim.backups
    ensures BackupBytes(d, k) + Missing(d, k) * lim.maxBytes >= k * lim.maxBytes
  {
    if k > 0 {
      FullBackupsWeigh(d, lim, k - 1);
      var m := Missing(d, k - 1);
      assert (m + 1) * lim.maxBytes == m * lim.maxBytes + lim.maxBytes;
      assert k * lim.maxBytes == (k - 1) * lim.maxBytes + lim.maxBytes;
    }
  }

  /** Once a record has been dropped, the backups hold backups * maxBytes bytes, less one file's worth for every
      rotation a crash interrupted. */
  lemma LossLeavesPlenty<R>(c: Codec<R>, lim: Limits, events: seq<Event<R>>)
    requires lim.Valid() && Lost(c, lim, EMPTY_DISK, events) > 0
    ensures BackupBytes(After(c, lim, EMPTY_DISK, events), lim.backups) + Interruptions(events) * lim.maxBytes
            >= lim.backups * lim.maxBytes
  {
    var d := After(c, lim, EMPTY_DISK, events);
    RunRetains(c, lim, events);
    FullBackupsWeigh(d, lim, lim.backups);
    TimesMonotone(Missing(d, lim.backups), Interruptions(events), lim.maxBytes);
  }

  lemma TimesMonotone(a: nat, b: nat, m: nat)
    requires a <= b
    ensures a * m <= b * m
  {
  }

  /** From an empty directory, whatever crashes happen in between: a suffix of the surviving history, undamaged. */
  lemma HistoryIsRefined<R(!new)>(c: Codec<R>, lim: Limits, events: seq<Event<R>>)
    requires Lawful(c) && lim.Valid()
    ensures var lost := Lost(c, lim, EMPTY_DISK, events);
            && lost <= |History(c, events)|
            && OldestFirst(c, After(c, lim, EMPTY_DISK, events), lim.backups) == History(c, events)[lost..]
            && Faults(c, After(c, lim, EMPTY_DISK, events), lim.backups) == 0
  {
    EmptyReads(c, lim.backups);
    RunReads(c, lim, EMPTY_DISK, events);
    assert [] + History(c, events) == History(c, events);
  }

  lemma {:induction false} EmptyReads<R>(c: Codec<R>, n: nat)
    ensures OldestFirst(c, EMPTY_DISK, n) == [] && Faults(c, EMPTY_DISK, n) == 0
  {
    assert RecordsIn(c, File(EMPTY_DISK, n)) == [] && FaultsIn(c, File(EMPTY_DISK, n)) == 0 by {
      NothingIn(c, File(EMPTY_DISK, n));
    }
    if n > 0 {
      EmptyReads(c, n - 1);
    }
  }

  lemma NothingIn<R>(c: Codec<R>, file: Option<Bytes>)
    requires file == None || file == Some([])
    ensures RecordsIn(c, file) == [] && FaultsIn(c, file) == 0
  {
    ReadTerminated(c, []);
  }
}
