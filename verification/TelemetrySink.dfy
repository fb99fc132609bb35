/** The log writer and its reader, as the objects that work on the directory (telemetry/jsonl.py,
    evaluation/reader.py). */
module TelemetrySink {
  import opened Common
  import opened Jsonl
  import opened RotatedLog

  class Sink<R(!new)> {
    const codec: Codec<R>
    const lim: Limits
    var disk: Disk
    var open: bool

    ghost predicate Valid()
      reads this
    {
      lim.Valid() && (open ==> 0 in disk)
    }

    /** Opens the log in a directory left behind by an earlier process. */
    constructor (codec: Codec<R>, lim: Limits, left: Disk)
      requires lim.Valid()
      ensures Valid() && open
      ensures this.codec == codec && this.lim == lim
      ensures disk == RotatedLog.Opened(codec, left)
    {
      this.codec := codec;
      this.lim := lim;
      disk := left;
      open := false;
      new;
      if 0 in disk {
        var repaired := TruncateTrailingPartial(codec, disk[0]);
        disk := disk[0 := repaired];
      }
      OpenHandle();
    }

    method OpenHandle()
      requires lim.Valid()
      modifies this`disk, this`open
      ensures Valid() && open && disk == Created(old(disk))
    {
      if 0 !in disk {
        disk := disk[0 := []];
      }
      open := true;
    }

    method Close()
      requires Valid()
      modifies this`open
      ensures Valid() && !open
    {
      open := false;
    }

    /** Appends one record; a full file is rotated away. */
    method Write(record: R)
      requires Valid()
      modifies this`disk, this`open
      ensures Valid() && open
      ensures disk == Step(codec, lim, old(disk), Put(record))
    {
      if !open {
        OpenHandle();
      }
      disk := disk[0 := disk[0] + LineOf(codec, record)];
      assert disk == Appended(old(disk), LineOf(codec, record));
      if |disk[0]| >= lim.maxBytes {
        Rotate();
      }
    }

    method Rotate()
      requires Valid()
      modifies this`disk, this`open
      ensures Valid() && open
      ensures disk == Created(Shifted(old(disk), lim.backups, lim.backups + 1))
    {
      Close();
      var n := lim.backups;
      ghost var was := disk;
      if n in disk {
        disk := disk - {n};
      }
      assert disk == Shifted(was, n, 1);
      var index := n - 1;
      while index > 0
        invariant 0 <= index <= n - 1
        invariant disk == Shifted(was, n, n - index)
        invariant !open
      {
        MoveFile(index);
        index := index - 1;
      }
      MoveFile(0);
      OpenHandle();
    }

    method MoveFile(k: nat)
      modifies this`disk
      ensures disk == Move(old(disk), k)
    {
      if k in disk {
        disk := (disk - {k})[k + 1 := disk[k]];
      }
    }
  }

  datatype Opening<R(!new)> = Ready(sink: Sink<R>) | BadMaxBytes | BadBackupCount

  method OpenSink<R(!new)>(codec: Codec<R>, maxBytes: int, backups: int, left: Disk) returns (result: Opening<R>)
    ensures result.BadMaxBytes? <==> maxBytes < 1
    ensures result.BadBackupCount? <==> maxBytes >= 1 && backups < 1
    ensures result.Ready? ==>
              && fresh(result.sink) && result.sink.Valid()
              && result.sink.lim == Limits(maxBytes, backups)
              && result.sink.disk == RotatedLog.Opened(codec, left)
  {
    if maxBytes < 1 {
      return BadMaxBytes;
    }
    if backups < 1 {
      return BadBackupCount;
    }
    var sink := new Sink<R>(codec, Limits(maxBytes, backups), left);
    result := Ready(sink);
  }

  // ---- The reader ----

  /** Existing files, oldest backup first, the current file last. */
  function RotatedPaths(d: Disk, k: nat): seq<nat> {
    (if k in d then [k] else []) + if k == 0 then [] else RotatedPaths(d, k - 1)
  }

  lemma {:induction false} PathsMembers(d: Disk, k: nat, j: nat)
    ensures j in RotatedPaths(d, k) <==> j in d && j <= k
  {
    if k > 0 {
      PathsMembers(d, k - 1, j);
    }
  }

  predicate Falling(paths: seq<nat>) {
    forall i, j :: 0 <= i < j < |paths| ==> paths[i] > paths[j]
  }

  lemma FallingCons(first: seq<nat>, k: nat, rest: seq<nat>)
    requires Falling(rest) && (forall j :: j in rest ==> j < k) && (first == [] || first == [k])
    ensures Falling(first + rest)
  {
    var paths := first + rest;
    if first == [k] {
      forall i, j | 0 <= i < j < |paths|
        ensures paths[i] > paths[j]
      {
        assert paths[j] == rest[j - 1] && rest[j - 1] in rest;
      }
    } else {
      assert paths == rest;
    }
  }

  lemma PathsBelow(d: Disk, k: nat, rest: seq<nat>)
    requires rest == RotatedPaths(d, k)
    ensures forall j :: j in rest ==> j < k + 1
  {
    forall j | j in rest
      ensures j < k + 1
    {
      PathsMembers(d, k, j);
    }
  }

  lemma {:induction false} PathsFall(d: Disk, k: nat) returns (paths: seq<nat>)
    ensures paths == RotatedPaths(d, k) && Falling(paths)
  {
    var first := if k in d then [k] else [];
    var rest := [];
    if k > 0 {
      rest := PathsFall(d, k - 1);
      PathsBelow(d, k - 1, rest);
    }
    FallingCons(first, k, rest);
    paths := first + rest;
  }

  /** Exactly the existing files up to k, each once, in falling order. */
  lemma PathsAreFiles(d: Disk, k: nat)
    ensures forall j: nat :: j in RotatedPaths(d, k) <==> j in d && j <= k
    ensures Falling(RotatedPaths(d, k))
  {
    forall j: nat
      ensures j in RotatedPaths(d, k) <==> j in d && j <= k
    {
      PathsMembers(d, k, j);
    }
    var paths := PathsFall(d, k);
  }

  datatype Loaded<+R> = Loaded(records: seq<R>, files: seq<nat>, malformed: nat, skippedTrailing: bool)

  /** `read` stands for reading with this codec, so that proofs about many files need not look into one. */
  ghost predicate ReadsAs<R>(c: Codec<R>, read: Bytes -> ReadResult<R>, file: Bytes) {
    read(file) == Read(c, file)
  }

  /** What the first i files hold, each read on its own. */
  function RecordsAt<R>(read: Bytes -> ReadResult<R>, files: seq<Bytes>, i: nat): seq<R>
    requires i <= |files|
  {
    if i == 0 then [] else RecordsAt(read, files, i - 1) + read(files[i - 1]).records
  }

  function FaultsAt<R>(read: Bytes -> ReadResult<R>, files: seq<Bytes>, i: nat): nat
    requires i <= |files|
  {
    if i == 0 then 0 else FaultsAt(read, files, i - 1) + read(files[i - 1]).malformed
  }

  function Contents(d: Disk, paths: seq<nat>): (files: seq<Bytes>)
    requires forall i :: 0 <= i < |paths| ==> paths[i] in d
    ensures |files| == |paths| && forall i :: 0 <= i < |paths| ==> files[i] == d[paths[i]]
  {
    seq(|paths|, i requires 0 <= i < |paths| => d[paths[i]])
  }

  function FilesFrom(d: Disk, k: nat): seq<Bytes> {
    (if k in d then [d[k]] else []) + if k == 0 then [] else FilesFrom(d, k - 1)
  }

  ghost predicate Agree(d: Disk, paths: seq<nat>, files: seq<Bytes>) {
    |files| == |paths| && forall i :: 0 <= i < |paths| ==> paths[i] in d && files[i] == d[paths[i]]
  }

  lemma AgreeNext(d: Disk, k: nat, paths: seq<nat>, files: seq<Bytes>)
    requires Agree(d, paths, files)
    ensures Agree(d, (if k in d then [k] else []) + paths, (if k in d then [d[k]] else []) + files)
  {
  }

  lemma {:induction false} PathsAgree(d: Disk, k: nat)
    ensures Agree(d, RotatedPaths(d, k), FilesFrom(d, k))
  {
    if k == 0 {
      AgreeNext(d, k, [], []);
    } else {
      PathsAgree(d, k - 1);
      AgreeNext(d, k, RotatedPaths(d, k - 1), FilesFrom(d, k - 1));
    }
  }

  lemma PathsContents(d: Disk, k: nat)
    ensures forall i :: 0 <= i < |RotatedPaths(d, k)| ==> RotatedPaths(d, k)[i] in d
    ensures Contents(d, RotatedPaths(d, k)) == FilesFrom(d, k)
  {
    PathsAgree(d, k);
  }

  lemma {:induction false} FirstFile<R>(read: Bytes -> ReadResult<R>, file: Bytes, rest: seq<Bytes>, i: nat)
    requires i <= |rest|
    ensures RecordsAt(read, [file] + rest, i + 1) == read(file).records + RecordsAt(read, rest, i)
    ensures FaultsAt(read, [file] + rest, i + 1) == read(file).malformed + FaultsAt(read, rest, i)
  {
    var files := [file] + rest;
    if i == 0 {
      assert RecordsAt(read, files, 0) == [];
      assert files[0] == file;
      ConcatEmpty(read(file).records);
    } else {
      FirstFile(read, file, rest, i - 1);
      assert files[i] == rest[i - 1];
      ConcatAssoc(read(file).records, RecordsAt(read, rest, i - 1), read(rest[i - 1]).records);
    }
  }

  lemma MaybeFirst<R>(read: Bytes -> ReadResult<R>, file: Option<Bytes>, rest: seq<Bytes>)
    ensures var files := (if file.Some? then [file.value] else []) + rest;
            && RecordsAt(read, files, |files|)
               == (if file.Some? then read(file.value).records else []) + RecordsAt(read, rest, |rest|)
            && FaultsAt(read, files, |files|)
               == (if file.Some? then read(file.value).malformed else 0) + FaultsAt(read, rest, |rest|)
  {
    if file.Some? {
      FirstFile(read, file.value, rest, |rest|);
    } else {
      assert [] + rest == rest;
      ConcatEmpty(RecordsAt(read, rest, |rest|));
    }
  }

  /** Reading existing files one by one is joining what the files hold. */
  lemma {:induction false} FilesJoin<R>(read: Bytes -> ReadResult<R>, hold: Option<Bytes> -> seq<R>,
                                        count: Option<Bytes> -> nat, d: Disk, k: nat)
    requires hold(None) == [] && count(None) == 0
    requires forall f :: hold(Some(f)) == read(f).records && count(Some(f)) == read(f).malformed
    ensures RecordsAt(read, FilesFrom(d, k), |FilesFrom(d, k)|) == Joined(hold, d, k)
    ensures FaultsAt(read, FilesFrom(d, k), |FilesFrom(d, k)|) == Sum(count, d, k)
  {
    if k == 0 {
      MaybeFirst(read, File(d, 0), []);
    } else {
      FilesJoin(read, hold, count, d, k - 1);
      MaybeFirst(read, File(d, k), FilesFrom(d, k - 1));
      HeldFile(read, hold, count, File(d, k));
    }
  }

  lemma HeldFile<R>(read: Bytes -> ReadResult<R>, hold: Option<Bytes> -> seq<R>, count: Option<Bytes> -> nat,
                    file: Option<Bytes>)
    requires hold(None) == [] && count(None) == 0
    requires forall f :: hold(Some(f)) == read(f).records && count(Some(f)) == read(f).malformed
    ensures file == None ==> hold(file) == [] && count(file) == 0
    ensures file.Some? ==> hold(file) == read(file.value).records && count(file) == read(file.value).malformed
  {
  }

  /** Reading the existing files in path order is reading the files oldest first. */
  lemma PathsReadOldestFirst<R>(c: Codec<R>, read: Bytes -> ReadResult<R>, d: Disk, k: nat)
    requires forall f :: ReadsAs(c, read, f)
    ensures var files := FilesFrom(d, k);
            && RecordsAt(read, files, |files|) == OldestFirst(c, d, k)
            && FaultsAt(read, files, |files|) == Faults(c, d, k)
  {
    forall f
      ensures Reader(c)(Some(f)) == read(f).records && Damage(c)(Some(f)) == read(f).malformed
    {
      assert ReadsAs(c, read, f);
    }
    FilesJoin(read, Reader(c), Damage(c), d, k);
  }

  method ReadFile<R>(c: Codec<R>, ghost read: Bytes -> ReadResult<R>, file: Bytes) returns (result: ReadResult<R>)
    requires forall f :: ReadsAs(c, read, f)
    ensures result == read(file)
  {
    result := ReadJsonl(c, file);
    assert ReadsAs(c, read, file);
  }

  predicate SomeTorn<R>(read: Bytes -> ReadResult<R>, files: seq<Bytes>, n: nat)
    requires n <= |files|
  {
    exists i :: 0 <= i < n && read(files[i]).skippedTrailing
  }

  lemma TornNext<R>(read: Bytes -> ReadResult<R>, files: seq<Bytes>, i: nat)
    requires i < |files|
    ensures SomeTorn(read, files, i + 1) <==> SomeTorn(read, files, i) || read(files[i]).skippedTrailing
  {
    if SomeTorn(read, files, i) {
      var j :| 0 <= j < i && read(files[j]).skippedTrailing;
      assert 0 <= j < i + 1;
    }
  }

  method LoadFiles<R>(c: Codec<R>, ghost read: Bytes -> ReadResult<R>, files: seq<Bytes>)
    returns (records: seq<R>, malformed: nat, skipped: bool)
    requires forall f :: ReadsAs(c, read, f)
    ensures records == RecordsAt(read, files, |files|) && malformed == FaultsAt(read, files, |files|)
    ensures skipped <==> SomeTorn(read, files, |files|)
  {
    records := [];
    malformed := 0;
    skipped := false;
    for i := 0 to |files|
      invariant records == RecordsAt(read, files, i) && malformed == FaultsAt(read, files, i)
      invariant skipped <==> SomeTorn(read, files, i)
    {
      var result := ReadFile(c, read, files[i]);
      records := records + result.records;
      malformed := malformed + result.malformed;
      skipped := skipped || result.skippedTrailing;
      TornNext(read, files, i);
    }
  }

  /** Reads every existing file, oldest first; a fragment is reported exactly when some file ends in one. */
  method Load<R>(c: Codec<R>, d: Disk, backups: nat) returns (loaded: Loaded<R>)
    ensures loaded.records == OldestFirst(c, d, backups)
    ensures loaded.malformed == Faults(c, d, backups)
    ensures loaded.skippedTrailing <==> exists k: nat :: k <= backups && TornIn(c, File(d, k))
    ensures forall k: nat :: k in loaded.files <==> k in d && k <= backups
  {
    var paths := RotatedPaths(d, backups);
    PathsContents(d, backups);
    var files := Contents(d, paths);
    ghost var read := f => Read(c, f);
    var records, malformed, skipped := LoadFiles(c, read, files);
    PathsReadOldestFirst(c, read, d, backups);
    TornSomewhere(c, read, d, backups);
    PathsAreFiles(d, backups);
    loaded := Loaded(records, paths, malformed, skipped);
  }

  lemma TornSomewhere<R>(c: Codec<R>, read: Bytes -> ReadResult<R>, d: Disk, k: nat)
    requires forall f :: ReadsAs(c, read, f)
    ensures SomeTorn(read, FilesFrom(d, k), |FilesFrom(d, k)|)
            <==> exists j: nat :: j <= k && TornIn(c, File(d, j))
  {
    var torn := (f: Bytes) => read(f).skippedTrailing;
    forall j: nat
      ensures TornIn(c, File(d, j)) <==> j in d && torn(d[j])
    {
      if j in d {
        assert ReadsAs(c, read, d[j]);
      }
    }
    SomeFile(d, torn, k);
  }

  lemma SomeFile(d: Disk, torn: Bytes -> bool, k: nat)
    ensures (exists i :: 0 <= i < |FilesFrom(d, k)| && torn(FilesFrom(d, k)[i]))
            <==> exists j: nat :: j <= k && j in d && torn(d[j])
  {
    if i :| 0 <= i < |FilesFrom(d, k)| && torn(FilesFrom(d, k)[i]) {
      FilesAre(d, k, FilesFrom(d, k)[i]);
      var j: nat :| j <= k && j in d && d[j] == FilesFrom(d, k)[i];
    }
    if j: nat :| j <= k && j in d && torn(d[j]) {
      FilesAre(d, k, d[j]);
      var i :| 0 <= i < |FilesFrom(d, k)| && FilesFrom(d, k)[i] == d[j];
    }
  }

  ghost predicate IsFile(d: Disk, k: nat, file: Bytes) {
    exists j: nat :: j <= k && j in d && d[j] == file
  }

  lemma IsFileNext(d: Disk, k: nat, file: Bytes)
    ensures IsFile(d, k, file) <==> (k in d && d[k] == file) || (k > 0 && IsFile(d, k - 1, file))
  {
    if k > 0 && IsFile(d, k - 1, file) {
      var j: nat :| j <= k - 1 && j in d && d[j] == file;
      assert j <= k && j in d && d[j] == file;
    }
  }

  lemma {:induction false} FilesAre(d: Disk, k: nat, file: Bytes)
    ensures file in FilesFrom(d, k) <==> IsFile(d, k, file)
  {
    IsFileNext(d, k, file);
    if k > 0 {
      FilesAre(d, k - 1, file);
    }
  }
}
