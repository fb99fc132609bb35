/** What every step of the sidecar keeps. */
module SidecarInvariant {
  import opened Common
  import opened Domain
  import opened Router
  import opened SidecarModel

  // ---- Counting works ----

  function Count(ws: seq<Work>, id: nat): nat {
    if ws == [] then 0 else (if ws[0].id == id then 1 else 0) + Count(ws[1..], id)
  }

  lemma {:induction false} CountConcat(a: seq<Work>, b: seq<Work>, id: nat)
    ensures Count(a + b, id) == Count(a, id) + Count(b, id)
  {
    if a == [] {
      assert a + b == b;
    } else {
      assert (a + b)[1..] == a[1..] + b;
      CountConcat(a[1..], b, id);
    }
  }

  lemma CountOne(w: Work, id: nat)
    ensures Count([w], id) == if w.id == id then 1 else 0
  {
    assert [w][1..] == [];
  }

  lemma CountWithout(ws: seq<Work>, slot: nat, id: nat)
    requires slot < |ws|
    ensures Count(ws, id) == Count(ws[..slot] + ws[slot + 1..], id) + if ws[slot].id == id then 1 else 0
  {
    assert ws == ws[..slot] + ([ws[slot]] + ws[slot + 1..]);
    CountConcat(ws[..slot], [ws[slot]] + ws[slot + 1..], id);
    CountConcat([ws[slot]], ws[slot + 1..], id);
    CountConcat(ws[..slot], ws[slot + 1..], id);
    CountOne(ws[slot], id);
  }

  lemma {:induction false} CountMember(ws: seq<Work>, w: Work)
    requires w in ws
    ensures Count(ws, w.id) > 0
  {
    if ws[0] != w {
      assert ws == [ws[0]] + ws[1..];
      CountMember(ws[1..], w);
    }
  }

  // ---- The invariant ----

  predicate Out(st: State, w: Work) {
    w in st.queue || w in st.running
  }

  /** The pending counter of an episode is the number of its queued and running works. */
  ghost predicate PendingOk(st: State) {
    && (forall id :: Get(st.pending, id) == Count(st.running, id) + Count(st.queue, id))
    && forall id :: id in st.pending ==> st.pending[id] > 0
  }

  /** Nothing is remembered about an episode that is neither active nor outstanding. */
  ghost predicate KeysOk(st: State) {
    && st.calls.Keys == st.lastPriority.Keys
    && (forall id :: id in st.calls || id in st.generation ==> id in st.active || id in st.pending)
    && forall id :: id in st.registry ==> id in st.active
  }

  /** Outstanding works are older than or equal to their episode's generation, and strictly older once it is retired. */
  ghost predicate GenerationOk(st: State) {
    forall w :: Out(st, w) ==>
      && w.id in st.generation
      && w.generation <= st.generation[w.id]
      && (w.id !in st.active ==> w.generation < st.generation[w.id])
  }

  /** First in, first out: serial numbers rise along the queue and everything running was taken before. */
  ghost predicate OrderOk(st: State) {
    && (forall w :: Out(st, w) ==> w.serial < st.stats.submitted)
    && (forall i, j :: 0 <= i < j < |st.queue| ==> st.queue[i].serial < st.queue[j].serial)
    && (forall i, j :: 0 <= i < j < |st.running| ==> st.running[i].serial != st.running[j].serial)
    && (forall u, w :: u in st.running && w in st.queue ==> u.serial < w.serial)
  }

  /** Of two outstanding works of one episode the later one has the later generation. */
  ghost predicate RivalsOk(st: State) {
    forall u, w :: Out(st, u) && Out(st, w) && u.id == w.id && u.serial < w.serial ==> u.generation < w.generation
  }

  /** A registry row always shows the episode's current generation. */
  ghost predicate RegistryOk(st: State) {
    forall id :: id in st.registry ==>
      && id in st.generation && st.registry[id].generation == st.generation[id]
      && st.registry[id].serial < st.stats.submitted
  }

  /** A row carrying an outstanding work's serial is that work's own row. */
  ghost predicate OwnerOk(st: State) {
    forall w, id :: Out(st, w) && id in st.registry && st.registry[id].serial == w.serial ==>
      id == w.id && st.registry[id].generation == w.generation
  }

  ghost predicate Shows(st: State, w: Work, status: Status) {
    w.id in st.registry && st.registry[w.id].serial == w.serial && st.registry[w.id].status == status
  }

  /** A live queued work is shown as queued, a live running work as running. */
  ghost predicate ShownOk(st: State) {
    && (forall w :: w in st.queue && IsLive(st, w) ==> Shows(st, w, Queued))
    && (forall w :: w in st.running && IsLive(st, w) ==> Shows(st, w, Running))
  }

  /** No episode is over its call budget. */
  ghost predicate BudgetOk(cfg: Config, st: State) {
    forall id :: id in st.calls ==> 1 <= st.calls[id] <= Cap(cfg.budget)
  }

  /** Every submitted request is queued, running, or has ended in exactly one of the three ways. */
  predicate Conserved(st: State) {
    && st.stats.submitted
       == |st.queue| + |st.running| + st.stats.enriched + st.stats.fallbacksStored + st.stats.stale
    && st.stats.modelCalls + |st.queue| <= st.stats.submitted
  }

  predicate Bounded(cfg: Config, st: State) {
    && |st.running| <= cfg.concurrency
    && (cfg.queueSize > 0 ==> |st.queue| <= cfg.queueSize)
  }

  ghost predicate WorksOk(st: State) {
    GenerationOk(st) && OrderOk(st) && RivalsOk(st)
  }

  ghost predicate RowsOk(st: State) {
    RegistryOk(st) && OwnerOk(st) && ShownOk(st)
  }

  ghost predicate TallyOk(cfg: Config, st: State) {
    BudgetOk(cfg, st) && Conserved(st) && Bounded(cfg, st)
  }

  ghost predicate Inv(cfg: Config, st: State) {
    PendingOk(st) && KeysOk(st) && WorksOk(st) && RowsOk(st) && TallyOk(cfg, st)
  }

  lemma EmptyIsFine(cfg: Config)
    ensures Inv(cfg, EMPTY)
  {
  }

  // ---- Facts used by every step ----

  lemma OutIsPending(st: State, w: Work)
    requires PendingOk(st) && Out(st, w)
    ensures w.id in st.pending
  {
    if w in st.queue {
      CountMember(st.queue, w);
    } else {
      CountMember(st.running, w);
    }
  }

  lemma SameSerialSameWork(st: State, u: Work, w: Work)
    requires OrderOk(st) && Out(st, u) && Out(st, w) && u.serial == w.serial
    ensures u == w && (u in st.queue <==> w in st.queue)
  {
  }

  // ---- Retiring ----

  /** What retiring does, map by map. */
  ghost predicate Retired(st: State, post: State, active: set<nat>) {
    && post.active == active && post.queue == st.queue && post.running == st.running && post.stats == st.stats
    && post.pending == st.pending
    && (forall id :: id in post.registry <==> id in st.registry && id in active)
    && (forall id :: id in post.registry ==> post.registry[id] == st.registry[id])
    && (forall id :: id in post.calls <==> id in st.calls && (id in active || id in st.pending))
    && (forall id :: id in post.calls ==> post.calls[id] == st.calls[id])
    && post.lastPriority.Keys == post.calls.Keys
    && (forall id :: id in active ==>
          (id in post.generation <==> id in st.generation)
          && (id in st.generation ==> post.generation[id] == st.generation[id]))
    && (forall id :: id !in active ==>
          (id in post.generation <==> id in st.pending)
          && (id in st.pending ==> post.generation[id] == Get(st.generation, id) + 1))
  }

  lemma RetireShape(st: State, active: set<nat>)
    requires KeysOk(st) && PendingOk(st)
    ensures Retired(st, Retire(st, active), active)
  {
    assert forall id :: id in st.pending ==> Get(st.pending, id) > 0;
  }

  lemma RetiredKeepsWorks(st: State, post: State, active: set<nat>)
    requires Retired(st, post, active) && PendingOk(st) && WorksOk(st)
    ensures WorksOk(post)
  {
    forall w | Out(post, w)
      ensures Out(st, w) && w.id in st.pending
    {
      OutIsPending(st, w);
    }
  }

  lemma RetiredLives(st: State, post: State, active: set<nat>, w: Work)
    requires Retired(st, post, active) && GenerationOk(st) && Out(st, w)
    ensures IsLive(post, w) ==> IsLive(st, w)
  {
  }

  lemma RetiredKeepsRows(st: State, post: State, active: set<nat>)
    requires Retired(st, post, active) && KeysOk(st) && GenerationOk(st) && RowsOk(st)
    ensures RowsOk(post)
  {
    forall w | Out(post, w)
      ensures Out(st, w) && (IsLive(post, w) ==> IsLive(st, w))
    {
      RetiredLives(st, post, active, w);
    }
  }

  lemma RetiredKeepsCounts(cfg: Config, st: State, post: State, active: set<nat>)
    requires Retired(st, post, active) && PendingOk(st) && KeysOk(st) && TallyOk(cfg, st)
    ensures PendingOk(post) && KeysOk(post) && TallyOk(cfg, post)
  {
  }

  lemma RetireKeeps(cfg: Config, st: State, active: set<nat>)
    requires Inv(cfg, st)
    ensures Inv(cfg, Retire(st, active))
  {
    RetireShape(st, active);
    RetiredKeepsCounts(cfg, st, Retire(st, active), active);
    RetiredKeepsWorks(st, Retire(st, active), active);
    RetiredKeepsRows(st, Retire(st, active), active);
  }

  // ---- Enqueueing ----

  lemma EnqueueKeepsBudget(cfg: Config, st: State, f: Facts)
    requires BudgetOk(cfg, st) && KeysOk(st) && Bounded(cfg, st) && Requested(cfg, st, f) && !Full(cfg, st)
    ensures var post := Enqueue(cfg, st, f.id, f.priority); BudgetOk(cfg, post) && Bounded(cfg, post)
  {
    assert f.id in st.calls <==> f.id in st.lastPriority;
    GrantedIsUnderCap(cfg.budget, Get(st.calls, f.id), f.priority, LastOf(st, f.id));
  }

  lemma EnqueueKeeps(cfg: Config, st: State, f: Facts)
    requires Inv(cfg, st) && Requested(cfg, st, f)
    ensures Inv(cfg, Enqueue(cfg, st, f.id, f.priority))
  {
    assert f.id in st.active;
    if !Full(cfg, st) {
      EnqueueKeepsCounts(cfg, st, f.id, f.priority);
      EnqueueKeepsOrder(cfg, st, f.id, f.priority);
      EnqueueKeepsRows(cfg, st, f.id, f.priority);
      EnqueueKeepsBudget(cfg, st, f);
    }
  }

  lemma EnqueueKeepsCounts(cfg: Config, st: State, id: nat, priority: Priority)
    requires PendingOk(st) && KeysOk(st) && Conserved(st) && !Full(cfg, st) && id in st.active
    ensures var post := Enqueue(cfg, st, id, priority); PendingOk(post) && KeysOk(post) && Conserved(post)
  {
    var w := NewWork(st, id, priority);
    forall i
      ensures Count(st.queue + [w], i) == Count(st.queue, i) + if i == id then 1 else 0
    {
      CountConcat(st.queue, [w], i);
      CountOne(w, i);
    }
  }

  lemma EnqueueKeepsOrder(cfg: Config, st: State, id: nat, priority: Priority)
    requires WorksOk(st) && !Full(cfg, st) && id in st.active
    ensures WorksOk(Enqueue(cfg, st, id, priority))
  {
    var w := NewWork(st, id, priority);
    var post := Enqueue(cfg, st, id, priority);
    assert forall u :: Out(post, u) <==> Out(st, u) || u == w;
  }

  lemma EnqueueKeepsRows(cfg: Config, st: State, id: nat, priority: Priority)
    requires GenerationOk(st) && OrderOk(st) && RowsOk(st)
    requires !Full(cfg, st) && id in st.active
    ensures RowsOk(Enqueue(cfg, st, id, priority))
  {
    var w := NewWork(st, id, priority);
    var post := Enqueue(cfg, st, id, priority);
    assert forall u :: Out(post, u) <==> Out(st, u) || u == w;
    assert forall u :: Out(st, u) && u.id == id ==> !IsLive(post, u);
  }

  lemma RequestKeeps(cfg: Config, st: State, f: Facts)
    requires Inv(cfg, st)
    ensures Inv(cfg, Request(cfg, st, f))
  {
    if Requested(cfg, st, f) {
      EnqueueKeeps(cfg, st, f);
    }
  }

  // ---- Releasing a finished work ----

  /** The work of episode id has left the queue and the workers but is still counted as pending. */
  ghost predicate OneOver(st: State, id: nat) {
    && (forall i :: Get(st.pending, i) == Count(st.running, i) + Count(st.queue, i) + if i == id then 1 else 0)
    && forall i :: i in st.pending ==> st.pending[i] > 0
  }

  /** All of the invariant except the pending count. */
  ghost predicate Rest(cfg: Config, st: State) {
    KeysOk(st) && WorksOk(st) && RowsOk(st) && TallyOk(cfg, st)
  }

  /** What releasing does, map by map. */
  ghost predicate Released(st: State, post: State, id: nat) {
    && post.active == st.active && post.queue == st.queue && post.running == st.running
    && post.stats == st.stats && post.registry == st.registry
    && (forall i :: i in post.calls ==> i in st.calls && post.calls[i] == st.calls[i])
    && (forall i :: i in post.generation ==> i in st.generation && post.generation[i] == st.generation[i])
    && (forall i :: i in st.generation && i !in post.generation ==> i == id && i !in st.active && i !in post.pending)
  }

  lemma ReleaseOne(st: State, id: nat, i: nat)
    requires forall j :: j in st.pending ==> st.pending[j] > 0
    ensures var post := ReleasePending(st, id);
            && Get(post.pending, i)
               == (if i == id && Get(st.pending, i) > 0 then Get(st.pending, i) - 1 else Get(st.pending, i))
            && (i in post.pending ==> post.pending[i] > 0)
            && post.queue == st.queue && post.running == st.running
  {
  }

  lemma ReleaseCounts(st: State, id: nat)
    requires OneOver(st, id)
    ensures PendingOk(ReleasePending(st, id))
  {
    forall i
      ensures Get(ReleasePending(st, id).pending, i) == Count(st.running, i) + Count(st.queue, i)
      ensures i in ReleasePending(st, id).pending ==> ReleasePending(st, id).pending[i] > 0
    {
      ReleaseOne(st, id, i);
    }
    ReleaseOne(st, id, id);
  }

  lemma ReleaseShape(st: State, id: nat)
    requires OneOver(st, id) && KeysOk(st)
    ensures var post := ReleasePending(st, id); Released(st, post, id) && PendingOk(post) && KeysOk(post)
  {
    ReleaseCounts(st, id);
  }

  lemma ReleasedKeepsWorks(st: State, post: State, id: nat)
    requires Released(st, post, id) && PendingOk(post) && WorksOk(st)
    ensures WorksOk(post)
  {
    forall w | Out(post, w)
      ensures Out(st, w) && w.id in post.generation
    {
      OutIsPending(post, w);
    }
  }

  lemma ReleasedKeepsRows(st: State, post: State, id: nat)
    requires Released(st, post, id) && KeysOk(st) && RowsOk(st)
    ensures RowsOk(post)
  {
    forall w | Out(post, w)
      ensures Out(st, w) && (IsLive(post, w) ==> IsLive(st, w))
    {
    }
  }

  lemma ReleaseKeeps(cfg: Config, st: State, id: nat)
    requires OneOver(st, id) && Rest(cfg, st)
    ensures Inv(cfg, ReleasePending(st, id))
  {
    ReleaseShape(st, id);
    ReleasedKeepsWorks(st, ReleasePending(st, id), id);
    ReleasedKeepsRows(st, ReleasePending(st, id), id);
  }

  // ---- A worker takes the head of the queue ----

  lemma HeadCount(st: State, id: nat)
    requires st.queue != []
    ensures Count(st.queue, id) == Count(st.queue[1..], id) + if st.queue[0].id == id then 1 else 0
  {
  }

  lemma TailOut(queue: seq<Work>, w: Work)
    requires queue != []
    ensures w in queue <==> w == queue[0] || w in queue[1..]
  {
    assert queue == [queue[0]] + queue[1..];
  }

  function WithoutHead(st: State): State
    requires st.queue != []
  {
    st.(queue := st.queue[1..], stats := st.stats.(stale := st.stats.stale + 1))
  }

  lemma WithoutHeadOut(st: State, w: Work)
    requires OrderOk(st) && st.queue != [] && Out(WithoutHead(st), w)
    ensures Out(st, w) && (w in st.queue[1..] ==> w in st.queue && st.queue[0].serial < w.serial)
  {
    if w in st.queue[1..] {
      var i :| 0 <= i < |st.queue[1..]| && st.queue[1..][i] == w;
      assert w == st.queue[i + 1];
    }
  }

  lemma DropHeadKeepsWorks(st: State)
    requires WorksOk(st) && st.queue != []
    ensures WorksOk(WithoutHead(st))
  {
    forall w | Out(WithoutHead(st), w)
      ensures Out(st, w) && (w in st.queue[1..] ==> w in st.queue)
    {
      WithoutHeadOut(st, w);
    }
  }

  lemma DropHeadKeepsRows(st: State)
    requires OrderOk(st) && RowsOk(st) && st.queue != []
    ensures RowsOk(WithoutHead(st))
  {
    forall w | Out(WithoutHead(st), w)
      ensures Out(st, w) && (w in st.queue[1..] ==> w in st.queue)
    {
      WithoutHeadOut(st, w);
    }
  }

  lemma DropHeadCounts(st: State)
    requires PendingOk(st) && st.queue != []
    ensures OneOver(WithoutHead(st), st.queue[0].id)
  {
    forall id
      ensures Count(st.queue, id) == Count(st.queue[1..], id) + if st.queue[0].id == id then 1 else 0
    {
      HeadCount(st, id);
    }
  }

  lemma DropHeadKeeps(cfg: Config, st: State)
    requires Inv(cfg, st) && st.queue != []
    ensures OneOver(WithoutHead(st), st.queue[0].id) && Rest(cfg, WithoutHead(st))
  {
    DropHeadKeepsWorks(st);
    DropHeadKeepsRows(st);
    DropHeadCounts(st);
  }

  lemma StartStaleKeeps(cfg: Config, st: State)
    requires Inv(cfg, st) && st.queue != [] && !IsLive(st, st.queue[0])
    ensures Inv(cfg, Start(st))
  {
    DropHeadKeeps(cfg, st);
    ReleaseKeeps(cfg, WithoutHead(st), st.queue[0].id);
    assert Start(st) == ReleasePending(WithoutHead(st), st.queue[0].id);
  }

  lemma StartLiveKeeps(cfg: Config, st: State)
    requires Inv(cfg, st) && st.queue != [] && IsLive(st, st.queue[0]) && |st.running| < cfg.concurrency
    ensures Inv(cfg, Start(st))
  {
    StartLiveCounts(st);
    StartLiveOrder(st);
    StartLiveRows(st);
  }

  lemma StartLiveOut(st: State, w: Work)
    requires st.queue != [] && IsLive(st, st.queue[0])
    ensures Out(Start(st), w) <==> Out(st, w)
    ensures w in Start(st).running <==> w in st.running || w == st.queue[0]
  {
    TailOut(st.queue, w);
  }

  lemma StartLiveCounts(st: State)
    requires PendingOk(st) && KeysOk(st) && Conserved(st) && st.queue != [] && IsLive(st, st.queue[0])
    ensures var post := Start(st); PendingOk(post) && KeysOk(post) && Conserved(post)
  {
    var w := st.queue[0];
    forall id
      ensures Count(st.running + [w], id) + Count(st.queue[1..], id) == Count(st.running, id) + Count(st.queue, id)
    {
      HeadCount(st, id);
      CountConcat(st.running, [w], id);
      CountOne(w, id);
    }
  }

  lemma StartLiveSerials(st: State)
    requires OrderOk(st) && st.queue != [] && IsLive(st, st.queue[0])
    ensures OrderOk(Start(st))
  {
    var post := Start(st);
    var head := st.queue[0];
    assert head in st.queue;
    forall i, j | 0 <= i < j < |post.running|
      ensures post.running[i].serial != post.running[j].serial
    {
      assert post.running[i] in st.running;
    }
    forall w | w in post.queue
      ensures w in st.queue && head.serial < w.serial
    {
      WithoutHeadOut(st, w);
    }
    forall w | Out(post, w)
      ensures Out(st, w)
    {
      StartLiveOut(st, w);
    }
  }

  lemma StartLiveOrder(st: State)
    requires WorksOk(st) && st.queue != [] && IsLive(st, st.queue[0])
    ensures WorksOk(Start(st))
  {
    StartLiveSerials(st);
    StartLiveRegistry(st);
    forall w | Out(Start(st), w)
      ensures Out(st, w)
    {
      StartLiveOut(st, w);
    }
  }

  lemma StartLiveRegistry(st: State)
    requires st.queue != [] && IsLive(st, st.queue[0])
    ensures var post := Start(st);
            var head := st.queue[0];
            && post.active == st.active && post.generation == st.generation
            && post.stats.submitted == st.stats.submitted
            && Shows(post, head, Running) && post.registry[head.id].generation == head.generation
            && (forall id :: id in post.registry <==> id in st.registry || id == head.id)
            && (forall id :: id in st.registry && id != head.id ==> post.registry[id] == st.registry[id])
  {
  }

  lemma OthersNotLive(st: State)
    requires OrderOk(st) && RivalsOk(st) && st.queue != [] && IsLive(st, st.queue[0])
    ensures forall w :: Out(st, w) && IsLive(st, w) && w.id == st.queue[0].id ==> w == st.queue[0]
  {
    forall w | Out(st, w) && IsLive(st, w) && w.id == st.queue[0].id
      ensures w == st.queue[0]
    {
      OneLivePerEpisode(st, w, st.queue[0]);
    }
  }

  lemma StartLiveRows(st: State)
    requires WorksOk(st) && RowsOk(st) && st.queue != [] && IsLive(st, st.queue[0])
    ensures RowsOk(Start(st))
  {
    var post := Start(st);
    var head := st.queue[0];
    StartLiveRegistry(st);
    OthersNotLive(st);
    forall w | Out(post, w)
      ensures Out(st, w) && (w in post.running ==> w in st.running || w == head)
    {
      StartLiveOut(st, w);
    }
    forall w | w in post.queue
      ensures w in st.queue && head.serial < w.serial
    {
      WithoutHeadOut(st, w);
    }
    forall w | Out(post, w) && w.serial == head.serial
      ensures w == head
    {
      SameSerialSameWork(st, w, head);
    }
  }

  /** At most one outstanding work of an episode is live. */
  lemma OneLivePerEpisode(st: State, u: Work, w: Work)
    requires OrderOk(st) && RivalsOk(st)
    requires Out(st, u) && Out(st, w) && IsLive(st, u) && IsLive(st, w) && u.id == w.id
    ensures u == w
  {
    if u.serial == w.serial {
      SameSerialSameWork(st, u, w);
    }
  }

  // ---- A worker finishes ----

  lemma WithoutMember(ws: seq<Work>, slot: nat, w: Work)
    requires slot < |ws|
    requires forall i, j :: 0 <= i < j < |ws| ==> ws[i].serial != ws[j].serial
    ensures w in ws[..slot] + ws[slot + 1..] <==> w in ws && w != ws[slot]
  {
    var rest := ws[..slot] + ws[slot + 1..];
    if w in rest {
      var i :| 0 <= i < |rest| && rest[i] == w;
      assert w == if i < slot then ws[i] else ws[i + 1];
    }
    if w in ws && w != ws[slot] {
      var i :| 0 <= i < |ws| && ws[i] == w;
      assert w == if i < slot then rest[i] else rest[i - 1];
    }
  }

  function WithoutSlot(st: State, slot: nat): State
    requires slot < |st.running|
  {
    st.(running := st.running[..slot] + st.running[slot + 1..])
  }

  /** Taking a work off its worker and counting how it ended keeps everything except the pending count. */
  lemma RemoveKeeps(cfg: Config, st: State, slot: nat, outcome: Outcome)
    requires Inv(cfg, st) && slot < |st.running|
    ensures var w := st.running[slot];
            var left := Settle(WithoutSlot(st, slot), w, outcome);
            OneOver(left, w.id) && Rest(cfg, left)
  {
    var w := st.running[slot];
    var gone := WithoutSlot(st, slot);
    var left := Settle(gone, w, outcome);
    forall id
      ensures Count(st.running, id) == Count(gone.running, id) + if w.id == id then 1 else 0
    {
      CountWithout(st.running, slot, id);
    }
    SettleShape(gone, w, outcome);
    RemoveKeepsWorks(st, slot);
    RemoveKeepsRows(st, slot);
    RemovedHasDeparted(st, slot);
    assert Out(st, w);
    SettleKeeps(cfg, gone, w, outcome);
  }

  /** The work w is nowhere any more, and serials of what is left differ from its own. */
  ghost predicate Departed(st: State, w: Work) {
    forall u :: Out(st, u) ==> u.serial != w.serial && (u.id == w.id ==> u.generation != w.generation)
  }

  lemma RemovedOut(st: State, slot: nat, u: Work)
    requires OrderOk(st) && slot < |st.running|
    ensures u in WithoutSlot(st, slot).running <==> u in st.running && u != st.running[slot]
    ensures Out(WithoutSlot(st, slot), u) ==> Out(st, u) && u.serial != st.running[slot].serial
  {
    WithoutMember(st.running, slot, u);
    assert Out(st, st.running[slot]);
    if Out(st, u) && u.serial == st.running[slot].serial {
      SameSerialSameWork(st, u, st.running[slot]);
    }
  }

  lemma RemoveKeepsWorks(st: State, slot: nat)
    requires WorksOk(st) && slot < |st.running|
    ensures WorksOk(WithoutSlot(st, slot))
  {
    forall u | Out(WithoutSlot(st, slot), u)
      ensures Out(st, u) && (u in WithoutSlot(st, slot).running ==> u in st.running)
    {
      RemovedOut(st, slot, u);
    }
  }

  lemma RemoveKeepsRows(st: State, slot: nat)
    requires OrderOk(st) && RowsOk(st) && slot < |st.running|
    ensures RowsOk(WithoutSlot(st, slot))
  {
    forall u | Out(WithoutSlot(st, slot), u)
      ensures Out(st, u) && (u in WithoutSlot(st, slot).running ==> u in st.running)
    {
      RemovedOut(st, slot, u);
    }
  }

  lemma RemovedHasDeparted(st: State, slot: nat)
    requires WorksOk(st) && slot < |st.running|
    ensures Departed(WithoutSlot(st, slot), st.running[slot])
  {
    var w := st.running[slot];
    assert Out(st, w);
    forall u | Out(WithoutSlot(st, slot), u)
      ensures u.serial != w.serial && (u.id == w.id ==> u.generation != w.generation)
    {
      RemovedOut(st, slot, u);
    }
  }

  /** What settling a departed work may change: statistics, and the row of its own episode. */
  ghost predicate Settled(gone: State, left: State, w: Work) {
    && left == gone.(registry := left.registry, stats := left.stats)
    && left.stats.submitted == gone.stats.submitted && left.stats.modelCalls == gone.stats.modelCalls
    && left.stats.enriched + left.stats.fallbacksStored + left.stats.stale
       == gone.stats.enriched + gone.stats.fallbacksStored + gone.stats.stale + 1
    && (left.registry == gone.registry
        || (&& IsLive(gone, w) && w.id in left.registry
            && left.registry == gone.registry[w.id := left.registry[w.id]]
            && left.registry[w.id].serial == w.serial && left.registry[w.id].generation == w.generation))
  }

  lemma SettleShape(gone: State, w: Work, outcome: Outcome)
    ensures Settled(gone, Settle(gone, w, outcome), w)
  {
  }

  lemma SettledKeepsWorks(gone: State, left: State, w: Work)
    requires Settled(gone, left, w) && WorksOk(gone)
    ensures WorksOk(left)
  {
    assert forall u :: Out(left, u) <==> Out(gone, u);
  }

  lemma SettledKeepsRows(gone: State, left: State, w: Work)
    requires Settled(gone, left, w) && WorksOk(gone) && RowsOk(gone)
    requires Departed(gone, w) && w.serial < gone.stats.submitted
    ensures RowsOk(left)
  {
    forall u | Out(left, u)
      ensures Out(gone, u) && (IsLive(left, u) <==> IsLive(gone, u))
    {
    }
    forall u | Out(gone, u) && u.id == w.id && IsLive(gone, u)
      ensures !IsLive(gone, w)
    {
    }
  }

  lemma SettleKeeps(cfg: Config, gone: State, w: Work, outcome: Outcome)
    requires KeysOk(gone) && WorksOk(gone) && RowsOk(gone) && BudgetOk(cfg, gone) && Bounded(cfg, gone)
    requires Departed(gone, w) && w.serial < gone.stats.submitted
    requires gone.stats.submitted
             == |gone.queue| + |gone.running| + 1 + gone.stats.enriched + gone.stats.fallbacksStored + gone.stats.stale
    requires gone.stats.modelCalls + |gone.queue| <= gone.stats.submitted
    ensures Rest(cfg, Settle(gone, w, outcome))
  {
    SettleShape(gone, w, outcome);
    SettledKeepsWorks(gone, Settle(gone, w, outcome), w);
    SettledKeepsRows(gone, Settle(gone, w, outcome), w);
  }

  lemma FinishKeeps(cfg: Config, st: State, slot: nat, outcome: Outcome)
    requires Inv(cfg, st) && slot < |st.running|
    ensures Inv(cfg, Finish(st, slot, outcome))
  {
    var w := st.running[slot];
    RemoveKeeps(cfg, st, slot, outcome);
    ReleaseKeeps(cfg, Settle(WithoutSlot(st, slot), w, outcome), w.id);
  }

  // ---- Every step, every run ----

  lemma StepKeeps(cfg: Config, st: State, step: Step)
    requires cfg.Valid() && Inv(cfg, st) && Enabled(cfg, st, step)
    ensures Inv(cfg, Next(cfg, st, step))
  {
    match step
    case RetireStep(active) => RetireKeeps(cfg, st, active);
    case RequestStep(facts) => RequestKeeps(cfg, st, facts);
    case StartStep =>
      if IsLive(st, st.queue[0]) {
        StartLiveKeeps(cfg, st);
      } else {
        StartStaleKeeps(cfg, st);
      }
    case FinishStep(slot, outcome) => FinishKeeps(cfg, st, slot, outcome);
  }

  lemma {:induction false} RunKeeps(cfg: Config, st: State, steps: seq<Step>)
    requires cfg.Valid() && Inv(cfg, st) && IsRun(cfg, st, steps)
    ensures Inv(cfg, After(cfg, st, steps))
    decreases steps
  {
    if steps != [] {
      StepKeeps(cfg, st, steps[0]);
      RunKeeps(cfg, Next(cfg, st, steps[0]), steps[1..]);
    }
  }
}
