/** When an id stays within its call budget over a whole run: exactly when no tick takes it back after dropping it. */
module SidecarBudget {
  import opened Common
  import opened Domain
  import opened Router
  import opened SidecarModel
  import opened SidecarInvariant
  import opened SidecarRuns

  /** The active sets of a run's ticks, in order. */
  function Ticks(steps: seq<Step>): seq<set<nat>>
    decreases steps
  {
    if steps == [] then []
    else (if steps[0].RetireStep? then [steps[0].active] else []) + Ticks(steps[1..])
  }

  ghost predicate NeverListed(ticks: seq<set<nat>>, id: nat) {
    forall k :: 0 <= k < |ticks| ==> id !in ticks[k]
  }

  /** Once a tick no longer lists the id, none does. */
  ghost predicate StaysOut(ticks: seq<set<nat>>, id: nat) {
    forall j, k :: 0 <= j < k < |ticks| && id !in ticks[j] ==> id !in ticks[k]
  }

  /** A tick lists the id, a later one no longer does, and a still later one does again. */
  predicate TakenBack(ticks: seq<set<nat>>, id: nat, i: nat, j: nat, k: nat)
    requires i < j < k < |ticks|
  {
    id in ticks[i] && id !in ticks[j] && id in ticks[k]
  }

  ghost predicate NeverReadmitted(ticks: seq<set<nat>>, id: nat) {
    forall i: nat, j: nat, k: nat :: i < j < k < |ticks| ==> !TakenBack(ticks, id, i, j, k)
  }

  predicate Lists(step: Step, id: nat) {
    step.RetireStep? && id in step.active
  }

  predicate Drops(step: Step, id: nat) {
    step.RetireStep? && id !in step.active
  }

  // ---- The same conditions, step by step ----

  ghost predicate Away(steps: seq<Step>, id: nat)
    decreases steps
  {
    steps == [] || (!Lists(steps[0], id) && Away(steps[1..], id))
  }

  ghost predicate Staying(steps: seq<Step>, id: nat)
    decreases steps
  {
    steps == [] || if Drops(steps[0], id) then Away(steps[1..], id) else Staying(steps[1..], id)
  }

  ghost predicate Once(steps: seq<Step>, id: nat)
    decreases steps
  {
    steps == [] || if Lists(steps[0], id) then Staying(steps[1..], id) else Once(steps[1..], id)
  }

  lemma Shift(first: set<nat>, rest: seq<set<nat>>, k: nat)
    requires k < |rest|
    ensures ([first] + rest)[k + 1] == rest[k]
  {
  }

  lemma NeverListedNext(first: set<nat>, rest: seq<set<nat>>, id: nat)
    requires NeverListed([first] + rest, id)
    ensures id !in first && NeverListed(rest, id)
  {
    assert ([first] + rest)[0] == first;
    forall k | 0 <= k < |rest|
      ensures id !in rest[k]
    {
      Shift(first, rest, k);
    }
  }

  lemma StaysOutNext(first: set<nat>, rest: seq<set<nat>>, id: nat)
    requires StaysOut([first] + rest, id)
    ensures StaysOut(rest, id) && (id !in first ==> NeverListed(rest, id))
  {
    var ticks := [first] + rest;
    assert ticks[0] == first;
    forall j, k | 0 <= j < k < |rest| && id !in rest[j]
      ensures id !in rest[k]
    {
      Shift(first, rest, j);
      Shift(first, rest, k);
    }
    if id !in first {
      forall k | 0 <= k < |rest|
        ensures id !in rest[k]
      {
        Shift(first, rest, k);
      }
    }
  }

  lemma NeverReadmittedNext(first: set<nat>, rest: seq<set<nat>>, id: nat)
    requires NeverReadmitted([first] + rest, id)
    ensures NeverReadmitted(rest, id) && (id in first ==> StaysOut(rest, id))
  {
    var ticks := [first] + rest;
    assert ticks[0] == first;
    forall i: nat, j: nat, k: nat | i < j < k < |rest|
      ensures !TakenBack(rest, id, i, j, k)
    {
      Shift(first, rest, i);
      Shift(first, rest, j);
      Shift(first, rest, k);
      assert !TakenBack(ticks, id, i + 1, j + 1, k + 1);
    }
    if id in first {
      forall j, k | 0 <= j < k < |rest| && id !in rest[j]
        ensures id !in rest[k]
      {
        Shift(first, rest, j);
        Shift(first, rest, k);
        assert !TakenBack(ticks, id, 0, j + 1, k + 1);
      }
    }
  }

  lemma TicksNext(steps: seq<Step>)
    requires steps != []
    ensures Ticks(steps) == if steps[0].RetireStep? then [steps[0].active] + Ticks(steps[1..]) else Ticks(steps[1..])
  {
  }

  lemma {:induction false} AwayMeaning(steps: seq<Step>, id: nat)
    requires NeverListed(Ticks(steps), id)
    ensures Away(steps, id)
    decreases steps
  {
    if steps != [] {
      TicksNext(steps);
      if steps[0].RetireStep? {
        NeverListedNext(steps[0].active, Ticks(steps[1..]), id);
      }
      AwayMeaning(steps[1..], id);
    }
  }

  lemma {:induction false} StayingMeaning(steps: seq<Step>, id: nat)
    requires StaysOut(Ticks(steps), id)
    ensures Staying(steps, id)
    decreases steps
  {
    if steps != [] {
      TicksNext(steps);
      if steps[0].RetireStep? {
        StaysOutNext(steps[0].active, Ticks(steps[1..]), id);
      }
      if Drops(steps[0], id) {
        AwayMeaning(steps[1..], id);
      } else {
        StayingMeaning(steps[1..], id);
      }
    }
  }

  lemma {:induction false} OnceMeaning(steps: seq<Step>, id: nat)
    requires NeverReadmitted(Ticks(steps), id)
    ensures Once(steps, id)
    decreases steps
  {
    if steps != [] {
      TicksNext(steps);
      if steps[0].RetireStep? {
        NeverReadmittedNext(steps[0].active, Ticks(steps[1..]), id);
      }
      if Lists(steps[0], id) {
        StayingMeaning(steps[1..], id);
      } else {
        OnceMeaning(steps[1..], id);
      }
    }
  }

  // ---- Within the budget ----

  /** Only an active id is requested for. */
  lemma InactiveIsQuiet(cfg: Config, st: State, step: Step, id: nat)
    requires cfg.Valid() && Inv(cfg, st) && Enabled(cfg, st, step) && id !in st.active
    ensures !Submits(cfg, st, step, id)
    ensures id in Next(cfg, st, step).active <==> Lists(step, id)
    ensures id !in st.calls ==> id !in Next(cfg, st, step).calls
  {
    match step
    case RetireStep(active) => RetireShape(st, active);
    case RequestStep(f) => RequestedExactly(cfg, st, f);
    case StartStep => WorkerAddsNothing(cfg, st, step, id);
    case FinishStep(_, _) => WorkerAddsNothing(cfg, st, step, id);
  }

  lemma WorkerAddsNothing(cfg: Config, st: State, step: Step, id: nat)
    requires Inv(cfg, st) && Enabled(cfg, st, step) && WorkerStep(step)
    ensures Next(cfg, st, step).active == st.active
    ensures id !in st.calls ==> id !in Next(cfg, st, step).calls
  {
    WorkerKeepsCalls(cfg, st, step);
  }

  lemma {:induction false} OutForGood(cfg: Config, st: State, steps: seq<Step>, id: nat)
    requires cfg.Valid() && Inv(cfg, st) && IsRun(cfg, st, steps) && id !in st.active && Away(steps, id)
    ensures Submissions(cfg, st, steps, id) == 0
    decreases steps
  {
    if steps != [] {
      StepKeeps(cfg, st, steps[0]);
      InactiveIsQuiet(cfg, st, steps[0], id);
      OutForGood(cfg, Next(cfg, st, steps[0]), steps[1..], id);
    }
  }

  lemma {:induction false} WhileListed(cfg: Config, st: State, steps: seq<Step>, id: nat)
    requires cfg.Valid() && Inv(cfg, st) && IsRun(cfg, st, steps) && id in st.active && Staying(steps, id)
    ensures Get(st.calls, id) + Submissions(cfg, st, steps, id) <= Cap(cfg.budget)
    decreases steps
  {
    if steps != [] {
      StepKeeps(cfg, st, steps[0]);
      if Drops(steps[0], id) {
        OutForGood(cfg, Next(cfg, st, steps[0]), steps[1..], id);
      } else {
        StepKeepsActive(cfg, st, steps[0], id);
        StepCounts(cfg, st, steps[0], id);
        WhileListed(cfg, Next(cfg, st, steps[0]), steps[1..], id);
      }
    }
  }

  lemma {:induction false} BeforeListed(cfg: Config, st: State, steps: seq<Step>, id: nat)
    requires cfg.Valid() && Inv(cfg, st) && IsRun(cfg, st, steps) && id !in st.active && id !in st.calls
             && Once(steps, id)
    ensures Submissions(cfg, st, steps, id) <= Cap(cfg.budget)
    decreases steps
  {
    if steps != [] {
      StepKeeps(cfg, st, steps[0]);
      InactiveIsQuiet(cfg, st, steps[0], id);
      if Lists(steps[0], id) {
        WhileListed(cfg, Next(cfg, st, steps[0]), steps[1..], id);
      } else {
        BeforeListed(cfg, Next(cfg, st, steps[0]), steps[1..], id);
      }
    }
  }

  /** Whatever the workers and requests do, an id no tick takes back is submitted at most Cap times. */
  lemma NeverReadmittedStaysInBudget(cfg: Config, steps: seq<Step>, id: nat)
    requires cfg.Valid() && IsRun(cfg, EMPTY, steps) && NeverReadmitted(Ticks(steps), id)
    ensures Submissions(cfg, EMPTY, steps, id) <= Cap(cfg.budget)
  {
    EmptyIsFine(cfg);
    OnceMeaning(steps, id);
    BeforeListed(cfg, EMPTY, steps, id);
  }

  lemma NoBudgetNoRequest(cfg: Config, st: State, f: Facts)
    requires Inv(cfg, st) && cfg.budget.maxCalls <= 0
    ensures !Requested(cfg, st, f)
  {
    assert f.id in st.calls <==> f.id in st.lastPriority;
    if Requested(cfg, st, f) {
      RecallIsMoreUrgent(cfg, st, f);
    }
  }

  /** A budget of no calls grants none, recall or not. */
  lemma {:induction false} NoBudgetNoCalls(cfg: Config, st: State, steps: seq<Step>, id: nat)
    requires cfg.Valid() && Inv(cfg, st) && IsRun(cfg, st, steps) && cfg.budget.maxCalls <= 0
    ensures Submissions(cfg, st, steps, id) == 0
    decreases steps
  {
    if steps != [] {
      StepKeeps(cfg, st, steps[0]);
      if steps[0].RequestStep? {
        NoBudgetNoRequest(cfg, st, steps[0].facts);
      }
      NoBudgetNoCalls(cfg, Next(cfg, st, steps[0]), steps[1..], id);
    }
  }

  // ---- Over the budget ----

  predicate Idle(st: State) {
    st.queue == [] && st.running == []
  }

  function Retires(ticks: seq<set<nat>>): seq<Step>
    decreases ticks
  {
    if ticks == [] then [] else [RetireStep(ticks[0])] + Retires(ticks[1..])
  }

  lemma {:induction false} TicksConcat(a: seq<Step>, b: seq<Step>)
    ensures Ticks(a + b) == Ticks(a) + Ticks(b)
    decreases a
  {
    if a == [] {
      assert a + b == b;
    } else {
      assert (a + b)[0] == a[0] && (a + b)[1..] == a[1..] + b;
      TicksConcat(a[1..], b);
    }
  }

  /** A tick on a sidecar without work keeps the entries of listed ids only. */
  lemma IdleRetire(cfg: Config, st: State, active: set<nat>, id: nat)
    requires Inv(cfg, st) && Idle(st)
    ensures var post := Retire(st, active);
            Idle(post) && post.active == active && (id in post.calls <==> id in st.calls && id in active)
  {
    RetireShape(st, active);
    assert Get(st.pending, id) == Count(st.running, id) + Count(st.queue, id);
    if id in st.calls {
      RetireForgets(cfg, st, active, id);
    }
  }

  /** What a run from one state to another shows: its ticks, and how often it submits the id. */
  ghost predicate Leads(cfg: Config, st: State, steps: seq<Step>, post: State, ticks: seq<set<nat>>, id: nat,
                        count: nat) {
    && IsRun(cfg, st, steps) && After(cfg, st, steps) == post
    && Ticks(steps) == ticks && Submissions(cfg, st, steps, id) == count
  }

  lemma LeadsOn(cfg: Config, st: State, a: seq<Step>, mid: State, b: seq<Step>, post: State, first: seq<set<nat>>,
                second: seq<set<nat>>, id: nat, m: nat, n: nat)
    requires Leads(cfg, st, a, mid, first, id, m) && Leads(cfg, mid, b, post, second, id, n)
    ensures Leads(cfg, st, a + b, post, first + second, id, m + n)
  {
    RunConcat(cfg, st, a, b, id);
    TicksConcat(a, b);
  }

  lemma LeadsOne(cfg: Config, st: State, step: Step, id: nat)
    requires Enabled(cfg, st, step)
    ensures Leads(cfg, st, [step], Next(cfg, st, step), if step.RetireStep? then [step.active] else [], id,
                  if Submits(cfg, st, step, id) then 1 else 0)
  {
    OneStep(cfg, st, step, id);
    TicksNext([step]);
    assert [step][1..] == [];
  }

  ghost predicate ReadyAs(cfg: Config, st: State, s: State) {
    s == st ==> cfg.Valid() && Inv(cfg, s) && Idle(s)
  }

  /** The invariant without work. Quantified, so that a proof over several states sees it only where it asks for it. */
  ghost predicate Ready(cfg: Config, st: State) {
    forall s :: ReadyAs(cfg, st, s)
  }

  lemma OneTick(cfg: Config, st: State, active: set<nat>, id: nat) returns (post: State)
    requires Ready(cfg, st)
    ensures Ready(cfg, post) && Leads(cfg, st, [RetireStep(active)], post, [active], id, 0)
    ensures post.active == active && (id in post.calls ==> id in st.calls && id in active)
  {
    assert ReadyAs(cfg, st, st);
    StepKeeps(cfg, st, RetireStep(active));
    IdleRetire(cfg, st, active, id);
    LeadsOne(cfg, st, RetireStep(active), id);
    post := Retire(st, active);
  }

  /** Ticks without requests submit nothing, and the first one that does not list an id makes the sidecar forget it. */
  lemma {:induction false} TickOn(cfg: Config, st: State, ticks: seq<set<nat>>, id: nat) returns (post: State)
    requires Ready(cfg, st)
    ensures Ready(cfg, post) && Leads(cfg, st, Retires(ticks), post, ticks, id, 0)
    ensures ticks != [] ==> post.active == Last(ticks)
    ensures id in post.calls ==> id in st.calls && forall t :: t in ticks ==> id in t
    decreases ticks
  {
    post := st;
    if ticks != [] {
      var mid := OneTick(cfg, st, ticks[0], id);
      post := TickOn(cfg, mid, ticks[1..], id);
      LeadsOn(cfg, st, [RetireStep(ticks[0])], mid, Retires(ticks[1..]), post, [ticks[0]], ticks[1..], id, 0, 0);
      assert [ticks[0]] + ticks[1..] == ticks;
    }
  }

  /** A request, answered at once. */
  function Served(f: Facts): seq<Step> {
    [RequestStep(f)] + ([StartStep] + [FinishStep(0, Success)])
  }

  /** The states one such request goes through. */
  lemma ServedStates(cfg: Config, st: State, f: Facts)
    requires Ready(cfg, st) && Requested(cfg, st, f)
    ensures !Full(cfg, st) && Enabled(cfg, Request(cfg, st, f), StartStep)
    ensures Enabled(cfg, Start(Request(cfg, st, f)), FinishStep(0, Success))
    ensures var post := Finish(Start(Request(cfg, st, f)), 0, Success);
            && Idle(post) && post.active == st.active
            && Get(post.calls, f.id) == Get(st.calls, f.id) + 1 && LastOf(post, f.id) == Some(f.priority)
  {
    assert ReadyAs(cfg, st, st);
    RequestedExactly(cfg, st, f);
    var asked := Request(cfg, st, f);
    var w := NewWork(st, f.id, f.priority);
    assert asked.queue == [w] && IsLive(asked, w);
    var started := Start(asked);
    assert started.running == [w] && started.queue == [];
    assert started.calls == asked.calls && started.lastPriority == asked.lastPriority && started.active == st.active;
  }

  lemma ServeOn(cfg: Config, st: State, f: Facts) returns (post: State)
    requires Ready(cfg, st) && Requested(cfg, st, f)
    ensures Ready(cfg, post) && Leads(cfg, st, Served(f), post, [], f.id, 1)
    ensures post.active == st.active
    ensures Get(post.calls, f.id) == Get(st.calls, f.id) + 1 && LastOf(post, f.id) == Some(f.priority)
  {
    ServedStates(cfg, st, f);
    var asked := Request(cfg, st, f);
    var started := Start(asked);
    post := Finish(started, 0, Success);
    ServedLeads(cfg, st, asked, started, post, f);
    assert ReadyAs(cfg, st, st);
    RunKeeps(cfg, st, Served(f));
  }

  lemma ServedLeads(cfg: Config, st: State, asked: State, started: State, post: State, f: Facts)
    requires Submits(cfg, st, RequestStep(f), f.id) && Next(cfg, st, RequestStep(f)) == asked
    requires Enabled(cfg, asked, StartStep) && Next(cfg, asked, StartStep) == started
    requires Enabled(cfg, started, FinishStep(0, Success)) && Next(cfg, started, FinishStep(0, Success)) == post
    ensures Leads(cfg, st, Served(f), post, [], f.id, 1)
  {
    LeadsOne(cfg, st, RequestStep(f), f.id);
    LeadsOne(cfg, asked, StartStep, f.id);
    LeadsOne(cfg, started, FinishStep(0, Success), f.id);
    LeadsOn(cfg, asked, [StartStep], started, [FinishStep(0, Success)], post, [], [], f.id, 0, 0);
    LeadsOn(cfg, st, [RequestStep(f)], asked, [StartStep] + [FinishStep(0, Success)], post, [], [], f.id, 1, 0);
  }

  /** A signal the router wants under every policy. */
  function Wanted(id: nat, priority: Priority): Facts {
    Facts(id, priority, {"price_volume_expansion", "day_high_breakout"}, Some(1.0), None, None, LIVE, true)
  }

  lemma WantedIsRequested(cfg: Config, st: State, id: nat, priority: Priority)
    requires id in st.active && BudgetAllows(cfg.budget, Get(st.calls, id), priority, LastOf(st, id))
    ensures Requested(cfg, st, Wanted(id, priority))
  {
    var types := Wanted(id, priority).eventTypes;
    assert "price_volume_expansion" in types * PRICE && "price_volume_expansion" in types * VOLUME;
    assert "day_high_breakout" in types * BREAKOUT;
    RequestedExactly(cfg, st, Wanted(id, priority));
  }

  /** While calls are left a signal of any priority is served. */
  lemma ServeInfo(cfg: Config, st: State, id: nat) returns (post: State)
    requires Ready(cfg, st) && id in st.active && Get(st.calls, id) < cfg.budget.maxCalls
    ensures Ready(cfg, post) && Leads(cfg, st, Served(Wanted(id, Info)), post, [], id, 1)
    ensures post.active == st.active
    ensures Get(post.calls, id) == Get(st.calls, id) + 1 && LastOf(post, id) == Some(Info)
  {
    WantedIsRequested(cfg, st, id, Info);
    post := ServeOn(cfg, st, Wanted(id, Info));
  }

  function ServedTimes(f: Facts, n: nat): seq<Step> {
    if n == 0 then [] else ServedTimes(f, n - 1) + Served(f)
  }

  lemma ServeOneMore(cfg: Config, st: State, steps: seq<Step>, mid: State, id: nat, n: nat) returns (post: State)
    requires Ready(cfg, mid) && Leads(cfg, st, steps, mid, [], id, n)
    requires id in mid.active && Get(mid.calls, id) == n < cfg.budget.maxCalls
    ensures Ready(cfg, post) && Leads(cfg, st, steps + Served(Wanted(id, Info)), post, [], id, n + 1)
    ensures post.active == mid.active && Get(post.calls, id) == n + 1 && LastOf(post, id) == Some(Info)
  {
    post := ServeInfo(cfg, mid, id);
    LeadsOn(cfg, st, steps, mid, Served(Wanted(id, Info)), post, [], [], id, n, 1);
  }

  lemma {:induction false} ServeTimesOn(cfg: Config, st: State, id: nat, n: nat) returns (post: State)
    requires Ready(cfg, st) && id in st.active && id !in st.calls && n <= cfg.budget.maxCalls
    ensures Ready(cfg, post) && Leads(cfg, st, ServedTimes(Wanted(id, Info), n), post, [], id, n)
    ensures post.active == st.active && Get(post.calls, id) == n && (n > 0 ==> LastOf(post, id) == Some(Info))
  {
    post := st;
    if n > 0 {
      var mid := ServeTimesOn(cfg, st, id, n - 1);
      post := ServeOneMore(cfg, st, ServedTimes(Wanted(id, Info), n - 1), mid, id, n - 1);
    }
  }

  /** All the calls the budget grants an id, recall included. */
  lemma SpendAll(cfg: Config, st: State, id: nat) returns (steps: seq<Step>, post: State)
    requires Ready(cfg, st) && id in st.active && id !in st.calls && cfg.budget.maxCalls >= 1
    ensures Ready(cfg, post) && Leads(cfg, st, steps, post, [], id, Cap(cfg.budget))
  {
    var n := cfg.budget.maxCalls;
    steps := ServedTimes(Wanted(id, Info), n);
    post := ServeTimesOn(cfg, st, id, n);
    if cfg.budget.allowRecall {
      var f, mid := Wanted(id, Critical), post;
      WantedIsRequested(cfg, mid, id, Critical);
      post := ServeOn(cfg, mid, f);
      LeadsOn(cfg, st, steps, mid, Served(f), post, [], [], id, n, 1);
      steps := steps + Served(f);
    }
  }

  lemma ListAndServe(cfg: Config, st: State, upto: seq<set<nat>>, id: nat) returns (steps: seq<Step>, post: State)
    requires Ready(cfg, st) && id !in st.calls && cfg.budget.maxCalls >= 1 && upto != [] && id in Last(upto)
    ensures Ready(cfg, post) && Leads(cfg, st, steps, post, upto, id, 1)
  {
    var listed := TickOn(cfg, st, upto, id);
    post := ServeInfo(cfg, listed, id);
    LeadsOn(cfg, st, Retires(upto), listed, Served(Wanted(id, Info)), post, upto, [], id, 0, 1);
    steps := Retires(upto) + Served(Wanted(id, Info));
    ConcatEmpty(upto);
  }

  /** Listed, submitted once, dropped and listed again: the sidecar is as ready for the id as at the start. */
  lemma FirstLife(cfg: Config, st: State, upto: seq<set<nat>>, between: seq<set<nat>>, id: nat)
    returns (steps: seq<Step>, post: State)
    requires Ready(cfg, st) && id !in st.calls && cfg.budget.maxCalls >= 1
    requires upto != [] && id in Last(upto) && between != [] && id in Last(between)
    requires exists t :: t in between && id !in t
    ensures Ready(cfg, post) && Leads(cfg, st, steps, post, upto + between, id, 1)
    ensures id in post.active && id !in post.calls
  {
    var called;
    steps, called := ListAndServe(cfg, st, upto, id);
    post := TickOn(cfg, called, between, id);
    LeadsOn(cfg, st, steps, called, Retires(between), post, upto, between, id, 1, 0);
    steps := steps + Retires(between);
  }

  lemma SecondLife(cfg: Config, st: State, rest: seq<set<nat>>, id: nat) returns (steps: seq<Step>, post: State)
    requires Ready(cfg, st) && id in st.active && id !in st.calls && cfg.budget.maxCalls >= 1
    ensures Leads(cfg, st, steps, post, rest, id, Cap(cfg.budget))
  {
    var mid;
    steps, mid := SpendAll(cfg, st, id);
    post := TickOn(cfg, mid, rest, id);
    LeadsOn(cfg, st, steps, mid, Retires(rest), post, [], rest, id, Cap(cfg.budget), 0);
    steps := steps + Retires(rest);
    ConcatEmpty(rest);
  }

  lemma BothLives(cfg: Config, st: State, upto: seq<set<nat>>, between: seq<set<nat>>, rest: seq<set<nat>>, id: nat)
    returns (steps: seq<Step>, post: State)
    requires Ready(cfg, st) && id !in st.calls && cfg.budget.maxCalls >= 1
    requires upto != [] && id in Last(upto) && between != [] && id in Last(between)
    requires exists t :: t in between && id !in t
    ensures Leads(cfg, st, steps, post, upto + between + rest, id, Cap(cfg.budget) + 1)
  {
    var first, mid := FirstLife(cfg, st, upto, between, id);
    var second;
    second, post := SecondLife(cfg, mid, rest, id);
    LeadsOn(cfg, st, first, mid, second, post, upto + between, rest, id, 1, Cap(cfg.budget));
    steps := first + second;
  }

  /** If some tick takes the id back, some run with just these ticks submits it once more than the budget grants. */
  lemma ReturningIdIsCalledAgain(cfg: Config, ticks: seq<set<nat>>, id: nat, i: nat, j: nat, k: nat)
    returns (steps: seq<Step>)
    requires cfg.Valid() && cfg.budget.maxCalls >= 1
    requires i < j < k < |ticks| && TakenBack(ticks, id, i, j, k)
    ensures IsRun(cfg, EMPTY, steps) && Ticks(steps) == ticks
    ensures Submissions(cfg, EMPTY, steps, id) == Cap(cfg.budget) + 1
  {
    EmptyIsFine(cfg);
    var upto, between, rest := ticks[..i + 1], ticks[i + 1..k + 1], ticks[k + 1..];
    assert between[j - i - 1] == ticks[j] && ticks[j] in between;
    assert upto + between + rest == ticks;
    var post;
    steps, post := BothLives(cfg, EMPTY, upto, between, rest, id);
  }

  ghost predicate WithinBudget(cfg: Config, steps: seq<Step>, ticks: seq<set<nat>>, id: nat) {
    IsRun(cfg, EMPTY, steps) && Ticks(steps) == ticks ==> Submissions(cfg, EMPTY, steps, id) <= Cap(cfg.budget)
  }

  /** The budget holds per id in every run with these ticks exactly when no tick takes the id back (or nothing is ever
      granted). */
  lemma PromiseKeptExactly(cfg: Config, ticks: seq<set<nat>>, id: nat)
    requires cfg.Valid()
    ensures (forall steps :: WithinBudget(cfg, steps, ticks, id))
            <==> NeverReadmitted(ticks, id) || cfg.budget.maxCalls <= 0
  {
    if NeverReadmitted(ticks, id) || cfg.budget.maxCalls <= 0 {
      EmptyIsFine(cfg);
      forall steps
        ensures WithinBudget(cfg, steps, ticks, id)
      {
        if IsRun(cfg, EMPTY, steps) && Ticks(steps) == ticks {
          if NeverReadmitted(ticks, id) {
            NeverReadmittedStaysInBudget(cfg, steps, id);
          } else {
            NoBudgetNoCalls(cfg, EMPTY, steps, id);
          }
        }
      }
    } else {
      var i: nat, j: nat, k: nat :| i < j < k < |ticks| && TakenBack(ticks, id, i, j, k);
      var steps := ReturningIdIsCalledAgain(cfg, ticks, id, i, j, k);
      assert !WithinBudget(cfg, steps, ticks, id);
    }
  }
}
