/** What every step of the composer keeps: distinct identities, traces that match, members that belong. */
module ComposerInvariant {
  import opened Common
  import opened Domain
  import opened Cluster
  import opened ComposerModel

  // ---- The invariant ----

  /** Members of an episode belong to its symbol and lineage and have its direction or none, oldest first. */
  ghost predicate MembersOk(k: Key, members: seq<MarketEvent>) {
    && members != []
    && Ordered(members)
    && forall e :: e in members ==>
         e.symbol == k.symbol && LineageOf(e.kind) == k.lineage && (e.direction == k.direction || e.direction == NONE)
  }

  ghost predicate SignalOk(k: Key, s: Signal) {
    && s.symbol == k.symbol
    && s.direction == k.direction
    && MembersOk(k, s.members)
    && s.marketTs == Last(s.members).marketTs
  }

  ghost predicate DistinctIds(active: map<Key, Signal>) {
    forall k1, k2 :: k1 in active && k2 in active && active[k1].id == active[k2].id ==> k1 == k2
  }

  /** The trace map holds one trace per active episode, and nothing else. */
  ghost predicate Traced(active: map<Key, Signal>, traces: map<nat, SignalTrace>) {
    && (forall k :: k in active ==> active[k].id in traces && traces[active[k].id] == TraceOf(active[k]))
    && (forall i :: i in traces ==> HasId(active, i))
  }

  ghost predicate HasId(active: map<Key, Signal>, id: nat) {
    exists k :: k in active && active[k].id == id
  }

  ghost predicate AcceptedOk(accepted: map<string, seq<MarketEvent>>) {
    forall s, e :: s in accepted && e in accepted[s] ==> e.symbol == s
  }

  ghost predicate SignalsOk(active: map<Key, Signal>) {
    forall k :: k in active ==> SignalOk(k, active[k])
  }

  ghost predicate IdsOk(st: State) {
    && (forall k :: k in st.active ==> st.active[k].id < st.nextId)
    && DistinctIds(st.active)
  }

  ghost predicate Inv(st: State) {
    && SignalsOk(st.active)
    && IdsOk(st)
    && Traced(st.active, st.traces)
    && AcceptedOk(st.accepted)
  }

  /** No active episode is older than the cutoff. */
  ghost predicate AllLive(st: State, cutoff: real) {
    forall k :: k in st.active ==> st.active[k].marketTs >= cutoff
  }

  // ---- How identities move ----

  /** The episode at key k in `post` continues one of `pre`: same key, or a NONE episode of the same symbol and
      lineage whose identity a directional episode took over. */
  ghost predicate Inherits(pre: State, k: Key, s: Signal) {
    || (k in pre.active && pre.active[k].id == s.id && pre.active[k].createdTs == s.createdTs)
    || (&& k.direction != NONE
        && NoneKey(k.symbol, k.lineage) in pre.active
        && pre.active[NoneKey(k.symbol, k.lineage)].id == s.id
        && pre.active[NoneKey(k.symbol, k.lineage)].createdTs == s.createdTs)
  }

  /** Every episode of `post` continues one of `pre` or carries an id that `pre` had not handed out. */
  ghost predicate Evolves(pre: State, post: State) {
    && pre.nextId <= post.nextId
    && forall k :: k in post.active ==>
         post.active[k].id >= pre.nextId || Inherits(pre, k, post.active[k])
  }

  lemma EvolvesTransitive(a: State, b: State, c: State)
    requires Evolves(a, b) && Evolves(b, c)
    ensures Evolves(a, c)
  {
    forall k | k in c.active && c.active[k].id < a.nextId
      ensures Inherits(a, k, c.active[k])
    {
      assert Inherits(b, k, c.active[k]);
      var from := if k in b.active && b.active[k].id == c.active[k].id && b.active[k].createdTs == c.active[k].createdTs
                  then k else NoneKey(k.symbol, k.lineage);
      assert Inherits(a, from, b.active[from]);
    }
  }

  /** An old id that nobody holds is not held later either. */
  lemma EvolvesDropsId(pre: State, post: State, id: nat)
    requires Evolves(pre, post) && id < pre.nextId && !HasId(pre.active, id)
    ensures !HasId(post.active, id)
  {
    forall k | k in post.active
      ensures post.active[k].id != id
    {
      if post.active[k].id < pre.nextId {
        assert Inherits(pre, k, post.active[k]);
      }
    }
  }

  // ---- Pruning ----

  lemma PruneActiveKeeps(st: State, cutoff: real)
    requires Inv(st)
    ensures var post := PruneActive(st, cutoff);
            Inv(post) && AllLive(post, cutoff) && Evolves(st, post)
  {
    var post := PruneActive(st, cutoff);
    var expired := ExpiredKeys(st, cutoff);
    forall k | k in post.active
      ensures post.active[k].id in post.traces
    {
      assert st.active[k].id !in SignalIds(st.active, expired);
    }
    forall i | i in post.traces
      ensures HasId(post.active, i)
    {
      assert HasId(st.active, i);
      var k :| k in st.active && st.active[k].id == i;
      assert i !in SignalIds(st.active, expired);
      assert k in post.active && post.active[k].id == i;
    }
  }

  lemma AdmitKeeps(st: State, symbol: string, batch: seq<MarketEvent>, tick: Tick)
    requires Inv(st)
    requires forall e :: e in batch ==> e.symbol == symbol
    ensures var post := Admit(st, symbol, batch, tick);
            Inv(post) && AllLive(post, tick.Cutoff()) && Evolves(st, post)
  {
    var mid := st.(accepted := st.accepted[symbol := Recent(AcceptedOf(st, symbol) + batch, tick.Cutoff())]);
    assert Inv(mid);
    PruneActiveKeeps(mid, tick.Cutoff());
  }

  lemma PruneKeeps(st: State, symbol: string, tick: Tick)
    requires Inv(st)
    ensures var post := Prune(st, symbol, tick);
            Inv(post) && AllLive(post, tick.Cutoff()) && Evolves(st, post)
  {
    AdmitKeeps(st, symbol, [], tick);
    assert AcceptedOf(st, symbol) + [] == AcceptedOf(st, symbol);
  }

  // ---- Composing one episode ----

  /** What resolving an identity does to the active map: it stays, or it loses the NONE episode whose id is used. */
  lemma ResolveFrame(st: State, stolen: StolenSet, key: Key, tick: Tick)
    requires AllLive(st, tick.Cutoff())
    ensures var who := ResolveIdentity(st, stolen, key, tick);
            var none := NoneKey(key.symbol, key.lineage);
            && who.st.accepted == st.accepted && who.st.traces == st.traces
            && st.nextId <= who.st.nextId
            && (|| (key in st.active && who.st.active == st.active && who.id == st.active[key].id
                    && who.created == st.active[key].createdTs)
                || (key !in st.active && key.direction != NONE && none in st.active && who.id == st.active[none].id
                    && who.created == st.active[none].createdTs && who.st.active == st.active - {none})
                || (key !in st.active && who.st.active == st.active && who.id == st.nextId < who.st.nextId))
  {
  }

  /** The identity handed out is unused outside the key it will be written to. */
  lemma IdentityIsFree(st: State, stolen: StolenSet, key: Key, tick: Tick)
    requires IdsOk(st) && AllLive(st, tick.Cutoff())
    ensures var who := ResolveIdentity(st, stolen, key, tick);
            && who.id < who.st.nextId
            && (forall k :: k in who.st.active && k != key ==> who.st.active[k].id != who.id)
  {
    ResolveFrame(st, stolen, key, tick);
  }

  lemma ComposeKeepsIds(st: State, stolen: StolenSet, key: Key, members: seq<MarketEvent>, tick: Tick)
    requires IdsOk(st) && AllLive(st, tick.Cutoff())
    requires members != []
    ensures IdsOk(ComposeEpisode(st, stolen, key, members, tick).st)
  {
    ResolveFrame(st, stolen, key, tick);
    IdentityIsFree(st, stolen, key, tick);
  }

  /** Writing a signal and its trace keeps the two maps in step when the only episode that may have vanished
      is the one whose id the signal carries on. */
  lemma WriteKeepsTraced(before: map<Key, Signal>, traces: map<nat, SignalTrace>, rest: map<Key, Signal>,
                         key: Key, signal: Signal)
    requires Traced(before, traces)
    requires forall k :: k in rest ==> k in before && rest[k] == before[k]
    requires forall k :: k in before && before[k].id != signal.id ==> k in rest
    requires forall k :: k in rest && k != key ==> rest[k].id != signal.id
    requires key in rest ==> rest[key].id == signal.id
    ensures Traced(rest[key := signal], traces[signal.id := TraceOf(signal)])
  {
    var active := rest[key := signal];
    forall i | i in traces[signal.id := TraceOf(signal)]
      ensures HasId(active, i)
    {
      if i == signal.id {
        assert key in active && active[key].id == i;
      } else {
        assert HasId(before, i);
        var k :| k in before && before[k].id == i;
        assert k in active && active[k].id == i;
      }
    }
  }

  lemma ComposeKeepsTraces(st: State, stolen: StolenSet, key: Key, members: seq<MarketEvent>, tick: Tick)
    requires IdsOk(st) && Traced(st.active, st.traces) && AllLive(st, tick.Cutoff())
    requires members != []
    ensures var post := ComposeEpisode(st, stolen, key, members, tick).st;
            Traced(post.active, post.traces)
  {
    ResolveFrame(st, stolen, key, tick);
    IdentityIsFree(st, stolen, key, tick);
    var who := ResolveIdentity(st, stolen, key, tick);
    WriteKeepsTraced(st.active, st.traces, who.st.active, key, BuildSignal(who.id, key, members, who.created));
  }

  lemma ComposeEvolves(st: State, stolen: StolenSet, key: Key, members: seq<MarketEvent>, tick: Tick)
    requires AllLive(st, tick.Cutoff())
    requires members != []
    ensures Evolves(st, ComposeEpisode(st, stolen, key, members, tick).st)
  {
    ResolveFrame(st, stolen, key, tick);
  }

  lemma ComposeKeeps(st: State, stolen: StolenSet, key: Key, members: seq<MarketEvent>, tick: Tick)
    requires Inv(st) && AllLive(st, tick.Cutoff())
    requires MembersOk(key, members)
    requires forall e :: e in members ==> e.marketTs >= tick.Cutoff()
    ensures var post := ComposeEpisode(st, stolen, key, members, tick).st;
            Inv(post) && AllLive(post, tick.Cutoff()) && Evolves(st, post)
  {
    ComposeKeepsIds(st, stolen, key, members, tick);
    ComposeKeepsTraces(st, stolen, key, members, tick);
    ComposeEvolves(st, stolen, key, members, tick);
    ComposeKeepsSignals(st, stolen, key, members, tick);
  }

  lemma BuiltIsOk(id: nat, key: Key, members: seq<MarketEvent>, created: real, cutoff: real)
    requires MembersOk(key, members)
    requires forall e :: e in members ==> e.marketTs >= cutoff
    ensures var s := BuildSignal(id, key, members, created); SignalOk(key, s) && s.marketTs >= cutoff
  {
    assert Last(members) in members;
  }

  lemma WriteKeepsSignals(before: map<Key, Signal>, rest: map<Key, Signal>, key: Key, signal: Signal, cutoff: real)
    requires SignalsOk(before) && forall k :: k in before ==> before[k].marketTs >= cutoff
    requires forall k :: k in rest ==> k in before && rest[k] == before[k]
    requires SignalOk(key, signal) && signal.marketTs >= cutoff
    ensures var active := rest[key := signal];
            SignalsOk(active) && forall k :: k in active ==> active[k].marketTs >= cutoff
  {
  }

  lemma ComposeKeepsSignals(st: State, stolen: StolenSet, key: Key, members: seq<MarketEvent>, tick: Tick)
    requires SignalsOk(st.active) && AllLive(st, tick.Cutoff())
    requires MembersOk(key, members)
    requires forall e :: e in members ==> e.marketTs >= tick.Cutoff()
    ensures var post := ComposeEpisode(st, stolen, key, members, tick).st;
            SignalsOk(post.active) && AllLive(post, tick.Cutoff()) && post.accepted == st.accepted
  {
    ResolveFrame(st, stolen, key, tick);
    var who := ResolveIdentity(st, stolen, key, tick);
    BuiltIsOk(who.id, key, members, who.created, tick.Cutoff());
    WriteKeepsSignals(st.active, who.st.active, key, BuildSignal(who.id, key, members, who.created), tick.Cutoff());
  }

  /** Composing one episode touches its own key and, at most, takes the symbol's NONE episode away. */
  lemma ComposeFrame(st: State, stolen: StolenSet, key: Key, members: seq<MarketEvent>, tick: Tick)
    requires members != []
    ensures var c := ComposeEpisode(st, stolen, key, members, tick);
            && key in c.st.active && c.st.active[key] == c.made.signal
            && c.made.trace == TraceOf(c.made.signal)
            && c.made.signal.members == members
            && c.st.accepted == st.accepted
            && (forall k :: k != key && k != NoneKey(key.symbol, key.lineage) ==>
                  (k in c.st.active <==> k in st.active) && (k in st.active ==> c.st.active[k] == st.active[k]))
  {
  }
}
