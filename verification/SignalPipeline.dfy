/** One market tick: dedupe every detected event, compose episodes, gate alerts (signals/pipeline.py). */
module SignalPipeline {
  import opened Common
  import opened Domain
  import opened ComposerModel
  import opened ComposerInvariant
  import opened ComposerBatch
  import opened ComposerSymbol
  import opened ComposerFresh
  import opened ComposerTheorems
  import SignalComposer
  import opened ComposerHistory
  import opened PipelineAlerts
  import Dedupe
  import Cooldown

  datatype PipelineResult = PipelineResult(
    accepted: seq<MarketEvent>,
    updates: seq<Signal>,
    traces: seq<SignalTrace>,
    alerts: seq<Signal>)

  lemma AskSteps(produced: seq<Produced>, mono: Readings, i: nat)
    requires i < |produced|
    ensures produced[i..][0] == produced[i] && produced[i..][1..] == produced[i + 1..]
    ensures var asks := AsksOf(produced, mono);
            asks[i..][0] == AskOf(produced[i], mono(i)) && asks[i..][1..] == asks[i + 1..]
  {
  }

  lemma SignalsOneMore(alerts: seq<Alert>, a: Alert)
    ensures SignalsOf(alerts + [a]) == SignalsOf(alerts) + [a.signal]
  {
  }

  class Pipeline {
    const composer: SignalComposer.Composer
    const deduper: Dedupe.EventDeduper
    const gate: Cooldown.CooldownGate

    constructor (lookback: real, cooldown: real)
      ensures fresh(composer) && fresh(deduper) && fresh(gate)
      ensures composer.Valid() && composer.St() == EMPTY && composer.lookback == lookback
      ensures deduper.records == map[] && gate.last == map[] && gate.cooldown == cooldown
    {
      composer := new SignalComposer.Composer(lookback);
      deduper := new Dedupe.EventDeduper();
      gate := new Cooldown.CooldownGate(cooldown);
    }

    method AcceptAll(detected: seq<MarketEvent>) returns (accepted: seq<MarketEvent>)
      modifies deduper
      ensures accepted == Dedupe.Kept(old(deduper.records), detected)
      ensures deduper.records == Dedupe.AfterEvents(old(deduper.records), detected)
    {
      accepted := [];
      ghost var start := deduper.records;
      assert detected[0..] == detected;
      for i := 0 to |detected|
        invariant Dedupe.Kept(start, detected) == accepted + Dedupe.Kept(deduper.records, detected[i..])
        invariant Dedupe.AfterEvents(start, detected) == Dedupe.AfterEvents(deduper.records, detected[i..])
      {
        assert detected[i..][0] == detected[i] && detected[i..][1..] == detected[i + 1..];
        var kept := deduper.Accept(detected[i]);
        ghost var rest := Dedupe.Kept(deduper.records, detected[i + 1..]);
        if kept.Some? {
          assert accepted + ([detected[i]] + rest) == (accepted + [detected[i]]) + rest;
          accepted := accepted + [kept.value];
        } else {
          assert [] + rest == rest;
        }
      }
    }

    /** Asks the gate about each produced signal. The suppression of an id met twice in one tick is dead code. */
    method GateAlerts(produced: seq<Produced>, mono: Readings) returns (alerts: seq<Signal>)
      requires DistinctProduced(produced)
      modifies gate
      ensures alerts == SignalsOf(Alerted(old(gate.last), gate.cooldown, produced, AsksOf(produced, mono)))
      ensures gate.last == Cooldown.AfterAsks(old(gate.last), gate.cooldown, AsksOf(produced, mono))
    {
      var seen: set<nat> := {};
      alerts := [];
      ghost var raised: seq<Alert> := [];
      ghost var asks := AsksOf(produced, mono);
      ghost var all := Alerted(gate.last, gate.cooldown, produced, asks);
      ghost var after := Cooldown.AfterAsks(gate.last, gate.cooldown, asks);
      assert produced[0..] == produced && asks[0..] == asks;
      for i := 0 to |produced|
        invariant forall id :: id in seen ==> exists j :: 0 <= j < i && produced[j].signal.id == id
        invariant alerts == SignalsOf(raised)
        invariant all == raised + Alerted(gate.last, gate.cooldown, produced[i..], asks[i..])
        invariant after == Cooldown.AfterAsks(gate.last, gate.cooldown, asks[i..])
      {
        var signal := produced[i].signal;
        AskSteps(produced, mono, i);
        if signal.id in seen {
          assert false;  // the same-tick-duplicate branch is never taken
        }
        seen := seen + {signal.id};
        var allowed := gate.Allow(signal.id, signal.priority, mono(i));
        ghost var rest := Alerted(gate.last, gate.cooldown, produced[i + 1..], asks[i + 1..]);
        if allowed {
          ConcatAssoc(raised, [Alert(signal, mono(i))], rest);
          SignalsOneMore(raised, Alert(signal, mono(i)));
          raised := raised + [Alert(signal, mono(i))];
          alerts := alerts + [signal];
        } else {
          ConcatEmpty(rest);
        }
      }
    }

    lemma PlacedAreUpdates(produced: seq<Produced>, symbol: string)
      requires composer.Valid()
      requires forall p :: p in produced ==> Placed(composer.St(), p) && p.signal.symbol == symbol
      ensures forall p :: p in produced ==> p.signal in composer.ActiveSignals(symbol)
    {
      forall p | p in produced
        ensures p.signal in composer.ActiveSignals(symbol)
      {
        assert KeyOf(p.signal) in composer.active && KeyOf(p.signal).symbol == symbol;
      }
    }

    method ComposeOrPrune(symbol: string, accepted: seq<MarketEvent>, now: real, wall: WallClock)
      returns (produced: seq<Produced>)
      requires composer.Valid() && OneSymbol(accepted, symbol)
      modifies composer
      ensures composer.Valid() && DistinctProduced(produced)
      ensures produced == ConsumeBatch(old(composer.St()), accepted, composer.lookback, wall).produced
      ensures composer.St() == if accepted != []
                               then ConsumeBatch(old(composer.St()), accepted, composer.lookback, wall).st
                               else Prune(old(composer.St()), symbol, Tick(now, composer.lookback, STOPPED))
      ensures forall p :: p in produced ==> Placed(composer.St(), p) && p.signal.symbol == symbol
    {
      produced := [];
      if accepted != [] {
        OneSymbolStaysActive(composer.St(), accepted, composer.lookback, wall, symbol);
        produced := composer.ConsumeAll(accepted, wall);
      } else {
        assert ConsumeBatch(composer.St(), accepted, composer.lookback, wall).produced == [];
        composer.PruneQuiet(symbol, now);
      }
    }

    /** Runs one tick of a symbol. The detector builds every event from the symbol's own features. */
    method Process(symbol: string, detected: seq<MarketEvent>, now: real, wall: WallClock, mono: Readings)
      returns (result: PipelineResult, produced: seq<Produced>)
      requires composer.Valid() && OneSymbol(detected, symbol)
      modifies composer, deduper, gate
      ensures composer.Valid()
      ensures result.accepted == Dedupe.Kept(old(deduper.records), detected)
      ensures deduper.records == Dedupe.AfterEvents(old(deduper.records), detected)
      ensures produced == ConsumeBatch(old(composer.St()), result.accepted, composer.lookback, wall).produced
      ensures composer.St() == if result.accepted != []
                               then ConsumeBatch(old(composer.St()), result.accepted, composer.lookback, wall).st
                               else Prune(old(composer.St()), symbol, Tick(now, composer.lookback, STOPPED))
      ensures result.updates == composer.ActiveSignals(symbol)
      ensures |result.traces| == |result.updates|
      ensures forall i :: 0 <= i < |result.traces| ==> result.traces[i] == TraceOf(result.updates[i])
      ensures result.alerts == SignalsOf(Alerted(old(gate.last), gate.cooldown, produced, AsksOf(produced, mono)))
      ensures gate.last == Cooldown.AfterAsks(old(gate.last), gate.cooldown, AsksOf(produced, mono))
      // Every produced signal, hence every alert, is among the updates, and no id is produced twice.
      ensures forall p :: p in produced ==> p.signal in result.updates
      ensures Among(result.alerts, result.updates)
    {
      var accepted := AcceptAll(detected);
      produced := ComposeOrPrune(symbol, accepted, now, wall);
      var updates, traces, alerts := Publish(symbol, produced, mono);
      result := PipelineResult(accepted, updates, traces, alerts);
    }

    method Publish(symbol: string, produced: seq<Produced>, mono: Readings)
      returns (updates: seq<Signal>, traces: seq<SignalTrace>, alerts: seq<Signal>)
      requires composer.Valid() && DistinctProduced(produced)
      requires forall p :: p in produced ==> Placed(composer.St(), p) && p.signal.symbol == symbol
      modifies gate
      ensures updates == composer.ActiveSignals(symbol) && |traces| == |updates|
      ensures forall i :: 0 <= i < |traces| ==> traces[i] == TraceOf(updates[i])
      ensures alerts == SignalsOf(Alerted(old(gate.last), gate.cooldown, produced, AsksOf(produced, mono)))
      ensures gate.last == Cooldown.AfterAsks(old(gate.last), gate.cooldown, AsksOf(produced, mono))
      ensures forall p :: p in produced ==> p.signal in updates
      ensures Among(alerts, updates)
    {
      updates, traces := Report(symbol, produced);
      AlertsAmong(gate.last, gate.cooldown, produced, AsksOf(produced, mono), updates);
      alerts := GateAlerts(produced, mono);
    }

    /** The symbol's active signals with their traces; what was just produced is among them. */
    method Report(symbol: string, produced: seq<Produced>) returns (updates: seq<Signal>, traces: seq<SignalTrace>)
      requires composer.Valid()
      requires forall p :: p in produced ==> Placed(composer.St(), p) && p.signal.symbol == symbol
      ensures updates == composer.ActiveSignals(symbol) && |traces| == |updates|
      ensures forall i :: 0 <= i < |traces| ==> traces[i] == TraceOf(updates[i])
      ensures forall p :: p in produced ==> p.signal in updates
    {
      updates := composer.ActiveSignals(symbol);
      PlacedAreUpdates(produced, symbol);
      traces := CollectTraces(updates, symbol);
    }

    /** Looks up the trace of every update; the look-up never misses. */
    method CollectTraces(updates: seq<Signal>, symbol: string) returns (traces: seq<SignalTrace>)
      requires composer.Valid() && updates == composer.ActiveSignals(symbol)
      ensures |traces| == |updates|
      ensures forall i :: 0 <= i < |traces| ==> traces[i] == TraceOf(updates[i])
    {
      composer.UpdatesAreTraced(symbol);
      traces := LookUp(updates);
    }

    method LookUp(updates: seq<Signal>) returns (traces: seq<SignalTrace>)
      requires forall s :: s in updates ==> s.id in composer.traces && composer.traces[s.id] == TraceOf(s)
      ensures |traces| == |updates|
      ensures forall i :: 0 <= i < |traces| ==> traces[i] == TraceOf(updates[i])
    {
      traces := [];
      for i := 0 to |updates|
        invariant |traces| == i
        invariant forall j :: 0 <= j < i ==> traces[j] == TraceOf(updates[j])
      {
        assert updates[i] in updates;
        var trace := composer.TraceFor(updates[i].id);
        traces := traces + [trace];
      }
    }
  }
}
