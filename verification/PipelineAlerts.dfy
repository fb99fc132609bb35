/** The alerts of a run of ticks, and how few of them one episode gets (signals/pipeline.py, signals/cooldown.py). */
module PipelineAlerts {
  import opened Common
  import opened Domain
  import opened ComposerModel
  import opened Cooldown

  /** A signal the gate let through, and the clock reading of its question. */
  datatype Alert = Alert(signal: Signal, at: real) {
    function Question(): Ask {
      Ask(signal.id, signal.priority, at)
    }
  }

  /** The clock is read anew for every question. */
  type Readings = nat -> real

  function AskOf(p: Produced, mono: real): Ask {
    Ask(p.signal.id, p.signal.priority, mono)
  }

  function AsksOf(produced: seq<Produced>, mono: Readings): (asks: seq<Ask>)
    ensures AsksFor(asks, produced)
  {
    var asks := seq(|produced|, i requires 0 <= i < |produced| => AskOf(produced[i], mono(i)));
    assert forall i :: 0 <= i < |asks| ==> asks[i] == AskOf(produced[i], mono(i));
    asks
  }

  predicate AsksFor(asks: seq<Ask>, produced: seq<Produced>) {
    && |asks| == |produced|
    && forall i :: 0 <= i < |asks| ==>
         asks[i].id == produced[i].signal.id && asks[i].priority == produced[i].signal.priority
  }

  /** What the gate lets through of a tick's signals. */
  function Alerted(last: Stamps, cooldown: real, produced: seq<Produced>, asks: seq<Ask>): seq<Alert>
    requires AsksFor(asks, produced)
    decreases asks
  {
    if asks == [] then []
    else
      (if Allows(last, cooldown, asks[0]) then [Alert(produced[0].signal, asks[0].mono)] else [])
      + Alerted(AfterAsk(last, cooldown, asks[0]), cooldown, produced[1..], asks[1..])
  }

  function SignalsOf(alerts: seq<Alert>): seq<Signal> {
    seq(|alerts|, i requires 0 <= i < |alerts| => alerts[i].signal)
  }

  function Questions(alerts: seq<Alert>): seq<Ask> {
    seq(|alerts|, i requires 0 <= i < |alerts| => alerts[i].Question())
  }

  lemma {:induction false} AlertedAmong(last: Stamps, cooldown: real, produced: seq<Produced>, asks: seq<Ask>,
                                        updates: seq<Signal>)
    requires AsksFor(asks, produced) && forall p :: p in produced ==> p.signal in updates
    ensures forall a :: a in Alerted(last, cooldown, produced, asks) ==> a.signal in updates
    decreases asks
  {
    if asks != [] {
      AlertedAmong(AfterAsk(last, cooldown, asks[0]), cooldown, produced[1..], asks[1..], updates);
    }
  }

  ghost predicate Among(signals: seq<Signal>, updates: seq<Signal>) {
    forall s :: s in signals ==> s in updates
  }

  lemma AlertsAmong(last: Stamps, cooldown: real, produced: seq<Produced>, asks: seq<Ask>, updates: seq<Signal>)
    requires AsksFor(asks, produced) && forall p :: p in produced ==> p.signal in updates
    ensures Among(SignalsOf(Alerted(last, cooldown, produced, asks)), updates)
  {
    AlertedAmong(last, cooldown, produced, asks, updates);
  }

  /** A tick's alerts are the gate's positive answers to its questions. */
  lemma {:induction false} AlertedAnswers(last: Stamps, cooldown: real, produced: seq<Produced>, asks: seq<Ask>)
    requires AsksFor(asks, produced)
    ensures Questions(Alerted(last, cooldown, produced, asks)) == Alerts(last, cooldown, asks)
    decreases asks
  {
    if asks != [] {
      var mid := AfterAsk(last, cooldown, asks[0]);
      AlertedAnswers(mid, cooldown, produced[1..], asks[1..]);
      var first := if Allows(last, cooldown, asks[0]) then [Alert(produced[0].signal, asks[0].mono)] else [];
      QuestionsConcat(first, Alerted(mid, cooldown, produced[1..], asks[1..]));
    }
  }

  lemma QuestionsConcat(a: seq<Alert>, b: seq<Alert>)
    ensures Questions(a + b) == Questions(a) + Questions(b)
  {
  }

  // ---- Runs of ticks ----

  /** What one tick produced, and the readings of the clock at its questions. */
  datatype Batch = Batch(produced: seq<Produced>, mono: Readings) {
    function Asks(): seq<Ask> {
      AsksOf(produced, mono)
    }
  }

  function AllAsks(ticks: seq<Batch>): seq<Ask>
    decreases ticks
  {
    if ticks == [] then [] else ticks[0].Asks() + AllAsks(ticks[1..])
  }

  /** The alerts of a run of ticks; each tick finds the gate as the tick before left it. */
  function AllAlerted(last: Stamps, cooldown: real, ticks: seq<Batch>): seq<Alert>
    decreases ticks
  {
    if ticks == [] then []
    else
      Alerted(last, cooldown, ticks[0].produced, ticks[0].Asks())
      + AllAlerted(AfterAsks(last, cooldown, ticks[0].Asks()), cooldown, ticks[1..])
  }

  lemma {:induction false} AlertsConcat(last: Stamps, cooldown: real, a: seq<Ask>, b: seq<Ask>)
    ensures Alerts(last, cooldown, a + b)
            == Alerts(last, cooldown, a) + Alerts(AfterAsks(last, cooldown, a), cooldown, b)
    decreases a
  {
    if a == [] {
      assert a + b == b;
      ConcatEmpty(Alerts(last, cooldown, b));
    } else {
      assert (a + b)[0] == a[0] && (a + b)[1..] == a[1..] + b;
      var mid := AfterAsk(last, cooldown, a[0]);
      AlertsConcat(mid, cooldown, a[1..], b);
      ConcatAssoc(if Allows(last, cooldown, a[0]) then [a[0]] else [], Alerts(mid, cooldown, a[1..]),
                  Alerts(AfterAsks(mid, cooldown, a[1..]), cooldown, b));
    }
  }

  lemma {:induction false} AllAlertedAnswers(last: Stamps, cooldown: real, ticks: seq<Batch>)
    ensures Questions(AllAlerted(last, cooldown, ticks)) == Alerts(last, cooldown, AllAsks(ticks))
    decreases ticks
  {
    if ticks != [] {
      var asks := ticks[0].Asks();
      var mid := AfterAsks(last, cooldown, asks);
      AlertedAnswers(last, cooldown, ticks[0].produced, asks);
      AllAlertedAnswers(mid, cooldown, ticks[1..]);
      QuestionsConcat(Alerted(last, cooldown, ticks[0].produced, asks), AllAlerted(mid, cooldown, ticks[1..]));
      AlertsConcat(last, cooldown, asks, AllAsks(ticks[1..]));
    }
  }

  /** The alerts of one episode. */
  function OfEpisode(alerts: seq<Alert>, id: nat): seq<Alert> {
    Filter(alerts, (a: Alert) => a.signal.id == id)
  }

  lemma {:induction false} EpisodeQuestions(alerts: seq<Alert>, id: nat)
    ensures Questions(OfEpisode(alerts, id)) == OfId(Questions(alerts), id)
  {
    if alerts != [] {
      assert Questions(alerts)[0] == alerts[0].Question() && Questions(alerts)[1..] == Questions(alerts[1..]);
      EpisodeQuestions(alerts[1..], id);
      QuestionsConcat([alerts[0]], OfEpisode(alerts[1..], id));
    }
  }

  /** Alerts closer than the cooldown rise in priority, so few fit in. */
  ghost predicate Few(alerts: seq<Alert>, cooldown: real, i: nat, j: nat)
    requires i < j < |alerts|
  {
    && alerts[i].at <= alerts[j].at
    && (alerts[j].at - alerts[i].at < cooldown ==>
          Rank(alerts[i].signal.priority) < Rank(alerts[j].signal.priority) && j - i <= 3)
  }

  lemma SpacedAreFew(alerts: seq<Alert>, asks: seq<Ask>, cooldown: real, i: nat, j: nat)
    requires Questions(alerts) == asks && Spaced(asks, cooldown) && i < j < |alerts|
    ensures Few(alerts, cooldown, i, j)
  {
    assert asks[i] == alerts[i].Question() && asks[j] == alerts[j].Question();
    SpacedPairs(asks, cooldown, i, j);
    if alerts[j].at - alerts[i].at < cooldown {
      SpacedWindow(asks, cooldown, i, j + 1);
    }
  }

  /** Over any run of ticks: alerts of one episode closer than the cooldown rise strictly in priority, so that at most
      four of them fall inside a window shorter than the cooldown. */
  lemma RunAlertsFew(cooldown: real, ticks: seq<Batch>, id: nat, i: nat, j: nat)
    requires Forward(AllAsks(ticks))
    requires i < j < |OfEpisode(AllAlerted(map[], cooldown, ticks), id)|
    ensures Few(OfEpisode(AllAlerted(map[], cooldown, ticks), id), cooldown, i, j)
  {
    AllAlertedAnswers(map[], cooldown, ticks);
    EpisodeQuestions(AllAlerted(map[], cooldown, ticks), id);
    RunFromStart(AllAsks(ticks), cooldown, id);
    SpacedAreFew(OfEpisode(AllAlerted(map[], cooldown, ticks), id), OfId(Alerts(map[], cooldown, AllAsks(ticks)), id),
                 cooldown, i, j);
  }
}
