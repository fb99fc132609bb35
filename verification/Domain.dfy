/** The market vocabulary: event types, directions, priorities, events, signals and traces. */
module Domain {

  datatype EventType =
    | RapidMove
    | VolumeSpike
    | PriceVolumeExpansion
    | DayHighBreakout
    | DayLowBreakdown
    | VwapCross

  datatype Direction = NONE | UP | DOWN

  datatype Lineage = Tape | Vwap

  datatype Family = PriceVolume | Breakout | Breakdown | Volume | Move | VwapFamily | Other

  datatype Priority = Info | Notice | Important | Critical

  function Rank(p: Priority): (r: nat)
    ensures 1 <= r <= 4
  {
    match p
    case Info => 1
    case Notice => 2
    case Important => 3
    case Critical => 4
  }

  /** An objective market fact. Ids are opaque: only their equality and their order are used. */
  datatype MarketEvent = MarketEvent(
    id: int,
    symbol: string,
    kind: EventType,
    direction: Direction,
    severity: int,
    marketTs: real,
    receivedTs: real,
    detectedTs: real,
    dedupeKey: string,
    ttl: real,
    ruleName: string)

  /** One look-back-continuous episode of a symbol, lineage and direction; it carries its member events. */
  datatype Signal = Signal(
    id: nat,
    members: seq<MarketEvent>,
    symbol: string,
    family: Family,
    direction: Direction,
    priority: Priority,
    marketTs: real,
    receivedTs: real,
    detectedTs: real,
    createdTs: real)

  datatype SignalTrace = SignalTrace(
    signalId: nat,
    members: seq<MarketEvent>,
    ruleNames: seq<string>,
    family: Family,
    direction: Direction,
    priority: Priority,
    detectedTs: real,
    createdTs: real)

  /** The slot of an episode in the composer. */
  datatype Key = Key(symbol: string, lineage: Lineage, direction: Direction)

  function IdsOf(events: seq<MarketEvent>): (r: set<int>)
    ensures forall e :: e in events ==> e.id in r
  {
    set e | e in events :: e.id
  }
}
