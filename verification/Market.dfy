/** Market snapshots. Market time is a count of microseconds. */
module Market {
  import opened Common

  type Ticks = int

  datatype Snapshot = Snapshot(symbol: string, time: Ticks, price: real, volume: real, turnover: Option<real>)
}
