/** The scheduler as the object the engine holds (scheduler/scheduler.py). Clock readings are parameters. */
module Scheduler {
  import opened Common
  import opened SchedulerModel

  class AdaptiveScheduler {
    const policy: Policy
    var levels: map<string, Level>
    var lastChange: map<string, real>
    var lastFetch: map<string, real>

    function View(): State
      reads this
    {
      State(levels, lastChange, lastFetch)
    }

    constructor (policy: Policy)
      ensures this.policy == policy && View() == INITIAL
    {
      this.policy := policy;
      levels := map[];
      lastChange := map[];
      lastFetch := map[];
    }

    method SetLevel(symbol: string, level: Level, force: bool, checkedAt: real, stampedAt: real)
      returns (granted: bool)
      modifies this
      ensures View() == SchedulerModel.SetLevel(policy, old(View()), symbol, level, force, checkedAt, stampedAt)
      ensures granted <==> Accepted(policy, old(View()), symbol, level, force, checkedAt)
      ensures granted ==> LevelOf(View(), symbol) == level
      ensures !granted ==> View() == old(View())
    {
      var current := LevelOf(View(), symbol);
      if level == current {
        if symbol !in levels {
          levels := levels[symbol := current];
        }
        assert levels == old(levels)[symbol := level];
        return true;
      }
      if !force && !DwellElapsed(policy, View(), symbol, current, level, checkedAt) {
        return false;
      }
      levels := levels[symbol := level];
      lastChange := lastChange[symbol := stampedAt];
      granted := true;
    }

    method MarkFetched(symbol: string, at: real)
      modifies this`lastFetch
      ensures View() == SchedulerModel.MarkFetched(old(View()), symbol, at)
    {
      lastFetch := lastFetch[symbol := at];
    }

    /** The symbols due now, in the order given. */
    method DueSymbols(symbols: seq<string>, now: real) returns (due: seq<string>)
      ensures due == DueAt(policy, View(), symbols, now)
    {
      due := [];
      for i := 0 to |symbols|
        invariant due == DueAt(policy, View(), symbols[..i], now)
      {
        var symbol := symbols[i];
        DueNext(policy, View(), symbols, now, i);
        if symbol !in lastFetch || now - lastFetch[symbol] >= Interval(policy, LevelOf(View(), symbol)) {
          due := due + [symbol];
        }
      }
      assert symbols[..|symbols|] == symbols;
    }

    method NextWaitSeconds(symbols: seq<string>, now: real) returns (wait: real)
      ensures wait == NextWait(policy, View(), symbols, now)
      ensures symbols != [] ==> wait >= 0.0
    {
      if symbols == [] {
        return 1.0;
      }
      wait := 0.0;
      for i := 0 to |symbols|
        invariant i > 0 ==> wait == NextWait(policy, View(), symbols[..i], now) && wait >= 0.0
      {
        var symbol := symbols[i];
        assert symbols[..i + 1][..i] == symbols[..i];
        var left := 0.0;
        if symbol in lastFetch {
          left := Interval(policy, LevelOf(View(), symbol)) - (now - lastFetch[symbol]);
          if left < 0.0 {
            left := 0.0;
          }
        }
        assert left == Remaining(policy, View(), symbol, now);
        if i == 0 || left < wait {
          wait := left;
        }
      }
      assert symbols[..|symbols|] == symbols;
    }
  }
}
