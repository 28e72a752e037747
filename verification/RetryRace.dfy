/** Terminal states are absorbing exactly when no retry can sleep longer than the action timeout. */
module RetryRace {
  import opened OperationTypes
  import opened Wrappers
  import opened Protocol
  import Lifecycle

  predicate KeepsTerminal(s: State, s': State) {
    forall row | 0 <= row < |s.ops| && s.ops[row].Terminal() :: row < |s'.ops| && s'.ops[row] == s.ops[row]
  }

  /** In every run, a terminal operation keeps its row from then on. */
  ghost predicate TerminalStatesAbsorb(cfg: Settings) {
    forall states: seq<State>, events: seq<Event> | IsRun(cfg, states, events) ::
      forall i, j | 0 <= i <= j < |states| :: KeepsTerminal(states[i], states[j])
  }

  lemma Extend(cfg: Settings, states: seq<State>, events: seq<Event>, e: Event)
    returns (states': seq<State>, events': seq<Event>)
    requires IsRun(cfg, states, events) && Enabled(cfg, states[|events|], e)
    ensures states' == states + [Next(cfg, states[|events|], e)] && events' == events + [e]
    ensures IsRun(cfg, states', events')
  {
    states', events' := states + [Next(cfg, states[|events|], e)], events + [e];
  }

  /** One deletion, failed and in mitigation, sleeps past the moment at which the sweep takes over its row. */
  ghost predicate Asleep(cfg: Settings, s: State, w: nat) {
    && |s.ops| == 1 && s.workers.Keys == {w} && s.workers[w].Waiting? && s.workers[w].row == 0
    && var op := s.ops[0];
    && s.workers[w].op == op
    && op.category.Delete? && op.state.Failed? && op.root.None? && op.resource.id != ""
    && op.deletionScheduled == Some(0) && op.createdAt == 0 && op.updatedAt == s.now && !op.reschedule
    && 0 <= s.now && s.now + cfg.actionTimeout + 1 <= s.workers[w].due
  }

  const START := State([], [], map[], 0, {}, {}, {}, map[])
  const DELETION := Operation(Delete, InProgress, Resource("r", ServiceInstance), None, None, false, 0, 0, None, false, NoErrors)

  lemma Begin(cfg: Settings) returns (states: seq<State>, events: seq<Event>)
    requires cfg.Positive()
    ensures IsRun(cfg, states, events)
    ensures states[|events|].ops == [DELETION.(deletionScheduled := Some(0))] && states[|events|].now == 0
    ensures states[|events|].workers == map[0 := Running(0, cfg.actionTimeout, states[|events|].ops[0])]
  {
    states, events := [START], [];
    states, events := Extend(cfg, states, events, Submit(DELETION, true, 0));
    states, events := Extend(cfg, states, events, Mark(0, true, false));
  }

  lemma SleepShort(cfg: Settings) returns (states: seq<State>, events: seq<Event>)
    requires cfg.Positive() && cfg.shortDelay > cfg.actionTimeout
    ensures IsRun(cfg, states, events) && Asleep(cfg, states[|events|], 0)
    ensures states[|events|].now == 0 && states[|events|].workers[0].due == cfg.shortDelay
  {
    states, events := Begin(cfg);
    states, events := Extend(cfg, states, events, Finish(0, ActionFailed("broker error", false)));
  }

  /** The second attempt runs, after one short delay. */
  lemma SecondAttempt(cfg: Settings) returns (states: seq<State>, events: seq<Event>)
    requires cfg.Positive() && cfg.shortDelay <= cfg.actionTimeout
    requires cfg.reconciliationTimeout >= 2 * cfg.actionTimeout + 2
    ensures IsRun(cfg, states, events)
    ensures var s := states[|events|]; var a := cfg.actionTimeout;
            && |s.ops| == 1 && s.now == a + cfg.shortDelay && s.workers == map[1 := Running(0, 2 * a + cfg.shortDelay, s.ops[0])]
            && s.ops[0] == DELETION.(state := Failed, deletionScheduled := Some(0), updatedAt := s.now,
                                                     errors := s.ops[0].errors)
  {
    var a := cfg.actionTimeout;
    states, events := Begin(cfg);
    states, events := Extend(cfg, states, events, Tick(a));
    states, events := Extend(cfg, states, events, Finish(0, ActionFailed("broker error", false)));
    states, events := Extend(cfg, states, events, Tick(a + cfg.shortDelay));
    states, events := Extend(cfg, states, events, Wake(0, true, 1));
  }

  lemma SleepLong(cfg: Settings) returns (states: seq<State>, events: seq<Event>)
    requires cfg.Positive() && cfg.shortDelay <= cfg.actionTimeout < cfg.longDelay
    requires cfg.reconciliationTimeout >= 2 * cfg.actionTimeout + 2
    ensures IsRun(cfg, states, events) && Asleep(cfg, states[|events|], 1)
    ensures var s := states[|events|];
            s.now == 2 * cfg.actionTimeout + 1 && s.workers[1].due == s.now + cfg.longDelay
  {
    states, events := SecondAttempt(cfg);
    states, events := Extend(cfg, states, events, Tick(2 * cfg.actionTimeout + 1));
    states, events := Extend(cfg, states, events, Finish(1, ActionFailed("broker error", false)));
  }

  /** One of the two delays, where it exceeds the action timeout and can be chosen. */
  lemma Sleep(cfg: Settings) returns (states: seq<State>, events: seq<Event>, w: nat)
    requires cfg.Positive() && !cfg.RetriesBeforeSweep()
    ensures IsRun(cfg, states, events) && Asleep(cfg, states[|events|], w)
    ensures var s, a := states[|events|], cfg.actionTimeout;
            || (cfg.shortDelay > a && s.now == 0 && s.workers[w].due == cfg.shortDelay)
            || (cfg.shortDelay <= a && s.now == 2 * a + 1 && s.workers[w].due == s.now + cfg.longDelay)
  {
    if cfg.shortDelay > cfg.actionTimeout {
      w := 0;
      states, events := SleepShort(cfg);
    } else {
      w := 1;
      states, events := SleepLong(cfg);
    }
  }

  /** The last event of the run writes a row that was terminal. */
  ghost predicate Overwrites(states: seq<State>, events: seq<Event>) {
    |states| == |events| + 1 && events != [] && !KeepsTerminal(states[|events| - 1], states[|events|])
  }

  /** The sweep finishes the deletion; then the sleeping goroutine writes its old copy over the result. */
  lemma Overwrite(cfg: Settings, states0: seq<State>, events0: seq<Event>, w: nat)
    returns (states: seq<State>, events: seq<Event>)
    requires cfg.Positive() && IsRun(cfg, states0, events0) && Asleep(cfg, states0[|events0|], w)
    requires states0[|events0|].now + cfg.actionTimeout + 1 <= cfg.reconciliationTimeout
    ensures IsRun(cfg, states, events) && Overwrites(states, events)
    ensures var n := |events|;
            |states[n - 1].ops| == |states[n].ops| == 1 && states[n - 1].ops[0].Done() && states[n].ops[0].state.Failed?
  {
    var due := states0[|events0|].workers[w].due;
    states, events := Extend(cfg, states0, events0, Tick(states0[|events0|].now + cfg.actionTimeout + 1));
    states, events := Extend(cfg, states, events, SweepMitigation(0, true, w + 1));
    states, events := Extend(cfg, states, events, Finish(w + 1, ActionDone));
    states, events := Extend(cfg, states, events, Tick(due));
    states, events := Extend(cfg, states, events, Wake(w, true, w + 2));
    assert states[|events| - 1].ops[0].Terminal();
  }

  /** Where the sweep comes too late to finish it, it gives the operation up; the goroutine does so again later. */
  lemma GiveUpTwice(cfg: Settings, states0: seq<State>, events0: seq<Event>, w: nat)
    returns (states: seq<State>, events: seq<Event>)
    requires cfg.Positive() && IsRun(cfg, states0, events0) && Asleep(cfg, states0[|events0|], w)
    requires states0[|events0|].now + cfg.actionTimeout + 1 > cfg.reconciliationTimeout
    requires states0[|events0|].now + cfg.actionTimeout + 1 < states0[|events0|].workers[w].due
    ensures IsRun(cfg, states, events) && Overwrites(states, events)
  {
    var s := states0[|events0|];
    states, events := Extend(cfg, states0, events0, Tick(s.now + cfg.actionTimeout + 1));
    states, events := Extend(cfg, states, events, SweepMitigation(0, true, w + 1));
    states, events := Extend(cfg, states, events, Tick(s.workers[w].due));
    states, events := Extend(cfg, states, events, Wake(w, true, w + 2));
    assert states[|events| - 1].ops[0].Terminal();
  }

  /** The sweep can come no sooner than the retry, at the same instant, and both come too late. */
  predicate Coincides(cfg: Settings) {
    var a, r := cfg.actionTimeout, cfg.reconciliationTimeout;
    || (cfg.shortDelay == a + 1 && r <= a)
    || (cfg.shortDelay <= a && cfg.longDelay == a + 1 && 2 * a + 2 <= r <= 3 * a + 1)
  }

  lemma Race(cfg: Settings) returns (states: seq<State>, events: seq<Event>)
    requires cfg.Positive() && !Coincides(cfg) && !cfg.RetriesBeforeSweep()
    ensures IsRun(cfg, states, events) && Overwrites(states, events)
  {
    var w;
    states, events, w := Sleep(cfg);
    if states[|events|].now + cfg.actionTimeout + 1 <= cfg.reconciliationTimeout {
      states, events := Overwrite(cfg, states, events, w);
    } else {
      states, events := GiveUpTwice(cfg, states, events, w);
    }
  }

  /** Terminal states absorb if and only if no retry can sleep longer than the action timeout; left open are the settings
      where a delay exceeds it by the smallest amount and the reconciliation timeout is over by then. */
  lemma AbsorbingIff(cfg: Settings)
    requires cfg.Positive() && !Coincides(cfg)
    ensures TerminalStatesAbsorb(cfg) <==> cfg.RetriesBeforeSweep()
  {
    if cfg.RetriesBeforeSweep() {
      forall states: seq<State>, events: seq<Event>, i, j | IsRun(cfg, states, events) && 0 <= i <= j < |states|
        ensures KeepsTerminal(states[i], states[j])
      {
        forall row | 0 <= row < |states[i].ops| && states[i].ops[row].Terminal()
          ensures row < |states[j].ops| && states[j].ops[row] == states[i].ops[row]
        {
          Lifecycle.TerminalIsAbsorbing(cfg, states, events, i, j, row);
        }
      }
    } else {
      var states, events := Race(cfg);
      assert !KeepsTerminal(states[|events| - 1], states[|events|]);
    }
  }

  /** The default settings: retries sleep for an hour, but an operation looks abandoned after fifteen minutes. */
  const DEFAULT_SETTINGS := Settings(15 * 60, 7 * 24 * 3600, 6 * 3600, 10, 3600)

  lemma DefaultsDoNotAbsorb()
    ensures !TerminalStatesAbsorb(DEFAULT_SETTINGS)
  {
    AbsorbingIff(DEFAULT_SETTINGS);
  }
}
