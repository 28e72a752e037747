/** Poll passes make progress, so a cascade deletion ends. */
module CascadeProgress {
  import opened OperationTypes
  import opened Scheduler
  import opened CascadeUtils
  import opened Protocol
  import opened CascadeSafety
  import opened CascadeOnce
  import opened Maintainer

  function PendingSet(t: Table): set<Row> {
    set i | 0 <= i < |t| && t[i].state.Pending?
  }

  /** Nothing in a cascade tree is being executed, the clock has moved since the trees were stored, and the newest
      operation on the resource of each pending row does not keep a deletion out. */
  ghost predicate Idle(s: State) {
    && (forall i | 0 <= i < |s.ops| && s.ops[i].root.Some? :: !s.ops[i].Started())
    && (forall i | 0 <= i < |s.ops| && s.ops[i].state.Pending? :: s.ops[i].updatedAt < s.now && Unblocked(s, i))
  }

  predicate Unblocked(s: State, i: Row)
    requires i < |s.ops|
  {
    var last := LastOperation(s.ops, s.ops[i].resource);
    last.Some? ==> !Conflicts(s.ops[i].(state := InProgress), s.ops[last.value])
  }

  // ----- a pass is a sequence of poll events -----

  /** The rows still to be polled are pending, each once, and the clock is past their creation. */
  ghost predicate Listed(s: State, rows: seq<Row>) {
    && (forall k | 0 <= k < |rows| ::
          && rows[k] < |s.ops| && s.ops[rows[k]].state.Pending? && s.ops[rows[k]].root.Some?
          && s.ops[rows[k]].category.Delete? && s.ops[rows[k]].updatedAt < s.now)
    && (forall a, b | 0 <= a < b < |rows| :: rows[a] != rows[b])
  }

  lemma PollKeepsListed(cfg: Settings, s: State, rows: seq<Row>, same: Row, free: bool, w: nat)
    requires Basic(s) && Listed(s, rows) && rows != [] && Enabled(cfg, s, Poll(rows[0], same, free, w))
    ensures Listed(PollOne(cfg, s, rows[0], same, free, w), rows[1..])
    ensures PendingSet(PollOne(cfg, s, rows[0], same, free, w).ops) <= PendingSet(s.ops)
  {
    PollRewrites(cfg, s, rows[0], same, free, w);
  }

  lemma PollStep(cfg: Settings, s: State, rows: seq<Row>, free: bool, w: nat)
    requires Basic(s) && Listed(s, rows) && rows != [] && forall v | v in s.workers :: v < w
    ensures var s' := PollOne(cfg, s, rows[0], LatestOnTarget(s.ops, rows[0]), free, w);
            && Basic(s') && Listed(s', rows[1..]) && |s'.ops| == |s.ops|
            && PendingSet(s'.ops) <= PendingSet(s.ops)
            && (forall v | v in s'.workers :: v < if Launched(s, s') then w + 1 else w)
  {
    var same := LatestOnTarget(s.ops, rows[0]);
    PollKeepsListed(cfg, s, rows, same, free, w);
    PollBasic(cfg, s, rows[0], same, free, w);
  }

  lemma {:induction false} PassKeeps(
    cfg: Settings, s: State, rows: seq<Row>, skip: set<string>, slots: nat, w: nat)
    requires Basic(s) && Listed(s, rows) && forall v | v in s.workers :: v < w
    ensures var s' := PollPass(cfg, s, rows, skip, slots, w);
            Basic(s') && |s'.ops| == |s.ops| && PendingSet(s'.ops) <= PendingSet(s.ops)
    decreases |rows|
  {
    if rows != [] {
      var row, rest := rows[0], rows[1..];
      if s.ops[row].resource.id in skip {
        PassKeeps(cfg, s, rest, skip, slots, w);
      } else {
        PollStep(cfg, s, rows, slots > 0, w);
        var same := LatestOnTarget(s.ops, row);
        var s' := PollOne(cfg, s, row, same, slots > 0, w);
        var launched := Launched(s, s');
        var skip' := if launched || SkipsDuplicate(s.ops, row, same) then skip + {s.ops[row].resource.id} else skip;
        PassKeeps(cfg, s', rest, skip', if launched && slots > 0 then slots - 1 else slots, if launched then w + 1 else w);
      }
    }
  }

  // ----- the lowest pending operation always moves -----

  lemma {:induction false} LowestPending(s: State, p: Row) returns (x: Row)
    requires Basic(s) && p < |s.ops| && s.ops[p].state.Pending?
    ensures x < |s.ops| && s.ops[x].state.Pending?
    ensures forall i | 0 <= i < |s.ops| && ChildOf(s.ops, i, x) :: !s.ops[i].state.Pending?
    decreases s.heights[p]
  {
    if c :| 0 <= c < |s.ops| && ChildOf(s.ops, c, p) && s.ops[c].state.Pending? {
      assert ShapeOk(s.ops, s.heights, c);
      x := LowestPending(s, c);
    } else {
      x := p;
    }
  }

  lemma LowestMoves(cfg: Settings, s: State, x: Row, w: nat)
    requires Basic(s) && Idle(s) && x < |s.ops| && s.ops[x].state.Pending? && Fresh(s, w)
    requires forall i | 0 <= i < |s.ops| && ChildOf(s.ops, i, x) :: !s.ops[i].state.Pending?
    ensures !PollOne(cfg, s, x, LatestOnTarget(s.ops, x), true, w).ops[x].state.Pending?
  {
    var same := LatestOnTarget(s.ops, x);
    DecisionMeaning(s.ops, x, same);
    assert BasicRow(s, x) && ShapeOk(s.ops, s.heights, x) && ShapeOk(s.ops, s.heights, same);
    forall i | 0 <= i < |s.ops| && ChildOf(s.ops, i, x) ensures s.ops[i].Terminal() {
      assert ShapeOk(s.ops, s.heights, i);
    }
    assert Unblocked(s, x);
  }

  /** Under the conditions of a pass, polling a row changes nothing or takes it out of PENDING. */
  lemma PollMovesOrKeeps(cfg: Settings, s: State, row: Row, free: bool, w: nat)
    requires Basic(s) && Idle(s) && row < |s.ops| && s.ops[row].state.Pending? && Fresh(s, w)
    ensures var same := LatestOnTarget(s.ops, row);
            var s' := PollOne(cfg, s, row, same, free, w);
            s'.ops[row].state.Pending? ==> s' == s && !Launched(s, s') && !SkipsDuplicate(s.ops, row, same)
  {
    var same := LatestOnTarget(s.ops, row);
    DecisionMeaning(s.ops, row, same);
    assert BasicRow(s, row) && ShapeOk(s.ops, s.heights, row);
    assert s.ops[same].root == s.ops[row].root;
  }

  lemma {:induction false} PassMoves(cfg: Settings, s: State, rows: seq<Row>, slots: nat, w: nat, x: Row)
    requires Basic(s) && Idle(s) && Listed(s, rows) && slots > 0
    requires forall v | v in s.workers :: v < w
    requires x in rows && forall i | 0 <= i < |s.ops| && ChildOf(s.ops, i, x) :: !s.ops[i].state.Pending?
    ensures PendingSet(PollPass(cfg, s, rows, {}, slots, w).ops) < PendingSet(s.ops)
    decreases |rows|
  {
    var row, rest := rows[0], rows[1..];
    var same := LatestOnTarget(s.ops, row);
    var s' := PollOne(cfg, s, row, same, true, w);
    PollMovesOrKeeps(cfg, s, row, true, w);
    if s'.ops[row].state.Pending? {
      if row == x {
        LowestMoves(cfg, s, x, w);
      } else {
        PassMoves(cfg, s, rest, slots, w, x);
      }
    } else {
      PollStep(cfg, s, rows, true, w);
      assert row in PendingSet(s.ops) && row !in PendingSet(s'.ops);
      var launched := Launched(s, s');
      var skip' := if launched || SkipsDuplicate(s.ops, row, same) then {} + {s.ops[row].resource.id} else {};
      PassKeeps(cfg, s', rest, skip', if launched && slots > 0 then slots - 1 else slots, if launched then w + 1 else w);
    }
  }

  /** The state after one whole pass. */
  function AfterPass(cfg: Settings, s: State, slots: nat, w: nat): State {
    PollPass(cfg, s, PendingRows(s.ops), {}, slots, w)
  }

  /** Progress: while something is pending and nothing is at work, one pass with a free worker takes at least one
      operation out of PENDING and puts none back. */
  lemma PassMakesProgress(cfg: Settings, s: State, slots: nat, w: nat)
    requires Basic(s) && Idle(s) && slots > 0
    requires (forall v | v in s.workers :: v < w) && PendingSet(s.ops) != {}
    ensures PendingSet(AfterPass(cfg, s, slots, w).ops) < PendingSet(s.ops)
    ensures Basic(AfterPass(cfg, s, slots, w))
  {
    var p :| p in PendingSet(s.ops);
    var x := LowestPending(s, p);
    var rows := PendingRows(s.ops);
    assert BasicRow(s, x);
    assert x in rows;
    forall k | 0 <= k < |rows| ensures rows[k] in rows {}
    assert Listed(s, rows);
    PassMoves(cfg, s, rows, slots, w, x);
    PassKeeps(cfg, s, rows, {}, slots, w);
  }

  // ----- rounds -----

  /** The events lead from s to s', and none of them stores a new tree. */
  ghost predicate Leads(cfg: Settings, s: State, events: seq<Event>, s': State)
    decreases |events|
  {
    if events == [] then s' == s
    else Enabled(cfg, s, events[0]) && !events[0].SubmitTree? && Leads(cfg, Next(cfg, s, events[0]), events[1..], s')
  }

  lemma EventShrinksPending(cfg: Settings, s: State, e: Event)
    requires Basic(s) && Enabled(cfg, s, e) && !e.SubmitTree?
    ensures PendingSet(Next(cfg, s, e).ops) <= PendingSet(s.ops)
  {
    match e {
      case Poll(row, same, free, w) => PollRewrites(cfg, s, row, same, free, w);
      case Submit(_, _, _) =>
      case Crash(_) =>
      case Tick(_) =>
      case _ => EventRewrites(cfg, s, e);
    }
  }

  lemma {:induction false} LeadsShrinks(cfg: Settings, s: State, events: seq<Event>, s': State)
    requires Basic(s) && Leads(cfg, s, events, s')
    ensures Basic(s') && PendingSet(s'.ops) <= PendingSet(s.ops)
    decreases |events|
  {
    if events != [] {
      EventShrinksPending(cfg, s, events[0]);
      BasicNext(cfg, s, events[0]);
      LeadsShrinks(cfg, Next(cfg, s, events[0]), events[1..], s');
    }
  }

  /** Rounds: a pass over an idle table with something pending, then any events at all until the table is idle again. */
  datatype Round = Round(slots: nat, w: nat, events: seq<Event>)

  ghost predicate Rounds(cfg: Settings, states: seq<State>, rounds: seq<Round>) {
    && |states| == |rounds| + 1
    && forall k | 0 <= k < |rounds| ::
         && Idle(states[k]) && PendingSet(states[k].ops) != {}
         && rounds[k].slots > 0 && (forall v | v in states[k].workers :: v < rounds[k].w)
         && Leads(cfg, AfterPass(cfg, states[k], rounds[k].slots, rounds[k].w), rounds[k].events, states[k + 1])
  }

  lemma SmallerSet(a: set<Row>, b: set<Row>)
    requires a < b
    ensures |a| < |b|
  {
    var x :| x in b && x !in a;
    SubsetSize(a, b - {x});
  }

  lemma {:induction false} SubsetSize(a: set<Row>, b: set<Row>)
    requires a <= b
    ensures |a| <= |b|
    decreases a
  {
    if a != {} {
      var x :| x in a;
      SubsetSize(a - {x}, b - {x});
    }
  }

  lemma OneRound(cfg: Settings, s: State, round: Round, s': State)
    requires Basic(s) && Idle(s)
    requires PendingSet(s.ops) != {} && round.slots > 0 && forall v | v in s.workers :: v < round.w
    requires Leads(cfg, AfterPass(cfg, s, round.slots, round.w), round.events, s')
    ensures Basic(s') && |PendingSet(s'.ops)| < |PendingSet(s.ops)|
  {
    PassMakesProgress(cfg, s, round.slots, round.w);
    LeadsShrinks(cfg, AfterPass(cfg, s, round.slots, round.w), round.events, s');
    SmallerSet(PendingSet(s'.ops), PendingSet(s.ops));
  }

  lemma {:induction false} RoundsAreBounded(cfg: Settings, states: seq<State>, rounds: seq<Round>)
    requires Rounds(cfg, states, rounds) && Basic(states[0])
    ensures |rounds| <= |PendingSet(states[0].ops)|
    decreases |rounds|
  {
    if rounds != [] {
      OneRound(cfg, states[0], rounds[0], states[1]);
      RoundsAreBounded(cfg, states[1..], rounds[1..]);
    }
  }

  /** A cascade deletion ends: wherever a run has come to, its n pending operations leave room for at most n rounds,
      whatever the jobs do, and the first pass of any round already takes one of them up. */
  lemma CascadeTerminates(cfg: Settings, run: seq<State>, events: seq<Event>, states: seq<State>, rounds: seq<Round>)
    requires IsRun(cfg, run, events)
    requires Rounds(cfg, states, rounds) && states[0] == run[|run| - 1]
    ensures |rounds| <= |PendingSet(states[0].ops)|
    ensures rounds != [] ==>
              PendingSet(AfterPass(cfg, states[0], rounds[0].slots, rounds[0].w).ops) < PendingSet(states[0].ops)
  {
    RunIsBasic(cfg, run, events, |run| - 1);
    RoundsAreBounded(cfg, states, rounds);
    if rounds != [] {
      PassMakesProgress(cfg, states[0], rounds[0].slots, rounds[0].w);
    }
  }
}
