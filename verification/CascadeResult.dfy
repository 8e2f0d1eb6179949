/**
 Order independence of the whole result of a cascade.  Beyond the skipped set, every
 execution row, counter, sibling-cancel flag and pending-cancel row is a function of which
 edges were advanced with which outcome.
 */
module CascadeResult {
  import opened Common
  import opened EdgePolicy
  import opened FlowModel
  import opened FlowGraph
  import opened FlowCounters
  import opened Cascade
  import opened Confluence

  ghost predicate TouchedBy(w0: World, w: World, k: EdgeKey, g: GroupKey) {
    k in w.advanced && k !in w0.advanced && k in w.db.edges && GroupOf(w.db.edges, k) == g
  }

  /** The run from `w0` to `w` has advanced some edge into the group. */
  ghost predicate Touched(w0: World, w: World, g: GroupKey) {
    exists k :: TouchedBy(w0, w, k, g)
  }

  ghost predicate WinsCancelling(w0: World, w: World, g: GroupKey) {
    g in w.db.groups && Touched(w0, w, g) && w.db.groups[g].Decision() == Satisfied(true)
  }

  /** An execution's row, from its row before the run and its own group's decision now. */
  ghost function RowNow(w0: World, w: World, x: ExecId): Exec
    requires x in w0.db.execs
  {
    var row := w0.db.execs[x];
    if row.flow.Some? && GroupKey(row.flow.value, x) in w.db.groups && Touched(w0, w, GroupKey(row.flow.value, x))
    then AfterDecision(row, w.db.groups[GroupKey(row.flow.value, x)].Decision())
    else row
  }

  ghost predicate RowsInv(w0: World, w: World) {
    && w.db.execs.Keys == w0.db.execs.Keys
    && forall x :: x in w0.db.execs ==> w.db.execs[x] == RowNow(w0, w, x)
  }

  ghost predicate FlagsInv(w0: World, w: World) {
    && w.db.groups.Keys == w0.db.groups.Keys
    && (forall g :: g in w0.db.groups ==>
          (w.db.groups[g].flagged <==> w0.db.groups[g].flagged || WinsCancelling(w0, w, g)))
    && PendingInv(w0, w)
  }

  ghost predicate PendingInv(w0: World, w: World) {
    forall g :: g in w.db.pendingCancel <==>
      g in w0.db.pendingCancel || (WinsCancelling(w0, w, g) && g in w0.db.groups && !w0.db.groups[g].flagged)
  }

  lemma RowsRefl(w: World)
    ensures RowsInv(w, w) && FlagsInv(w, w)
  {
  }

  lemma SameTouched(w0: World, w: World, w': World)
    requires w'.advanced == w.advanced && w'.db.edges == w.db.edges
    ensures forall g :: Touched(w0, w', g) <==> Touched(w0, w, g)
  {
    forall g ensures Touched(w0, w', g) <==> Touched(w0, w, g) {
      if k :| TouchedBy(w0, w, k, g) { assert TouchedBy(w0, w', k, g); }
      if k :| TouchedBy(w0, w', k, g) { assert TouchedBy(w0, w, k, g); }
    }
  }

  lemma AdvanceTouches(w0: World, w: World, t: Task)
    requires TasksInv(w) && t in w.tasks && t.edge !in w0.advanced
    ensures forall g :: Touched(w0, AdvanceTask(w, t), g) <==> Touched(w0, w, g) || g == TaskGroup(w, t)
  {
    var w' := AdvanceTask(w, t);
    assert TouchedBy(w0, w', t.edge, TaskGroup(w, t));
    forall g ensures Touched(w0, w', g) <==> Touched(w0, w, g) || g == TaskGroup(w, t) {
      if k :| TouchedBy(w0, w, k, g) { assert TouchedBy(w0, w', k, g); }
      if k :| TouchedBy(w0, w', k, g) { assert k != t.edge ==> TouchedBy(w0, w, k, g); }
    }
  }

  lemma ClaimKeepsRows(w0: World, w: World, e: EventId)
    requires RowsInv(w0, w) && FlagsInv(w0, w) && Claimable(w.db, e)
    ensures RowsInv(w0, ClaimEvent(w, e)) && FlagsInv(w0, ClaimEvent(w, e))
  {
    SameTouched(w0, w, ClaimEvent(w, e));
  }

  /** Carrying out the later decision alone gives the row of carrying out both. */
  lemma RowStep(row: Exec, touched: bool, d1: Decision, d2: Decision)
    requires d1.Pending? || d1 == d2
    ensures AfterDecision(if touched then AfterDecision(row, d1) else row, d2) == AfterDecision(row, d2)
  {
  }

  lemma TaskGroupRuns(w: World, t: Task)
    requires CountInv(w) && TasksInv(w) && t in w.tasks
    ensures TaskGroup(w, t) in w.db.groups
    ensures var r := w.db.groups[TaskGroup(w, t)]; 0 <= r.success && 0 <= r.fail && 0 <= r.skip && 0 < r.running
  {
    var g := TaskGroup(w, t);
    assert GroupOf(w.db.edges, t.edge) == g;
    assert CountersRight(w.db.groups[g], w.db.edges, w.advanced, g);
    assert t.edge in Waiting(w.db.edges, w.advanced, g);
  }

  lemma HopWrites(db: Db, g: GroupKey, up: ExecId, o: Outcome)
    requires g in db.groups
    ensures var db', d := Advance(db, g, up, o), db.groups[g].Bump(o).Decision();
      && db'.groups.Keys == db.groups.Keys
      && db'.groups[g].Decision() == d
      && (db'.groups[g].flagged <==> db.groups[g].flagged || d == Satisfied(true))
      && (forall h :: h in db.groups && h != g ==> db'.groups[h] == db.groups[h])
      && db'.pendingCancel == db.pendingCancel + (if d == Satisfied(true) && !db.groups[g].flagged then {g} else {})
      && db'.execs.Keys == db.execs.Keys
      && (g.down in db.execs ==> db'.execs[g.down] == AfterDecision(db.execs[g.down], d))
      && (forall x :: x in db.execs && x != g.down ==> db'.execs[x] == db.execs[x])
  {
  }

  lemma TaskGroupStable(w: World, t: Task)
    requires CountInv(w) && TasksInv(w) && t in w.tasks
    ensures var g, o := TaskGroup(w, t), TaskOutcome(w, t);
      g in w.db.groups
      && (w.db.groups[g].Decision().Pending? || w.db.groups[g].Bump(o).Decision() == w.db.groups[g].Decision())
  {
    TaskGroupRuns(w, t);
    if !w.db.groups[TaskGroup(w, t)].Decision().Pending? {
      HopKeepsDecisionIff(w.db.groups[TaskGroup(w, t)], TaskOutcome(w, t));
    }
  }

  lemma AdvanceKeepsRows(w0: World, w: World, t: Task)
    requires CountInv(w) && TasksInv(w) && t in w.tasks && t.edge !in w0.advanced
    requires w.db.edges == w0.db.edges && EdgeJoinsMembers(w0.db, t.edge) && RowsInv(w0, w)
    ensures RowsInv(w0, AdvanceTask(w, t))
  {
    var w', g := AdvanceTask(w, t), TaskGroup(w, t);
    AdvanceTouches(w0, w, t);
    TaskGroupStable(w, t);
    HopWrites(w.db, g, w.db.events[t.event].exec, TaskOutcome(w, t));
    assert w0.db.execs[g.down].flow == Some(g.flow);
    RowStep(w0.db.execs[g.down], Touched(w0, w, g), w.db.groups[g].Decision(), w'.db.groups[g].Decision());
  }

  lemma WinsAfterHop(w0: World, w: World, t: Task, h: GroupKey)
    requires TasksInv(w) && t in w.tasks && t.edge !in w0.advanced && TaskGroup(w, t) in w.db.groups
    ensures WinsCancelling(w0, AdvanceTask(w, t), h) <==>
      if h == TaskGroup(w, t) then w.db.groups[h].Bump(TaskOutcome(w, t)).Decision() == Satisfied(true)
      else WinsCancelling(w0, w, h)
  {
    AdvanceTouches(w0, w, t);
    HopWrites(w.db, TaskGroup(w, t), w.db.events[t.event].exec, TaskOutcome(w, t));
  }

  lemma AdvanceKeepsPending(w0: World, w: World, t: Task)
    requires CountInv(w) && TasksInv(w) && t in w.tasks && t.edge !in w0.advanced && FlagsInv(w0, w)
    ensures PendingInv(w0, AdvanceTask(w, t))
  {
    var w', g := AdvanceTask(w, t), TaskGroup(w, t);
    TaskGroupStable(w, t);
    HopWrites(w.db, g, w.db.events[t.event].exec, TaskOutcome(w, t));
    forall h ensures h in w'.db.pendingCancel <==>
      h in w0.db.pendingCancel || (WinsCancelling(w0, w', h) && h in w0.db.groups && !w0.db.groups[h].flagged)
    {
      WinsAfterHop(w0, w, t, h);
    }
  }

  lemma AdvanceKeepsFlags(w0: World, w: World, t: Task)
    requires CountInv(w) && TasksInv(w) && t in w.tasks && t.edge !in w0.advanced && FlagsInv(w0, w)
    ensures FlagsInv(w0, AdvanceTask(w, t))
  {
    var w', g := AdvanceTask(w, t), TaskGroup(w, t);
    TaskGroupStable(w, t);
    HopWrites(w.db, g, w.db.events[t.event].exec, TaskOutcome(w, t));
    forall h | h in w0.db.groups
      ensures w'.db.groups[h].flagged <==> w0.db.groups[h].flagged || WinsCancelling(w0, w', h)
    {
      WinsAfterHop(w0, w, t, h);
    }
    AdvanceKeepsPending(w0, w, t);
  }

  lemma DispatchKeepsRows(w0: World, w: World, s: Step)
    requires Joined(w0.db) && Inv(w) && SameTables(w0, w) && Dispatches(w, s)
    requires RowsInv(w0, w) && FlagsInv(w0, w)
    ensures RowsInv(w0, Next(w, s)) && FlagsInv(w0, Next(w, s))
  {
    DispatchIsNext(w, s);
    if s.DoClaim? {
      ClaimKeepsRows(w0, w, s.e);
    } else {
      AdvanceKeepsRows(w0, w, s.task);
      AdvanceKeepsFlags(w0, w, s.task);
    }
  }

  lemma {:induction false} RunKeepsRows(w0: World, w: World, steps: seq<Step>)
    requires Joined(w0.db) && Inv(w) && Later(w0, w) && DispatchRun(w, steps) && OrderlyRun(w, steps)
    requires RowsInv(w0, w) && FlagsInv(w0, w)
    ensures RowsInv(w0, Run(w, steps)) && FlagsInv(w0, Run(w, steps))
    decreases |steps|
  {
    if steps != [] {
      DispatchKeepsInv(w, steps[0]);
      DispatchLater(w0, w, steps[0]);
      DispatchKeepsRows(w0, w, steps[0]);
      RunKeepsRows(w0, Next(w, steps[0]), steps[1..]);
    }
  }

  // ---------------------------------------------------------------------
  // Two quiet ends of the same beginning

  /** Everything but the order of the outbox and the recorded sibling lists. */
  ghost predicate SameResult(w1: World, w2: World) {
    && w1.advanced == w2.advanced
    && w1.db.edges == w2.db.edges
    && w1.db.execs == w2.db.execs
    && w1.db.pendingCancel == w2.db.pendingCancel
    && w1.db.groups.Keys == w2.db.groups.Keys
    && forall g :: g in w1.db.groups ==> w1.db.groups[g].(members := {}) == w2.db.groups[g].(members := {})
  }

  /** The history says exactly how each upstream ends. */
  ghost predicate TellsEnds(db0: Db, skipped: set<ExecId>, advanced: map<EdgeKey, Outcome>) {
    forall k, o :: Ends(db0, skipped, k, o) <==> k in advanced && advanced[k] == o
  }

  lemma QuietTellsEnds(w0: World, w: World)
    requires Joined(w0.db) && EventsInv(w.db) && AdvancedInv(w) && CoverInv(w) && Later(w0, w) && Quiescent(w)
    ensures TellsEnds(w0.db, Skipped(w0, w), w.advanced)
  {
    forall k, o ensures Ends(w0.db, Skipped(w0, w), k, o) <==> k in w.advanced && w.advanced[k] == o {
      QuietAdvanced(w0, w, k, o);
    }
  }

  lemma SameEndsSameHistory(db0: Db, skipped: set<ExecId>, a1: map<EdgeKey, Outcome>, a2: map<EdgeKey, Outcome>)
    requires TellsEnds(db0, skipped, a1) && TellsEnds(db0, skipped, a2)
    ensures a1 == a2
  {
    assert forall k :: k in a1 ==> Ends(db0, skipped, k, a1[k]);
    assert forall k :: k in a2 ==> Ends(db0, skipped, k, a2[k]);
  }

  /** Equal histories leave equal counters, so equal decisions. */
  lemma SameCounters(w1: World, w2: World, g: GroupKey)
    requires CountInv(w1) && CountInv(w2) && g in w1.db.groups && g in w2.db.groups
    requires w1.advanced == w2.advanced && w1.db.edges == w2.db.edges
    requires w1.db.groups[g].policy == w2.db.groups[g].policy
    ensures w1.db.groups[g] == w2.db.groups[g].(flagged := w1.db.groups[g].flagged, members := w1.db.groups[g].members)
    ensures w1.db.groups[g].Decision() == w2.db.groups[g].Decision()
  {
  }

  lemma SameHistorySameResult(w0: World, w1: World, w2: World)
    requires w1.advanced == w2.advanced && CountInv(w1) && CountInv(w2)
    requires SameTables(w0, w1) && RowsInv(w0, w1) && FlagsInv(w0, w1)
    requires SameTables(w0, w2) && RowsInv(w0, w2) && FlagsInv(w0, w2)
    ensures SameResult(w1, w2)
  {
    SameTouched(w0, w1, w2);
    forall g | g in w0.db.groups
      ensures w1.db.groups[g].Decision() == w2.db.groups[g].Decision()
      ensures w1.db.groups[g] == w2.db.groups[g].(flagged := w1.db.groups[g].flagged, members := w1.db.groups[g].members)
    {
      SameCounters(w1, w2, g);
    }
    forall g ensures WinsCancelling(w0, w1, g) <==> WinsCancelling(w0, w2, g) { }
    forall x | x in w0.db.execs ensures w1.db.execs[x] == w2.db.execs[x] {
      assert RowNow(w0, w1, x) == RowNow(w0, w2, x);
    }
  }

  lemma SameSkipped(w: World, run1: seq<Step>, run2: seq<Step>)
    requires Inv(w) && DispatchRun(w, run1) && OrderlyRun(w, run1) && DispatchRun(w, run2) && OrderlyRun(w, run2)
    requires Quiescent(Run(w, run1)) && Quiescent(Run(w, run2))
    ensures Skipped(w, Run(w, run1)) == Skipped(w, Run(w, run2))
  {
    SkippedIsLeast(w, run1, Skipped(w, Run(w, run2)));
    SkippedIsLeast(w, run2, Skipped(w, Run(w, run1)));
  }

  /**
   Confluence: dispatching in any two orders, by any number of dispatchers, until nothing is
   left to do takes the same number of steps and leaves the same skipped set, counters,
   flags and execution rows.
   */
  lemma CascadeConfluent(w: World, run1: seq<Step>, run2: seq<Step>)
    requires Inv(w) && DispatchRun(w, run1) && OrderlyRun(w, run1) && DispatchRun(w, run2) && OrderlyRun(w, run2)
    requires Quiescent(Run(w, run1)) && Quiescent(Run(w, run2))
    ensures SameResult(Run(w, run1), Run(w, run2))
    ensures |run1| == |run2|
  {
    SameSkipped(w, run1, run2);
    RunResult(w, run1);
    RunResult(w, run2);
    var w1, w2 := Run(w, run1), Run(w, run2);
    QuietTellsEnds(w, w1);
    QuietTellsEnds(w, w2);
    SameEndsSameHistory(w.db, Skipped(w, w1), w1.advanced, w2.advanced);
    SameHistorySameResult(w, w1, w2);
    DispatchLength(w, run1);
    DispatchLength(w, run2);
    QuietRank(w1);
    QuietRank(w2);
  }

  lemma QuietRank(w: World)
    requires Quiescent(w)
    ensures Rank(w) == |LiveExecs(w.db.execs)| + |w.db.edges.Keys - w.advanced.Keys|
  {
  }

  lemma RunResult(w: World, run: seq<Step>)
    requires Inv(w) && DispatchRun(w, run) && OrderlyRun(w, run)
    ensures var w' := Run(w, run); Inv(w') && Later(w, w') && RowsInv(w, w') && FlagsInv(w, w')
  {
    LaterRefl(w);
    RowsRefl(w);
    RunLater(w, w, run);
    RunKeepsRows(w, w, run);
  }
}
