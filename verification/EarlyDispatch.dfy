/**
 Runs from the empty tables in which a completion overtakes the apply of an edge: what the
 conditions of `FlowCounters` rule out does happen when they are not met.
 */
module EarlyDispatch {
  import opened Common
  import opened EdgePolicy
  import opened FlowModel
  import opened FlowCounters
  import opened Cascade

  const FLOW: FlowId := 0
  const NEW: Exec := Exec(None, Submitted, EligibleNow, false)
  const MEMBER: Exec := Exec(Some(FLOW), Submitted, EligibleNow, false)
  const ENDED: Exec := Exec(Some(FLOW), Terminal, NotApplicable, false)

  function EdgeNo(i: EdgeId): EdgeKey { EdgeKey(FLOW, i) }

  function OneFlow(revision: nat, nodes: nat, edges: nat): map<FlowId, FlowRow> {
    map[FLOW := FlowRow(revision, Open, nodes, edges)]
  }

  lemma RunThree(w: World, a: Step, b: Step, c: Step)
    ensures Run(w, [a, b, c]) == Next(Next(Next(w, a), b), c)
  {
    assert [a, b, c][1..] == [b, c] && [b, c][1..] == [c] && [c][1..] == [];
    assert Run(Next(w, a), [b, c]) == Run(Next(Next(w, a), b), [c]);
    assert Run(Next(Next(w, a), b), [c]) == Run(Next(Next(Next(w, a), b), c), []);
  }

  lemma RunOne(w: World, a: Step)
    ensures Run(w, [a]) == Next(w, a)
  {
    assert [a][1..] == [];
  }

  function EndSteps(x: ExecId, outcome: string, e: EventId, k: EdgeKey): seq<Step> {
    [DoFinish(x, Terminal, outcome), DoClaim(e), DoAdvance(Task(e, k))]
  }

  /** The tables once an execution has ended and its event has been claimed. */
  function EndedDb(db: Db, x: ExecId, outcome: string): Db
    requires x in db.execs
  {
    db.(execs := db.execs[x := db.execs[x].(phase := Terminal, eligibility := NotApplicable)],
        events := db.events[db.nextEvent := Event(x, db.execs[x].flow, outcome, true)],
        nextEvent := db.nextEvent + 1)
  }

  /** An execution with one outgoing edge ends, its event is claimed and the edge advanced. */
  lemma EndsAndHops(w: World, x: ExecId, outcome: string, k: EdgeKey)
    requires w.tasks == {} && x in w.db.execs && w.db.nextEvent !in w.db.events && k in w.db.edges
    requires OutEdges(w.db, Event(x, w.db.execs[x].flow, outcome, true)) == {k}
    ensures Run(w, EndSteps(x, outcome, w.db.nextEvent, k))
         == World(Advance(EndedDb(w.db, x, outcome), GroupKey(k.flow, w.db.edges[k].down), x, OutcomeKind(outcome)),
                  {}, w.advanced[k := OutcomeKind(outcome)])
  {
    var e := w.db.nextEvent;
    RunThree(w, DoFinish(x, Terminal, outcome), DoClaim(e), DoAdvance(Task(e, k)));
    EndsAndIsClaimed(w, x, outcome, k);
  }

  lemma EndsAndIsClaimed(w: World, x: ExecId, outcome: string, k: EdgeKey)
    requires w.tasks == {} && x in w.db.execs && w.db.nextEvent !in w.db.events && k in w.db.edges
    requires OutEdges(w.db, Event(x, w.db.execs[x].flow, outcome, true)) == {k}
    ensures Next(Next(w, DoFinish(x, Terminal, outcome)), DoClaim(w.db.nextEvent))
         == World(EndedDb(w.db, x, outcome), {Task(w.db.nextEvent, k)}, w.advanced)
  {
    var ended := Next(w, DoFinish(x, Terminal, outcome));
    assert OutEdges(ended.db, ended.db.events[w.db.nextEvent]) == {k};
  }

  // ---------------------------------------------------------------------
  // A completion that is lost

  /** Two executions in one flow with an edge between them. */
  function PairSteps(): seq<Step> {
    [DoCreateFlow(FLOW), DoInsertExecution(1), DoInsertExecution(2)]
    + [DoAddExecution(FLOW, 1), DoAddExecution(FLOW, 2), DoStage(EdgeNo(0), 1, 2, 2)]
  }

  const PAIR: Db := Db(OneFlow(3, 2, 1), map[1 := MEMBER, 2 := MEMBER], map[EdgeNo(0) := Edge(1, 2, false)], map[], {}, map[], 0)

  lemma PairBuilt()
    ensures Run(EMPTY_WORLD, PairSteps()) == World(PAIR, {}, map[])
  {
    RunThree(EMPTY_WORLD, DoCreateFlow(FLOW), DoInsertExecution(1), DoInsertExecution(2));
    var w := World(Db(OneFlow(0, 0, 0), map[1 := NEW, 2 := NEW], map[], map[], {}, map[], 0), {}, map[]);
    RunThree(w, DoAddExecution(FLOW, 1), DoAddExecution(FLOW, 2), DoStage(EdgeNo(0), 1, 2, 2));
    RunSplit(EMPTY_WORLD, [DoCreateFlow(FLOW), DoInsertExecution(1), DoInsertExecution(2)],
             [DoAddExecution(FLOW, 1), DoAddExecution(FLOW, 2), DoStage(EdgeNo(0), 1, 2, 2)]);
  }

  /** The upstream ends and its event is dispatched while the edge is not applied. */
  function OvertakeSteps(): seq<Step> { EndSteps(1, "success", 0, EdgeNo(0)) }

  lemma Overtaken()
    ensures Run(World(PAIR, {}, map[]), OvertakeSteps())
         == World(PAIR.(execs := map[1 := ENDED, 2 := MEMBER], events := map[0 := Event(1, Some(FLOW), "success", true)], nextEvent := 1),
                  {}, map[EdgeNo(0) := Success])
  {
    assert OutEdges(PAIR, Event(1, Some(FLOW), "success", true)) == {EdgeNo(0)};
    EndsAndHops(World(PAIR, {}, map[]), 1, "success", EdgeNo(0));
  }

  /**
   The upstream succeeded and its event was dispatched, then the edge is applied to its own
   downstream.  Nothing is left to dispatch, and the group waits for ever for an upstream that
   has ended.
   */
  lemma LostCompletion()
    ensures var w := Run(EMPTY_WORLD, PairSteps() + OvertakeSteps() + [DoApply(EdgeNo(0), 2)]);
      && Quiescent(w) && !CountInv(w) && w.db.execs == map[1 := ENDED, 2 := MEMBER]
      && GroupKey(FLOW, 2) in w.db.groups
      && var r := w.db.groups[GroupKey(FLOW, 2)]; r.running == 1 && r.success == 0 && r.Decision().Pending?
  {
    PairBuilt();
    Overtaken();
    RunSplit(EMPTY_WORLD, PairSteps(), OvertakeSteps());
    RunSplit(EMPTY_WORLD, PairSteps() + OvertakeSteps(), [DoApply(EdgeNo(0), 2)]);
    var before := Run(EMPTY_WORLD, PairSteps() + OvertakeSteps());
    RunOne(before, DoApply(EdgeNo(0), 2));
    LostGroup(before);
  }

  lemma LostGroup(before: World)
    requires before.db.edges == map[EdgeNo(0) := Edge(1, 2, false)] && before.db.groups == map[]
    requires before.advanced == map[EdgeNo(0) := Success]
    ensures var w := Next(before, DoApply(EdgeNo(0), 2));
      && !CountInv(w) && GroupKey(FLOW, 2) in w.db.groups
      && var r := w.db.groups[GroupKey(FLOW, 2)]; r.running == 1 && r.success == 0 && r.Decision().Pending?
  {
    ApplyCountsIff(before, EdgeNo(0), 2);
    PolicyRoundTrip(AllOf);
  }

  // ---------------------------------------------------------------------
  // A released execution that is skipped

  /** Three executions in one flow with edges from the first two into the third, the first one applied. */
  function TrioSteps(): seq<Step> {
    [DoCreateFlow(FLOW), DoInsertExecution(1), DoInsertExecution(2)]
    + [DoInsertExecution(3), DoAddExecution(FLOW, 1), DoAddExecution(FLOW, 2)]
    + [DoAddExecution(FLOW, 3), DoStage(EdgeNo(0), 1, 3, 3), DoStage(EdgeNo(1), 2, 3, 4)]
    + [DoApply(EdgeNo(0), 3)]
  }

  const TRIO_EDGES: map<EdgeKey, Edge> := map[EdgeNo(0) := Edge(1, 3, true), EdgeNo(1) := Edge(2, 3, false)]

  /** The group row of the third execution with the given counts. */
  function Third(success: nat, fail: nat, running: nat): map<GroupKey, Group> {
    map[GroupKey(FLOW, 3) := Group(DEFAULT_POLICY, success, fail, 0, running, false, {})]
  }

  function Trio(execs: map<ExecId, Exec>, groups: map<GroupKey, Group>, events: map<EventId, Event>, next: EventId): Db {
    Db(OneFlow(5, 3, 2), execs, TRIO_EDGES, groups, {}, events, next)
  }

  lemma TrioBuilt()
    ensures Run(EMPTY_WORLD, TrioSteps())
         == World(Trio(map[1 := MEMBER, 2 := MEMBER, 3 := MEMBER], Third(0, 0, 1), map[], 0), {}, map[])
  {
    var a := [DoCreateFlow(FLOW), DoInsertExecution(1), DoInsertExecution(2)];
    var b := [DoInsertExecution(3), DoAddExecution(FLOW, 1), DoAddExecution(FLOW, 2)];
    var c := [DoAddExecution(FLOW, 3), DoStage(EdgeNo(0), 1, 3, 3), DoStage(EdgeNo(1), 2, 3, 4)];
    RunThree(EMPTY_WORLD, a[0], a[1], a[2]);
    var w1 := World(Db(OneFlow(0, 0, 0), map[1 := NEW, 2 := NEW], map[], map[], {}, map[], 0), {}, map[]);
    assert Run(EMPTY_WORLD, a) == w1;
    RunThree(w1, b[0], b[1], b[2]);
    var w2 := World(Db(OneFlow(2, 2, 0), map[1 := MEMBER, 2 := MEMBER, 3 := NEW], map[], map[], {}, map[], 0), {}, map[]);
    assert Run(w1, b) == w2;
    TrioJoined(w2);
    RunSplit(EMPTY_WORLD, a, b);
    RunSplit(EMPTY_WORLD, a + b, c);
    RunSplit(EMPTY_WORLD, a + b + c, [DoApply(EdgeNo(0), 3)]);
  }

  lemma TrioJoined(w: World)
    requires w == World(Db(OneFlow(2, 2, 0), map[1 := MEMBER, 2 := MEMBER, 3 := NEW], map[], map[], {}, map[], 0), {}, map[])
    ensures Run(Run(w, [DoAddExecution(FLOW, 3), DoStage(EdgeNo(0), 1, 3, 3), DoStage(EdgeNo(1), 2, 3, 4)]), [DoApply(EdgeNo(0), 3)])
         == World(Trio(map[1 := MEMBER, 2 := MEMBER, 3 := MEMBER], Third(0, 0, 1), map[], 0), {}, map[])
  {
    RunThree(w, DoAddExecution(FLOW, 3), DoStage(EdgeNo(0), 1, 3, 3), DoStage(EdgeNo(1), 2, 3, 4));
    var staged := World(Db(OneFlow(5, 3, 2), map[1 := MEMBER, 2 := MEMBER, 3 := MEMBER],
                           map[EdgeNo(0) := Edge(1, 3, false), EdgeNo(1) := Edge(2, 3, false)], map[], {}, map[], 0), {}, map[]);
    assert Next(Next(Next(w, DoAddExecution(FLOW, 3)), DoStage(EdgeNo(0), 1, 3, 3)), DoStage(EdgeNo(1), 2, 3, 4)) == staged;
    RunOne(staged, DoApply(EdgeNo(0), 3));
  }

  /** The first upstream succeeds: every applied upstream has, and the third execution is released. */
  lemma TrioReleased()
    ensures var w := World(Trio(map[1 := MEMBER, 2 := MEMBER, 3 := MEMBER], Third(0, 0, 1), map[], 0), {}, map[]);
      Run(w, EndSteps(1, "success", 0, EdgeNo(0)))
      == World(Trio(map[1 := ENDED, 2 := MEMBER, 3 := MEMBER], Third(1, 0, 0), map[0 := Event(1, Some(FLOW), "success", true)], 1),
               {}, map[EdgeNo(0) := Success])
  {
    var w := World(Trio(map[1 := MEMBER, 2 := MEMBER, 3 := MEMBER], Third(0, 0, 1), map[], 0), {}, map[]);
    assert OutEdges(w.db, Event(1, Some(FLOW), "success", true)) == {EdgeNo(0)};
    EndsAndHops(w, 1, "success", EdgeNo(0));
    PolicyRoundTrip(AllOf);
  }

  /** The second upstream, whose edge was never applied, fails: the third execution is skipped. */
  lemma TrioSkipped(w: World)
    requires w == World(Trio(map[1 := ENDED, 2 := MEMBER, 3 := MEMBER], Third(1, 0, 0), map[0 := Event(1, Some(FLOW), "success", true)], 1),
                        {}, map[EdgeNo(0) := Success])
    ensures 3 in Run(w, EndSteps(2, "failed", 1, EdgeNo(1))).db.execs
    ensures Run(w, EndSteps(2, "failed", 1, EdgeNo(1))).db.execs[3] == SkipExec(MEMBER)
  {
    assert OutEdges(w.db, Event(2, Some(FLOW), "failed", true)) == {EdgeNo(1)};
    EndsAndHops(w, 2, "failed", EdgeNo(1));
    PolicyRoundTrip(AllOf);
    LateFailureSkipsReleased(EndedDb(w.db, 2, "failed"), GroupKey(FLOW, 3), 2, Fail);
  }

  /** A third execution released by every applied upstream is skipped when one that was not applied fails. */
  lemma ReleasedThenSkipped()
    ensures var released := Run(EMPTY_WORLD, TrioSteps() + EndSteps(1, "success", 0, EdgeNo(0)));
      var end := Run(released, EndSteps(2, "failed", 1, EdgeNo(1)));
      && GroupKey(FLOW, 3) in released.db.groups && released.db.groups[GroupKey(FLOW, 3)].Decision().Satisfied?
      && 3 in released.db.execs && released.db.execs[3].Live() && 3 in end.db.execs && end.db.execs[3].skipped
  {
    TrioBuilt();
    TrioReleased();
    RunSplit(EMPTY_WORLD, TrioSteps(), EndSteps(1, "success", 0, EdgeNo(0)));
    TrioSkipped(Run(EMPTY_WORLD, TrioSteps() + EndSteps(1, "success", 0, EdgeNo(0))));
    PolicyRoundTrip(AllOf);
  }
}
