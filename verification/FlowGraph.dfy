/**
 Graph bookkeeping over every run: revision and counts, membership, the compare-and-set
 on the revision, and the freezing of an edge group's policy.
 */
module FlowGraph {
  import opened Common
  import opened EdgePolicy
  import opened FlowModel

  ghost function Members(execs: map<ExecId, Exec>, f: FlowId): set<ExecId> {
    set x | x in execs && execs[x].flow == Some(f)
  }

  ghost function EdgesOf(edges: map<EdgeKey, Edge>, f: FlowId): set<EdgeKey> {
    set k | k in edges && k.flow == f
  }

  ghost predicate CountsRight(row: FlowRow, execs: map<ExecId, Exec>, edges: map<EdgeKey, Edge>, f: FlowId) {
    && row.revision == row.nodeCount + row.edgeCount
    && row.nodeCount == |Members(execs, f)|
    && row.edgeCount == |EdgesOf(edges, f)|
  }

  ghost predicate EdgeJoinsMembers(db: Db, k: EdgeKey)
    requires k in db.edges
  {
    var e := db.edges[k];
    k.flow in db.flows && e.up != e.down && Member(db, k.flow, e.up) && Member(db, k.flow, e.down)
  }

  ghost predicate AllCountsRight(db: Db) {
    forall f :: f in db.flows ==> CountsRight(db.flows[f], db.execs, db.edges, f)
  }

  ghost predicate Joined(db: Db) {
    && (forall k :: k in db.edges ==> EdgeJoinsMembers(db, k))
    && (forall x :: x in db.execs && db.execs[x].flow.Some? ==> db.execs[x].flow.value in db.flows)
  }

  ghost predicate GraphInv(db: Db) {
    AllCountsRight(db) && Joined(db)
  }

  /** What no later transaction takes back. */
  ghost predicate Extends(db: Db, db': Db) {
    && (forall f :: f in db.flows ==> f in db'.flows && db.flows[f].revision <= db'.flows[f].revision)
    && (forall x :: x in db.execs ==> x in db'.execs && (db.execs[x].flow.Some? ==> db'.execs[x].flow == db.execs[x].flow))
    && (forall k :: k in db.edges ==> k in db'.edges && db'.edges[k].up == db.edges[k].up && db'.edges[k].down == db.edges[k].down)
  }

  /** Flow columns, memberships and edge endpoints agree. */
  ghost predicate SameGraph(db: Db, db': Db) {
    && db.flows.Keys == db'.flows.Keys
    && (forall f :: f in db.flows ==> db'.flows[f] == db.flows[f].(state := db'.flows[f].state))
    && db.execs.Keys == db'.execs.Keys
    && (forall x :: x in db.execs ==> db'.execs[x].flow == db.execs[x].flow)
    && db.edges.Keys == db'.edges.Keys
    && (forall k :: k in db.edges ==> db'.edges[k].up == db.edges[k].up && db'.edges[k].down == db.edges[k].down)
  }

  lemma SameGraphKeeps(db: Db, db': Db)
    requires GraphInv(db) && SameGraph(db, db')
    ensures GraphInv(db') && Extends(db, db')
  {
    forall f | f in db'.flows ensures CountsRight(db'.flows[f], db'.execs, db'.edges, f) {
      assert CountsRight(db.flows[f], db.execs, db.edges, f);
      assert Members(db.execs, f) == Members(db'.execs, f);
      assert EdgesOf(db.edges, f) == EdgesOf(db'.edges, f);
    }
    forall k | k in db'.edges ensures EdgeJoinsMembers(db', k) {
      assert EdgeJoinsMembers(db, k);
    }
  }

  lemma CreateFlowKeeps(db: Db, f: FlowId)
    requires GraphInv(db) && f !in db.flows
    ensures var db' := CreateFlow(db, f).0; GraphInv(db') && Extends(db, db')
  {
  }

  lemma InsertExecutionKeeps(db: Db, x: ExecId)
    requires GraphInv(db) && x !in db.execs
    ensures var db' := db.(execs := db.execs[x := Exec(None, Submitted, EligibleNow, false)]);
      GraphInv(db') && Extends(db, db')
  {
    var db' := db.(execs := db.execs[x := Exec(None, Submitted, EligibleNow, false)]);
    forall f | f in db'.flows ensures CountsRight(db'.flows[f], db'.execs, db'.edges, f) {
      assert CountsRight(db.flows[f], db.execs, db.edges, f);
      assert Members(db.execs, f) == Members(db'.execs, f);
    }
    forall k | k in db'.edges ensures EdgeJoinsMembers(db', k) {
      assert EdgeJoinsMembers(db, k);
    }
  }

  lemma MembersAfterAdd(execs: map<ExecId, Exec>, x: ExecId, f: FlowId, h: FlowId)
    requires x in execs && execs[x].flow.None?
    ensures |Members(execs[x := execs[x].(flow := Some(f))], h)| == |Members(execs, h)| + if h == f then 1 else 0
  {
    var execs' := execs[x := execs[x].(flow := Some(f))];
    assert Members(execs', h) == Members(execs, h) + if h == f then {x} else {};
  }

  lemma AddExecutionCounts(db: Db, f: FlowId, x: ExecId)
    requires AllCountsRight(db) && AddExecution(db, f, x).1.Added?
    ensures AllCountsRight(AddExecution(db, f, x).0)
  {
    var db' := AddExecution(db, f, x).0;
    forall h | h in db'.flows ensures CountsRight(db'.flows[h], db'.execs, db'.edges, h) {
      assert CountsRight(db.flows[h], db.execs, db.edges, h);
      MembersAfterAdd(db.execs, x, f, h);
    }
  }

  lemma AddExecutionKeeps(db: Db, f: FlowId, x: ExecId)
    requires GraphInv(db) && AddExecution(db, f, x).1.Added?
    ensures var db' := AddExecution(db, f, x).0; GraphInv(db') && Extends(db, db')
  {
    AddExecutionCounts(db, f, x);
    AddExecutionJoins(db, f, x);
  }

  lemma AddExecutionJoins(db: Db, f: FlowId, x: ExecId)
    requires Joined(db) && AddExecution(db, f, x).1.Added?
    ensures Joined(AddExecution(db, f, x).0)
  {
  }

  lemma EdgesAfterStage(edges: map<EdgeKey, Edge>, k: EdgeKey, e: Edge, h: FlowId)
    requires k !in edges
    ensures |EdgesOf(edges[k := e], h)| == |EdgesOf(edges, h)| + if h == k.flow then 1 else 0
  {
    assert EdgesOf(edges[k := e], h) == EdgesOf(edges, h) + if h == k.flow then {k} else {};
  }

  lemma StageEdgeCounts(db: Db, k: EdgeKey, up: ExecId, down: ExecId, expected: nat)
    requires AllCountsRight(db) && StageEdge(db, k, up, down, expected).1.Staged?
    ensures AllCountsRight(StageEdge(db, k, up, down, expected).0)
  {
    var db' := StageEdge(db, k, up, down, expected).0;
    forall h | h in db'.flows ensures CountsRight(db'.flows[h], db'.execs, db'.edges, h) {
      assert CountsRight(db.flows[h], db.execs, db.edges, h);
      EdgesAfterStage(db.edges, k, Edge(up, down, false), h);
    }
  }

  lemma StageEdgeJoins(db: Db, k: EdgeKey, up: ExecId, down: ExecId, expected: nat)
    requires Joined(db) && StageEdge(db, k, up, down, expected).1.Staged?
    ensures Joined(StageEdge(db, k, up, down, expected).0)
  {
  }

  lemma StageEdgeKeeps(db: Db, k: EdgeKey, up: ExecId, down: ExecId, expected: nat)
    requires GraphInv(db) && StageEdge(db, k, up, down, expected).1.Staged?
    ensures var db' := StageEdge(db, k, up, down, expected).0; GraphInv(db') && Extends(db, db')
  {
    StageEdgeCounts(db, k, up, down, expected);
    StageEdgeJoins(db, k, up, down, expected);
    StageEdgeExtends(db, k, up, down, expected);
  }

  lemma StageEdgeExtends(db: Db, k: EdgeKey, up: ExecId, down: ExecId, expected: nat)
    requires StageEdge(db, k, up, down, expected).1.Staged?
    ensures Extends(db, StageEdge(db, k, up, down, expected).0)
  {
  }

  /** A hop of the cascade never touches the graph. */
  lemma AdvanceSameGraph(db: Db, g: GroupKey, up: ExecId, o: Outcome)
    ensures SameGraph(db, Advance(db, g, up, o))
  {
  }

  lemma ApplySameGraph(db: Db, k: EdgeKey, down: ExecId)
    ensures SameGraph(db, ApplyDependency(db, k, down).0)
  {
  }

  predicate BuildsGraph(s: Step) {
    s.DoCreateFlow? || s.DoInsertExecution? || s.DoAddExecution? || s.DoStage?
  }

  /** Nor does anything else that is not graph construction. */
  lemma OtherStepSameGraph(w: World, s: Step)
    requires !BuildsGraph(s)
    ensures SameGraph(w.db, Next(w, s).db)
  {
    match s
    case DoApply(k, down) => ApplySameGraph(w.db, k, down);
    case DoAdvance(t) =>
      if t in w.tasks && t.event in w.db.events && t.edge in w.db.edges {
        AdvanceSameGraph(w.db, TaskGroup(w, t), w.db.events[t.event].exec, TaskOutcome(w, t));
      }
    case _ =>
  }

  lemma BuildStepKeeps(w: World, s: Step)
    requires GraphInv(w.db) && BuildsGraph(s) && Next(w, s).db != w.db
    ensures GraphInv(Next(w, s).db) && Extends(w.db, Next(w, s).db)
  {
    match s
    case DoCreateFlow(f) => CreateFlowKeeps(w.db, f);
    case DoInsertExecution(x) => InsertExecutionKeeps(w.db, x);
    case DoAddExecution(f, x) => AddExecutionKeeps(w.db, f, x);
    case DoStage(k, up, down, expected) => StageEdgeKeeps(w.db, k, up, down, expected);
  }

  lemma StepKeepsGraph(w: World, s: Step)
    requires GraphInv(w.db)
    ensures GraphInv(Next(w, s).db) && Extends(w.db, Next(w, s).db)
  {
    if Next(w, s).db != w.db && BuildsGraph(s) {
      BuildStepKeeps(w, s);
    } else {
      assert SameGraph(w.db, Next(w, s).db) by { if !BuildsGraph(s) { OtherStepSameGraph(w, s); } }
      SameGraphKeeps(w.db, Next(w, s).db);
    }
  }

  /**
   In every reachable state a flow's revision is its node count plus its edge count, both
   counts are exact, every edge joins two distinct members, and nothing `Extends` lists is
   ever taken back: an execution's flow never changes once set.
   */
  lemma {:induction false} GraphBookkeeping(w: World, steps: seq<Step>)
    requires GraphInv(w.db)
    ensures GraphInv(Run(w, steps).db) && Extends(w.db, Run(w, steps).db)
    decreases |steps|
  {
    if steps != [] {
      StepKeepsGraph(w, steps[0]);
      GraphBookkeeping(Next(w, steps[0]), steps[1..]);
    }
  }

  ghost predicate StagesAt(w: World, s: Step, f: FlowId, expected: nat) {
    s.DoStage? && s.k.flow == f && s.expected == expected && ReplyTo(w.db, s).Staged?
  }

  ghost predicate Spent(db: Db, f: FlowId, expected: nat) {
    f in db.flows && expected < db.flows[f].revision
  }

  lemma StagingSpends(w: World, s: Step, f: FlowId, expected: nat)
    requires StagesAt(w, s, f, expected)
    ensures Spent(Next(w, s).db, f, expected)
  {
  }

  lemma SpentCannotStage(w: World, s: Step, f: FlowId, expected: nat)
    requires Spent(w.db, f, expected)
    ensures !StagesAt(w, s, f, expected)
  {
  }

  /** At most one stage call per expected revision ever succeeds. */
  lemma RevisionSpentOnce(w: World, steps: seq<Step>, i: nat, j: nat, f: FlowId, expected: nat)
    requires GraphInv(w.db)
    requires i < j < |steps|
    requires StagesAt(Run(w, steps[..i]), steps[i], f, expected)
    ensures !StagesAt(Run(w, steps[..j]), steps[j], f, expected)
  {
    GraphBookkeeping(w, steps[..i]);
    SpentAfter(Run(w, steps[..i]), steps[i], steps[i + 1..j], f, expected);
    RunBetween(w, steps, i, j);
    SpentCannotStage(Run(w, steps[..j]), steps[j], f, expected);
  }

  lemma SpentAfter(w: World, s: Step, rest: seq<Step>, f: FlowId, expected: nat)
    requires GraphInv(w.db) && StagesAt(w, s, f, expected)
    ensures Spent(Run(Next(w, s), rest).db, f, expected)
  {
    StagingSpends(w, s, f, expected);
    StepKeepsGraph(w, s);
    GraphBookkeeping(Next(w, s), rest);
  }

  // ---------------------------------------------------------------------
  // Policy freeze

  /** The policy of a group after a run, judged only by the calls that were accepted. */
  ghost function LastAccepted(w: World, steps: seq<Step>, g: GroupKey, p: Policy): Policy
    decreases |steps|
  {
    if steps == [] then p
    else
      var s := steps[0];
      var accepted := s.DoSetPolicy? && s.g == g && !ReplyTo(w.db, s).Refused?;
      LastAccepted(Next(w, s), steps[1..], g, if accepted then s.p else p)
  }

  lemma AdvanceSamePolicy(db: Db, h: GroupKey, up: ExecId, o: Outcome, g: GroupKey)
    ensures PolicyOf(Advance(db, h, up, o), g) == PolicyOf(db, g)
  {
  }

  lemma StepPolicy(w: World, s: Step, g: GroupKey)
    ensures PolicyOf(Next(w, s).db, g) ==
      if s.DoSetPolicy? && s.g == g && !ReplyTo(w.db, s).Refused? then s.p else PolicyOf(w.db, g)
  {
    match s
    case DoSetPolicy(h, p) => PolicyRoundTrip(p);
    case DoApply(k, down) => PolicyRoundTrip(AllOf);
    case DoAdvance(t) =>
      if t in w.tasks && t.event in w.db.events && t.edge in w.db.edges {
        AdvanceSamePolicy(w.db, TaskGroup(w, t), w.db.events[t.event].exec, TaskOutcome(w, t), g);
      }
    case _ =>
  }

  /**
   The policy the cascade decodes for a group is always the last one accepted for it, and
   AllOf before any; encoding and decoding lose nothing.
   */
  lemma {:induction false} PolicyIsLastAccepted(w: World, steps: seq<Step>, g: GroupKey)
    ensures PolicyOf(Run(w, steps).db, g) == LastAccepted(w, steps, g, PolicyOf(w.db, g))
    decreases |steps|
  {
    if steps != [] {
      StepPolicy(w, steps[0], g);
      PolicyIsLastAccepted(Next(w, steps[0]), steps[1..], g);
    }
  }

  lemma FrozenStep(w: World, s: Step, g: GroupKey)
    requires GraphInv(w.db) && InEdges(w.db, g) != {}
    ensures var db' := Next(w, s).db; GraphInv(db') && InEdges(db', g) != {} && PolicyOf(db', g) == PolicyOf(w.db, g)
  {
    StepPolicy(w, s, g);
    StepKeepsGraph(w, s);
    var k :| k in InEdges(w.db, g);
    assert k in InEdges(Next(w, s).db, g);
  }

  /** Once an edge into a downstream is staged, its policy is fixed for the rest of the run. */
  lemma {:induction false} PolicyFrozen(w: World, steps: seq<Step>, g: GroupKey)
    requires GraphInv(w.db)
    requires InEdges(w.db, g) != {}
    ensures PolicyOf(Run(w, steps).db, g) == PolicyOf(w.db, g)
    decreases |steps|
  {
    if steps != [] {
      var w' := Next(w, steps[0]);
      FrozenStep(w, steps[0], g);
      PolicyFrozen(w', steps[1..], g);
    }
  }
}
