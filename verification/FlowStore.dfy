/**
 The flow transactions as they run: row by row on mutable tables, with rollback.  Each is
 proved against its function in `FlowModel`; a dispatch is proved to be a dispatching run.
 */
module FlowStore {
  import opened Common
  import opened EdgePolicy
  import FM = FlowModel
  import FG = FlowGraph
  import FC = FlowCounters
  import HM = HopMeaning
  import opened Cascade

  datatype DispatchOutcome = NoOp | Advanced(edges: nat)

  /** Unblocking the downstream does not change who its live siblings are. */
  lemma SameSiblings(db: FM.Db, db': FM.Db, g: FM.GroupKey, up: FM.ExecId)
    requires db'.edges == db.edges && db'.execs.Keys == db.execs.Keys
    requires forall x :: x in db.execs ==>
      db'.execs[x].Live() == db.execs[x].Live() && db'.execs[x].skipped == db.execs[x].skipped
    ensures FM.Siblings(db', g, up) == FM.Siblings(db, g, up)
  {
  }

  ghost function Alone(db: FM.Db): FM.World { FM.World(db, {}, map[]) }

  /** A new flow has no members and no edges. */
  lemma CreateMeans(db: FM.Db, f: FM.FlowId)
    requires FG.GraphInv(db)
    ensures var (db', r) := FM.CreateFlow(db, f);
      && FG.GraphInv(db') && FG.Extends(db, db') && f in db'.flows
      && (r.Created? ==> FG.Members(db'.execs, f) == {} && FG.EdgesOf(db'.edges, f) == {})
  {
    FG.StepKeepsGraph(Alone(db), FM.DoCreateFlow(f));
    assert forall k :: k in db.edges ==> FG.EdgeJoinsMembers(db, k);
  }

  /** An accepted execution is a member, and the count answered is the number of members. */
  lemma AddMeans(db: FM.Db, f: FM.FlowId, x: FM.ExecId)
    requires FG.GraphInv(db)
    ensures var (db', r) := FM.AddExecution(db, f, x);
      && FG.GraphInv(db') && FG.Extends(db, db')
      && (r.Added? || r.AlreadyMember? ==> FM.Member(db', f, x) && r.nodeCount == |FG.Members(db'.execs, f)|)
      && (r.Refused? ==> db' == db)
  {
    if FM.AddExecution(db, f, x).1.Added? {
      FG.AddExecutionKeeps(db, f, x);
      AddAnswers(db, f, x);
    } else {
      AddRefuses(db, f, x);
    }
  }

  /** Why an execution is taken in or not: the flow must be there and not closed, the execution must be there and free. */
  ghost predicate AddReason(db: FM.Db, f: FM.FlowId, x: FM.ExecId, r: FM.Reply) {
    if f !in db.flows then r == FM.Refused(FM.FlowNotFound)
    else if db.flows[f].state == FM.Closed then r == FM.Refused(FM.FlowTerminal)
    else if x !in db.execs then r == FM.Refused(FM.ExecutionNotFound)
    else match db.execs[x].flow
         case None => r.Added?
         case Some(h) => if h == f then r.AlreadyMember? else r == FM.Refused(FM.MemberOfOtherFlow)
  }

  lemma AddReasons(db: FM.Db, f: FM.FlowId, x: FM.ExecId)
    ensures AddReason(db, f, x, FM.AddExecution(db, f, x).1)
  {
  }

  /** Everything an edge needs to be staged. */
  ghost predicate Stageable(db: FM.Db, k: FM.EdgeKey, up: FM.ExecId, down: FM.ExecId, expected: nat) {
    && up != down && k.flow in db.flows && db.flows[k.flow].state == FM.Open && db.flows[k.flow].revision == expected
    && FM.Member(db, k.flow, up) && FM.Member(db, k.flow, down) && k !in db.edges
  }

  lemma StagedIffStageable(db: FM.Db, k: FM.EdgeKey, up: FM.ExecId, down: FM.ExecId, expected: nat)
    ensures var (db', r) := FM.StageEdge(db, k, up, down, expected);
      && (r.Staged? <==> Stageable(db, k, up, down, expected)) && (r.Staged? || r.Refused?)
      && db'.edges == if r.Staged? then db.edges[k := FM.Edge(up, down, false)] else db.edges
  {
  }

  lemma AddRefuses(db: FM.Db, f: FM.FlowId, x: FM.ExecId)
    requires FG.AllCountsRight(db) && !FM.AddExecution(db, f, x).1.Added?
    ensures var (db', r) := FM.AddExecution(db, f, x);
      && db' == db && FG.Extends(db, db)
      && (r.AlreadyMember? ==> FM.Member(db, f, x) && r.nodeCount == |FG.Members(db.execs, f)|)
  {
    if f in db.flows { RevisionCounts(db, f); }
  }

  lemma AddAnswers(db: FM.Db, f: FM.FlowId, x: FM.ExecId)
    requires FM.AddExecution(db, f, x).1.Added? && FG.AllCountsRight(FM.AddExecution(db, f, x).0)
    ensures var (db', r) := FM.AddExecution(db, f, x);
      FM.Member(db', f, x) && r.nodeCount == |FG.Members(db'.execs, f)|
  {
    RevisionCounts(FM.AddExecution(db, f, x).0, f);
  }

  lemma RevisionCounts(db: FM.Db, f: FM.FlowId)
    requires FG.AllCountsRight(db) && f in db.flows
    ensures db.flows[f].nodeCount == |FG.Members(db.execs, f)|
    ensures db.flows[f].revision == |FG.Members(db.execs, f)| + |FG.EdgesOf(db.edges, f)|
  {
    assert FG.CountsRight(db.flows[f], db.execs, db.edges, f);
  }

  /** An accepted edge is there, and the revision answered counts members and edges. */
  lemma StageMeans(db: FM.Db, k: FM.EdgeKey, up: FM.ExecId, down: FM.ExecId, expected: nat)
    requires FG.GraphInv(db)
    ensures var (db', r) := FM.StageEdge(db, k, up, down, expected);
      && FG.GraphInv(db') && FG.Extends(db, db')
      && (r.Staged? ==> k in db'.edges && r.revision == |FG.Members(db'.execs, k.flow)| + |FG.EdgesOf(db'.edges, k.flow)|)
      && (r.Refused? ==> db' == db)
  {
    if FM.StageEdge(db, k, up, down, expected).1.Staged? {
      FG.StageEdgeKeeps(db, k, up, down, expected);
      StageAnswers(db, k, up, down, expected);
    } else {
      StageRefuses(db, k, up, down, expected);
    }
  }

  lemma StageRefuses(db: FM.Db, k: FM.EdgeKey, up: FM.ExecId, down: FM.ExecId, expected: nat)
    requires !FM.StageEdge(db, k, up, down, expected).1.Staged?
    ensures FM.StageEdge(db, k, up, down, expected).0 == db && FG.Extends(db, db)
  {
  }

  lemma StageAnswers(db: FM.Db, k: FM.EdgeKey, up: FM.ExecId, down: FM.ExecId, expected: nat)
    requires FM.StageEdge(db, k, up, down, expected).1.Staged? && FG.AllCountsRight(FM.StageEdge(db, k, up, down, expected).0)
    ensures var (db', r) := FM.StageEdge(db, k, up, down, expected);
      k in db'.edges && r.revision == |FG.Members(db'.execs, k.flow)| + |FG.EdgesOf(db'.edges, k.flow)|
  {
    RevisionCounts(FM.StageEdge(db, k, up, down, expected).0, k.flow);
  }

  /** Every group's policy reads as before. */
  ghost predicate SamePolicies(db: FM.Db, db': FM.Db) {
    forall g :: FM.PolicyOf(db', g) == FM.PolicyOf(db, g)
  }

  lemma ApplySamePolicies(w: FM.World, k: FM.EdgeKey, down: FM.ExecId)
    ensures SamePolicies(w.db, FM.ApplyDependency(w.db, k, down).0)
  {
    forall g ensures FM.PolicyOf(FM.ApplyDependency(w.db, k, down).0, g) == FM.PolicyOf(w.db, g) {
      FG.StepPolicy(w, FM.DoApply(k, down), g);
    }
  }

  lemma ApplyKeepsGraph(w: FM.World, k: FM.EdgeKey, down: FM.ExecId)
    requires FG.GraphInv(w.db)
    ensures var db' := FM.ApplyDependency(w.db, k, down).0; FG.GraphInv(db') && FG.Extends(w.db, db')
  {
    FG.ApplySameGraph(w.db, k, down);
    FG.SameGraphKeeps(w.db, FM.ApplyDependency(w.db, k, down).0);
  }

  /**
   An edge is applied once, no policy changes, and right counts stay right exactly for its own
   downstream, before its dispatch, and with no other edge dispatched before the group had a row.
   */
  ghost predicate ApplyMeans(w: FM.World, k: FM.EdgeKey, down: FM.ExecId, db': FM.Db) {
    && FG.GraphInv(db') && FG.Extends(w.db, db') && SamePolicies(w.db, db')
    && (k in w.db.edges ==> k in db'.edges && db'.edges[k].applied)
    && (k in w.db.edges && !w.db.edges[k].applied && FC.CountInv(w) ==>
          (FC.CountInv(w.(db := db')) <==>
             && w.db.edges[k].down == down && k !in w.advanced
             && (FM.GroupKey(k.flow, down) in w.db.groups || FC.NoneCounted(w, FM.GroupKey(k.flow, down)))))
  }

  lemma ApplyCounts(w: FM.World, k: FM.EdgeKey, down: FM.ExecId)
    requires k in w.db.edges && !w.db.edges[k].applied && FC.CountInv(w)
    ensures FC.CountInv(w.(db := FM.ApplyDependency(w.db, k, down).0)) <==>
      && w.db.edges[k].down == down && k !in w.advanced
      && (FM.GroupKey(k.flow, down) in w.db.groups || FC.NoneCounted(w, FM.GroupKey(k.flow, down)))
  {
    FC.ApplyCountsIff(w, k, down);
  }

  /**
   Whether the edge was there and new, and how many applied edges into the group still wait for
   their upstream.
   */
  ghost predicate ApplyReason(w: FM.World, k: FM.EdgeKey, down: FM.ExecId, db': FM.Db, r: FM.Reply) {
    if k !in w.db.edges then r == FM.Refused(FM.EdgeNotFound)
    else if w.db.edges[k].applied then r == FM.AlreadyApplied
    else r.Applied? && (FC.CountInv(w.(db := db')) ==>
                          r.unsatisfied == |FC.Waiting(db'.edges, w.advanced, FM.GroupKey(k.flow, down))|)
  }

  lemma ApplyReasons(w: FM.World, k: FM.EdgeKey, down: FM.ExecId)
    ensures var (db', r) := FM.ApplyDependency(w.db, k, down); ApplyReason(w, k, down, db', r)
  {
    var db', g := FM.ApplyDependency(w.db, k, down).0, FM.GroupKey(k.flow, down);
    assert FC.CountInv(w.(db := db')) && g in db'.groups ==> FC.CountersRight(db'.groups[g], db'.edges, w.advanced, g);
  }

  lemma ApplyDoes(w: FM.World, k: FM.EdgeKey, down: FM.ExecId, db': FM.Db)
    requires FG.GraphInv(w.db) && db' == FM.ApplyDependency(w.db, k, down).0
    ensures ApplyMeans(w, k, down, db')
  {
    ApplyKeepsGraph(w, k, down);
    ApplySamePolicies(w, k, down);
    if k in w.db.edges && !w.db.edges[k].applied && FC.CountInv(w) { ApplyCounts(w, k, down); }
  }

  /** An accepted policy is the one read back; a refusal, due exactly to a zero quorum or an edge, leaves the old one. */
  lemma SetPolicyMeans(db: FM.Db, g: FM.GroupKey, p: Policy)
    requires FG.GraphInv(db)
    ensures var (db', r) := FM.SetPolicy(db, g, p);
      && FG.GraphInv(db') && FG.Extends(db, db')
      && (r.Refused? <==> (p.Quorum? && p.k == 0) || FM.InEdges(db, g) != {})
      && FM.PolicyOf(db', g) == (if r.Refused? then FM.PolicyOf(db, g) else p)
      && forall h :: h != g ==> FM.PolicyOf(db', h) == FM.PolicyOf(db, h)
  {
    FG.StepKeepsGraph(Alone(db), FM.DoSetPolicy(g, p));
    FG.StepPolicy(Alone(db), FM.DoSetPolicy(g, p), g);
  }

  lemma HopKeepsGraph(db: FM.Db, g: FM.GroupKey, up: FM.ExecId, o: Outcome)
    requires FG.GraphInv(db)
    ensures var db' := FM.Advance(db, g, up, o); FG.GraphInv(db') && FG.Extends(db, db')
  {
    FG.AdvanceSameGraph(db, g, up, o);
    FG.SameGraphKeeps(db, FM.Advance(db, g, up, o));
  }

  lemma FinishKeepsGraph(db: FM.Db, x: FM.ExecId, phase: FM.Phase, outcome: string)
    requires FG.GraphInv(db) && x in db.execs
    ensures var db' := FM.Finish(db, x, phase, outcome); FG.GraphInv(db') && FG.Extends(db, db')
  {
    FG.SameGraphKeeps(db, FM.Finish(db, x, phase, outcome));
  }

  /** What carrying a decision out does to the tables. */
  ghost function CarriedOut(db: FM.Db, g: FM.GroupKey, up: FM.ExecId, d: Decision): FM.Db
    requires g in db.groups
  {
    var flags := d == Satisfied(true) && !db.groups[g].flagged;
    var skips := FM.Skips(db, g, d);
    db.(execs := if g.down in db.execs then db.execs[g.down := FM.AfterDecision(db.execs[g.down], d)] else db.execs,
        groups := if flags then db.groups[g := db.groups[g].(flagged := true, members := FM.Siblings(db, g, up))] else db.groups,
        pendingCancel := if flags then db.pendingCancel + {g} else db.pendingCancel,
        events := if skips then db.events[db.nextEvent := FM.Event(g.down, Some(g.flow), "skipped", false)] else db.events,
        nextEvent := if skips then db.nextEvent + 1 else db.nextEvent)
  }

  /** A hop is the counter write followed by the decision carried out. */
  lemma HopInTwo(db: FM.Db, g: FM.GroupKey, up: FM.ExecId, o: Outcome)
    requires g in db.groups
    ensures var bumped := db.(groups := db.groups[g := db.groups[g].Bump(o)]);
      FM.Advance(db, g, up, o) == CarriedOut(bumped, g, up, bumped.groups[g].Decision())
  {
    var bumped := db.(groups := db.groups[g := db.groups[g].Bump(o)]);
    SameSiblings(db, bumped, g, up);
  }

  class Store {
    var flows: map<FM.FlowId, FM.FlowRow>
    var execs: map<FM.ExecId, FM.Exec>
    var edges: map<FM.EdgeKey, FM.Edge>
    var groups: map<FM.GroupKey, FM.Group>
    var pendingCancel: set<FM.GroupKey>
    var events: map<FM.EventId, FM.Event>
    var nextEvent: FM.EventId

    constructor ()
      ensures State() == FM.EMPTY_DB && Valid()
    {
      flows, execs, edges, groups := map[], map[], map[], map[];
      pendingCancel, events, nextEvent := {}, map[], 0;
    }

    function State(): FM.Db
      reads this
    {
      FM.Db(flows, execs, edges, groups, pendingCancel, events, nextEvent)
    }

    /** Event ids come from one ascending sequence. */
    ghost predicate FreshIds()
      reads this`events, this`nextEvent
    {
      forall e :: e in events ==> e < nextEvent
    }

    /** Revision and counts are right and every edge joins two members. */
    ghost predicate Valid()
      reads this
    {
      FreshIds() && FG.GraphInv(State())
    }

    method CreateFlow(f: FM.FlowId) returns (r: FM.Reply)
      requires Valid()
      modifies this
      ensures (State(), r) == FM.CreateFlow(old(State()), f)
      ensures Valid() && FG.Extends(old(State()), State()) && f in flows
      ensures r.Created? ==> FG.Members(execs, f) == {} && FG.EdgesOf(edges, f) == {}
    {
      CreateMeans(State(), f);
      if f in flows { return FM.AlreadySatisfied; }
      flows := flows[f := FM.FlowRow(0, FM.Open, 0, 0)];
      r := FM.Created;
    }

    /** A new execution belongs to no flow yet; one already there is left alone. */
    method InsertExecution(x: FM.ExecId)
      requires Valid()
      modifies this`execs
      ensures State() == FM.Next(Alone(old(State())), FM.DoInsertExecution(x)).db
      ensures Valid() && FG.Extends(old(State()), State()) && x in execs
      ensures x !in old(execs) ==> forall f :: !FM.Member(State(), f, x)
    {
      FG.StepKeepsGraph(Alone(State()), FM.DoInsertExecution(x));
      if x in execs { return; }
      execs := execs[x := FM.Exec(None, FM.Submitted, FM.EligibleNow, false)];
    }

    method WriteFinish(x: FM.ExecId, phase: FM.Phase, outcome: string)
      requires x in execs
      modifies this`execs, this`events, this`nextEvent
      ensures State() == FM.Finish(old(State()), x, phase, outcome)
    {
      events := events[nextEvent := FM.Event(x, execs[x].flow, outcome, false)];
      nextEvent := nextEvent + 1;
      execs := execs[x := execs[x].(phase := phase, eligibility := FM.NotApplicable)];
    }

    /** An execution ends and its event, stamped with its flow, enters the outbox under a new id. */
    method FinishExecution(x: FM.ExecId, phase: FM.Phase, outcome: string) returns (e: FM.EventId)
      requires Valid() && x in execs
      modifies this`execs, this`events, this`nextEvent
      ensures State() == FM.Finish(old(State()), x, phase, outcome)
      ensures Valid() && FG.Extends(old(State()), State()) && e !in old(events) && FM.Claimable(State(), e)
      ensures events == old(events)[e := FM.Event(x, old(execs[x]).flow, outcome, false)]
      ensures execs.Keys == old(execs).Keys && forall y :: y in execs && y != x ==> execs[y] == old(execs)[y]
      ensures execs[x].phase == phase && execs[x].eligibility == FM.NotApplicable
      ensures execs[x].flow == old(execs[x]).flow && execs[x].skipped == old(execs[x]).skipped
    {
      FinishKeepsGraph(State(), x, phase, outcome);
      e := nextEvent;
      WriteFinish(x, phase, outcome);
    }

    method WriteMember(f: FM.FlowId, x: FM.ExecId) returns (r: FM.Reply)
      modifies this`execs, this`flows
      ensures (State(), r) == FM.AddExecution(old(State()), f, x)
    {
      if f !in flows { return FM.Refused(FM.FlowNotFound); }
      if flows[f].state == FM.Closed { return FM.Refused(FM.FlowTerminal); }
      if x !in execs { return FM.Refused(FM.ExecutionNotFound); }
      match execs[x].flow {
        case Some(h) =>
          if h == f { return FM.AlreadyMember(flows[f].nodeCount); }
          return FM.Refused(FM.MemberOfOtherFlow);
        case None =>
          execs := execs[x := execs[x].(flow := Some(f))];
          flows := flows[f := flows[f].(revision := flows[f].revision + 1, nodeCount := flows[f].nodeCount + 1)];
          r := FM.Added(flows[f].nodeCount);
      }
    }

    /** An accepted execution is a member, and the count answered is the number of members. */
    method AddExecutionToFlow(f: FM.FlowId, x: FM.ExecId) returns (r: FM.Reply)
      requires Valid()
      modifies this
      ensures (State(), r) == FM.AddExecution(old(State()), f, x)
      ensures Valid() && FG.Extends(old(State()), State()) && (r.Refused? ==> State() == old(State()))
      ensures r.Added? || r.AlreadyMember? ==> FM.Member(State(), f, x) && r.nodeCount == |FG.Members(execs, f)|
      ensures AddReason(old(State()), f, x, r)
    {
      AddReasons(State(), f, x);
      AddMeans(State(), f, x);
      r := WriteMember(f, x);
    }

    /** The revision is bumped before membership is looked at; a refusal rolls it back. */
    method WriteEdge(k: FM.EdgeKey, up: FM.ExecId, down: FM.ExecId, expected: nat) returns (r: FM.Reply)
      modifies this`edges, this`flows
      ensures (State(), r) == FM.StageEdge(old(State()), k, up, down, expected)
    {
      if up == down { return FM.Refused(FM.SelfEdge); }
      if k.flow !in flows || flows[k.flow].revision != expected || flows[k.flow].state != FM.Open {
        if k.flow !in flows { return FM.Refused(FM.FlowNotFound); }
        if flows[k.flow].state == FM.Closed { return FM.Refused(FM.FlowTerminal); }
        return FM.Refused(FM.StaleRevision);
      }
      var saved := flows;
      flows := flows[k.flow := flows[k.flow].(revision := flows[k.flow].revision + 1, edgeCount := flows[k.flow].edgeCount + 1)];
      if !FM.Member(State(), k.flow, up) || !FM.Member(State(), k.flow, down) {
        flows := saved;
        return FM.Refused(FM.NotInFlow);
      }
      if k in edges {
        flows := saved;
        return FM.Refused(FM.EdgeExists);
      }
      edges := edges[k := FM.Edge(up, down, false)];
      r := FM.Staged(flows[k.flow].revision);
    }

    /** An accepted edge is there, and the revision answered counts members and edges. */
    method StageDependencyEdge(k: FM.EdgeKey, up: FM.ExecId, down: FM.ExecId, expected: nat) returns (r: FM.Reply)
      requires Valid()
      modifies this
      ensures (State(), r) == FM.StageEdge(old(State()), k, up, down, expected)
      ensures Valid() && FG.Extends(old(State()), State()) && (r.Refused? ==> State() == old(State()))
      ensures r.Staged? ==> k in edges && r.revision == |FG.Members(execs, k.flow)| + |FG.EdgesOf(edges, k.flow)|
      ensures r.Staged? <==> Stageable(old(State()), k, up, down, expected)
      ensures edges == if r.Staged? then old(edges)[k := FM.Edge(up, down, false)] else old(edges)
    {
      StagedIffStageable(State(), k, up, down, expected);
      StageMeans(State(), k, up, down, expected);
      r := WriteEdge(k, up, down, expected);
    }

    method WriteApplied(k: FM.EdgeKey, down: FM.ExecId) returns (r: FM.Reply)
      modifies this`edges, this`groups
      ensures (State(), r) == FM.ApplyDependency(old(State()), k, down)
    {
      if k !in edges { return FM.Refused(FM.EdgeNotFound); }
      if edges[k].applied { return FM.AlreadyApplied; }
      edges := edges[k := edges[k].(applied := true)];
      var g := FM.GroupKey(k.flow, down);
      if g in groups {
        groups := groups[g := groups[g].(running := groups[g].running + 1)];
      } else {
        groups := groups[g := FM.NewGroup(FM.DEFAULT_POLICY).(running := 1)];
      }
      r := FM.Applied(if groups[g].running > 0 then groups[g].running else 0);
    }

    /** Marks the edge once.  `w` is any world over these tables. */
    method ApplyDependencyToChild(k: FM.EdgeKey, down: FM.ExecId, ghost w: FM.World) returns (r: FM.Reply)
      requires Valid() && w.db == State()
      modifies this
      ensures (State(), r) == FM.ApplyDependency(old(State()), k, down)
      ensures Valid() && ApplyMeans(w, k, down, State()) && ApplyReason(w, k, down, State(), r)
    {
      ApplyReasons(w, k, down);
      ApplyDoes(w, k, down, FM.ApplyDependency(State(), k, down).0);
      r := WriteApplied(k, down);
    }

    /** An accepted policy is the one the cascade reads back. */
    method SetEdgeGroupPolicy(g: FM.GroupKey, p: Policy) returns (r: FM.Reply)
      requires Valid()
      modifies this
      ensures (State(), r) == FM.SetPolicy(old(State()), g, p)
      ensures Valid() && FG.Extends(old(State()), State())
      ensures r.Refused? <==> (p.Quorum? && p.k == 0) || FM.InEdges(old(State()), g) != {}
      ensures FM.PolicyOf(State(), g) == if r.Refused? then FM.PolicyOf(old(State()), g) else p
      ensures forall h :: h != g ==> FM.PolicyOf(State(), h) == FM.PolicyOf(old(State()), h)
    {
      SetPolicyMeans(State(), g, p);
      if p.Quorum? && p.k == 0 { return FM.Refused(FM.ZeroQuorum); }
      if FM.InEdges(State(), g) != {} { return FM.Refused(FM.PolicyFixed); }
      var encoded := EncodePolicy(p);
      if g in groups {
        if groups[g].policy == encoded { return FM.PolicyAlreadySet; }
        groups := groups[g := groups[g].(policy := encoded)];
      } else {
        groups := groups[g := FM.NewGroup(encoded)];
      }
      r := FM.PolicySet;
    }

    /** The counter write of a hop and the decision it leads to. */
    method BumpCounters(g: FM.GroupKey, o: Outcome) returns (decision: Decision)
      requires g in groups
      modifies this`groups
      ensures groups == old(groups)[g := old(groups[g]).Bump(o)]
      ensures decision == groups[g].Decision()
    {
      var row := groups[g];
      var success, fail, skip, running := row.success, row.fail, row.skip, row.running;
      if running > 0 { running := running - 1; }
      match o {
        case Success => success := success + 1;
        case Fail => fail := fail + 1;
        case Skip => skip := skip + 1;
      }
      if running < 0 { running := 0; }
      decision := Evaluate(DecodePolicy(row.policy), success, fail, skip, success + fail + skip + running);
      groups := groups[g := row.(success := success, fail := fail, skip := skip, running := running)];
    }

    /** Satisfied: release the downstream and record the siblings to cancel, once. */
    method Release(g: FM.GroupKey, up: FM.ExecId, cancel: bool)
      requires g in groups
      modifies this`execs, this`groups, this`pendingCancel
      ensures execs == if g.down in old(execs) then old(execs)[g.down := FM.Unblock(old(execs[g.down]))] else old(execs)
      ensures var flags := cancel && !old(groups[g].flagged);
        && pendingCancel == (if flags then old(pendingCancel) + {g} else old(pendingCancel))
        && groups == if flags then old(groups)[g := old(groups[g]).(flagged := true, members := FM.Siblings(old(State()), g, up))]
                     else old(groups)
      ensures g.down in old(execs) ==> g.down in execs && HM.RowMeans(old(execs[g.down]), execs[g.down], Satisfied(cancel))
      ensures cancel && !old(groups[g].flagged) ==>
        forall x :: x in groups[g].members <==> HM.ToCancel(old(State()), x, g, up)
    {
      if g.down in execs { execs := execs[g.down := FM.Unblock(execs[g.down])]; }
      forall x ensures x in FM.Siblings(old(State()), g, up) <==> HM.ToCancel(old(State()), x, g, up) {
        HM.SiblingsAre(old(State()), g, up, x);
      }
      if cancel && !groups[g].flagged {
        var members := FM.Siblings(State(), g, up);
        SameSiblings(old(State()), State(), g, up);
        pendingCancel := pendingCancel + {g};
        groups := groups[g := groups[g].(flagged := true, members := members)];
      }
    }

    /** Impossible: end a live downstream as skipped and put its event in the outbox. */
    method SkipDownstream(g: FM.GroupKey)
      requires FreshIds()
      modifies this`execs, this`events, this`nextEvent
      ensures FreshIds()
      ensures if g.down in old(execs) && old(execs[g.down]).Live() then
          && execs == old(execs)[g.down := FM.SkipExec(old(execs[g.down]))]
          && events == old(events)[old(nextEvent) := FM.Event(g.down, Some(g.flow), "skipped", false)]
          && nextEvent == old(nextEvent) + 1
        else execs == old(execs) && events == old(events) && nextEvent == old(nextEvent)
      ensures g.down in old(execs) ==> g.down in execs && HM.RowMeans(old(execs[g.down]), execs[g.down], Impossible)
    {
      if g.down in execs && execs[g.down].Live() {
        execs := execs[g.down := FM.SkipExec(execs[g.down])];
        events := events[nextEvent := FM.Event(g.down, Some(g.flow), "skipped", false)];
        nextEvent := nextEvent + 1;
      }
    }

    /** Carries a decision out: release, skip, or nothing. */
    method CarryOut(g: FM.GroupKey, up: FM.ExecId, decision: Decision)
      requires FreshIds() && g in groups
      modifies this`execs, this`groups, this`pendingCancel, this`events, this`nextEvent
      ensures State() == CarriedOut(old(State()), g, up, decision)
      ensures FreshIds() && forall e :: e in old(events) ==> e in events && events[e] == old(events)[e]
    {
      match decision {
        case Pending =>
          assert g.down in execs ==> execs == execs[g.down := execs[g.down]];
        case Satisfied(cancel) =>
          Release(g, up, cancel);
        case Impossible =>
          assert g.down in execs ==> execs == execs[g.down := execs[g.down]];
          SkipDownstream(g);
      }
    }

    /** One hop: counters, decision, downstream row, sibling list and outbox in one commit. */
    method WriteHop(g: FM.GroupKey, up: FM.ExecId, o: Outcome)
      requires FreshIds()
      modifies this
      ensures State() == FM.Advance(old(State()), g, up, o)
      ensures FreshIds() && forall e :: e in old(events) ==> e in events && events[e] == old(events)[e]
    {
      if g !in groups { return; }
      HopInTwo(State(), g, up, o);
      var decision := BumpCounters(g, o);
      CarryOut(g, up, decision);
    }

    /** A hop releases or skips its downstream by the decision, and changes no event already in the outbox. */
    method AdvanceEdgeGroup(g: FM.GroupKey, up: FM.ExecId, o: Outcome)
      requires Valid()
      modifies this
      ensures State() == FM.Advance(old(State()), g, up, o)
      ensures Valid() && FG.Extends(old(State()), State())
      ensures g in old(groups) ==> g in groups && HM.HopMeans(old(State()), State(), g, up, groups[g].Decision())
      ensures forall e :: e in old(events) ==> e in events && events[e] == old(events)[e]
    {
      HopKeepsGraph(State(), g, up, o);
      if g in groups { HM.HopDoes(State(), g, up, o); }
      WriteHop(g, up, o);
    }

    /** Claims the event and advances each edge it feeds in its own transaction. */
    method DispatchSteps(e: FM.EventId, ghost w: FM.World) returns (r: DispatchOutcome, ghost steps: seq<FM.Step>)
      requires FreshIds() && w.db == State() && forall t :: t in w.tasks ==> t.event != e
      modifies this
      ensures FreshIds()
      ensures !FM.Claimable(old(State()), e) ==> r == NoOp && steps == [] && State() == old(State())
      ensures FM.Claimable(old(State()), e) ==>
        r == Advanced(|FM.OutEdges(old(State()), old(events[e]))|) && |steps| == 1 + r.edges && steps[0] == FM.DoClaim(e)
      ensures DispatchRun(w, steps) && FM.Run(w, steps).db == State() && FM.Run(w, steps).tasks == w.tasks
    {
      if e !in events || events[e].dispatched { return NoOp, []; }
      events := events[e := events[e].(dispatched := true)];
      var event := events[e];
      steps := [FM.DoClaim(e)];
      ghost var now := FM.ClaimEvent(w, e);
      assert FM.Run(w, steps) == now by { assert steps[1..] == []; }
      var todo := FM.OutEdges(State(), event);
      assert todo == FM.OutEdges(old(State()), old(events[e]));
      var kind, advanced := OutcomeKind(event.outcome), 0;
      ghost var total := |todo|;
      while todo != {}
        invariant advanced + |todo| == total && |steps| == 1 + advanced && steps[0] == FM.DoClaim(e)
        invariant now == FM.Run(w, steps) && now.db == State() && DispatchRun(w, steps)
        invariant now.tasks == w.tasks + Owed(e, todo)
        invariant FreshIds() && e in events && events[e] == event && todo <= edges.Keys
        decreases todo
      {
        var k :| k in todo;
        ghost var s := FM.DoAdvance(FM.Task(e, k));
        HopIsStep(now, w.tasks, e, todo, k);
        WriteHop(FM.GroupKey(k.flow, edges[k].down), event.exec, kind);
        RunSnoc(w, steps, s);
        now, steps := FM.Next(now, s), steps + [s];
        todo, advanced := todo - {k}, advanced + 1;
      }
      r := Advanced(advanced);
    }

    /**
     Claims the event and advances each edge it feeds in its own transaction.  Seen from any
     world `w` over these tables, a call that wins the claim is the dispatching run `steps`,
     which leaves this dispatcher owing nothing.
     */
    method DispatchCompletion(e: FM.EventId, ghost w: FM.World) returns (r: DispatchOutcome, ghost steps: seq<FM.Step>)
      requires Valid() && w.db == State() && forall t :: t in w.tasks ==> t.event != e
      modifies this
      ensures Valid() && FG.Extends(old(State()), State())
      ensures !FM.Claimable(old(State()), e) ==> r == NoOp && steps == [] && State() == old(State())
      ensures FM.Claimable(old(State()), e) ==>
        r == Advanced(|FM.OutEdges(old(State()), old(events[e]))|) && |steps| == 1 + r.edges && steps[0] == FM.DoClaim(e)
      ensures DispatchRun(w, steps) && FM.Run(w, steps).db == State() && FM.Run(w, steps).tasks == w.tasks
    {
      r, steps := DispatchSteps(e, w);
      FG.GraphBookkeeping(w, steps);
    }
  }

  ghost function Owed(e: FM.EventId, todo: set<FM.EdgeKey>): set<FM.Task> {
    set k | k in todo :: FM.Task(e, k)
  }

  lemma HopIsStep(now: FM.World, others: set<FM.Task>, e: FM.EventId, todo: set<FM.EdgeKey>, k: FM.EdgeKey)
    requires now.tasks == others + Owed(e, todo) && k in todo && e in now.db.events && k in now.db.edges
    requires forall t :: t in others ==> t.event != e
    ensures var s := FM.DoAdvance(FM.Task(e, k));
      && Dispatches(now, s)
      && FM.Next(now, s).db == FM.Advance(now.db, FM.GroupKey(k.flow, now.db.edges[k].down), now.db.events[e].exec,
                                          OutcomeKind(now.db.events[e].outcome))
      && FM.Next(now, s).tasks == others + Owed(e, todo - {k})
  {
  }

  lemma {:induction false} RunSnoc(w: FM.World, steps: seq<FM.Step>, s: FM.Step)
    requires DispatchRun(w, steps) && Dispatches(FM.Run(w, steps), s)
    ensures FM.Run(w, steps + [s]) == FM.Next(FM.Run(w, steps), s)
    ensures DispatchRun(w, steps + [s])
    decreases |steps|
  {
    if steps == [] {
      assert (steps + [s])[1..] == [];
    } else {
      assert (steps + [s])[1..] == steps[1..] + [s];
      RunSnoc(FM.Next(w, steps[0]), steps[1..], s);
    }
  }
}
