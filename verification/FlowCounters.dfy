/**
 Conservation of the edge-group counters under any interleaving of graph construction,
 completions and concurrent dispatchers, provided each edge is applied (to its own
 downstream) before its upstream's event is claimed and an execution ends only once.
 */
module FlowCounters {
  import opened Common
  import opened EdgePolicy
  import opened FlowModel
  import opened FlowGraph

  ghost function GroupOf(edges: map<EdgeKey, Edge>, k: EdgeKey): GroupKey
    requires k in edges
  {
    GroupKey(k.flow, edges[k].down)
  }

  /** Applied edges into the group that no dispatcher has advanced yet. */
  ghost function Waiting(edges: map<EdgeKey, Edge>, advanced: map<EdgeKey, Outcome>, g: GroupKey): set<EdgeKey> {
    set k | k in edges && GroupOf(edges, k) == g && edges[k].applied && k !in advanced
  }

  /** Advanced edges into the group, by the outcome counted for them. */
  ghost function Counted(edges: map<EdgeKey, Edge>, advanced: map<EdgeKey, Outcome>, g: GroupKey, o: Outcome): set<EdgeKey> {
    set k | k in edges && GroupOf(edges, k) == g && k in advanced && advanced[k] == o
  }

  ghost predicate CountersRight(group: Group, edges: map<EdgeKey, Edge>, advanced: map<EdgeKey, Outcome>, g: GroupKey) {
    && group.running == |Waiting(edges, advanced, g)|
    && group.success == |Counted(edges, advanced, g, Success)|
    && group.fail == |Counted(edges, advanced, g, Fail)|
    && group.skip == |Counted(edges, advanced, g, Skip)|
  }

  ghost predicate Feeds(db: Db, e: EventId, k: EdgeKey) {
    e in db.events && k in db.edges && Some(k.flow) == db.events[e].flow && db.edges[k].up == db.events[e].exec
  }

  /** Event `e` has been claimed and says that the upstream of `k` ended with `o`. */
  ghost predicate SettledBy(db: Db, e: EventId, k: EdgeKey, o: Outcome) {
    Feeds(db, e, k) && db.events[e].dispatched && OutcomeKind(db.events[e].outcome) == o
  }

  /** Events belong to ended executions, at most one each. */
  ghost predicate EventsInv(db: Db) {
    && (forall e :: e in db.events ==>
          e < db.nextEvent && db.events[e].exec in db.execs && !db.execs[db.events[e].exec].Live()
          && (db.events[e].flow.Some? ==> db.execs[db.events[e].exec].flow == db.events[e].flow))
    && (forall e, e' :: e in db.events && e' in db.events && db.events[e].exec == db.events[e'].exec ==> e == e')
  }

  /** Outstanding work is for claimed events and edges not advanced before. */
  ghost predicate TasksInv(w: World) {
    forall t :: t in w.tasks ==>
      Feeds(w.db, t.event, t.edge) && w.db.events[t.event].dispatched
      && w.db.edges[t.edge].applied && t.edge !in w.advanced
  }

  /** An edge was advanced only for the claimed event of its own upstream. */
  ghost predicate AdvancedInv(w: World) {
    forall k :: k in w.advanced ==>
      k in w.db.edges && w.db.edges[k].applied && exists e :: SettledBy(w.db, e, k, w.advanced[k])
  }

  /** A claimed event has every edge it feeds either advanced or outstanding. */
  ghost predicate CoverInv(w: World) {
    forall e, k :: Feeds(w.db, e, k) && w.db.events[e].dispatched ==> k in w.advanced || Task(e, k) in w.tasks
  }

  ghost predicate CountInv(w: World) {
    && (forall g :: g in w.db.groups ==> CountersRight(w.db.groups[g], w.db.edges, w.advanced, g))
    && (forall k :: k in w.db.edges && w.db.edges[k].applied ==> GroupOf(w.db.edges, k) in w.db.groups)
  }

  /** A downstream some upstream has reached and that is still live has not become impossible. */
  ghost predicate LiveInv(w: World) {
    forall k :: k in w.advanced && k in w.db.edges && GroupOf(w.db.edges, k) in w.db.groups
      && w.db.edges[k].down in w.db.execs && w.db.execs[w.db.edges[k].down].Live()
      ==> !w.db.groups[GroupOf(w.db.edges, k)].Decision().Impossible?
  }

  ghost predicate Inv(w: World) {
    && Joined(w.db) && EventsInv(w.db) && TasksInv(w) && AdvancedInv(w)
    && CoverInv(w) && CountInv(w) && LiveInv(w)
  }

  /** The discipline under which the counters are conserved. */
  ghost predicate Orderly(w: World, s: Step) {
    match s
    case DoStage(k, up, _, _) =>
      forall e :: e in w.db.events && w.db.events[e].exec == up ==> !w.db.events[e].dispatched
    case DoApply(k, down) => k in w.db.edges ==> w.db.edges[k].down == down
    case DoFinish(x, _, _) => x in w.db.execs ==> w.db.execs[x].Live()
    case DoClaim(e) => forall k :: Feeds(w.db, e, k) ==> w.db.edges[k].applied
    case _ => true
  }

  // ---------------------------------------------------------------------
  // Steps that only touch flow rows or live executions

  ghost predicate Aging(execs: map<ExecId, Exec>, execs': map<ExecId, Exec>) {
    forall x :: x in execs ==>
      x in execs' && (execs'[x].Live() ==> execs[x].Live()) && (execs[x].flow.Some? ==> execs'[x].flow == execs[x].flow)
  }

  lemma QuietStepKeeps(w: World, w': World)
    requires Inv(w)
    requires w' == w.(db := w.db.(flows := w'.db.flows, execs := w'.db.execs))
    requires Aging(w.db.execs, w'.db.execs)
    requires forall x :: x in w.db.execs && !w.db.execs[x].Live() ==> !w'.db.execs[x].Live()
    requires Joined(w'.db)
    ensures Inv(w')
  {
    assert AdvancedInv(w') by {
      forall k | k in w'.advanced ensures exists e :: SettledBy(w'.db, e, k, w'.advanced[k]) {
        var e :| SettledBy(w.db, e, k, w.advanced[k]);
        assert SettledBy(w'.db, e, k, w'.advanced[k]);
      }
    }
    assert LiveInv(w') by {
      forall k | k in w'.advanced && k in w'.db.edges ensures EdgeJoinsMembers(w.db, k) { }
    }
    assert CoverInv(w') by {
      forall e, k | Feeds(w'.db, e, k) && w'.db.events[e].dispatched ensures Feeds(w.db, e, k) { }
    }
    forall t | t in w'.tasks ensures Feeds(w'.db, t.event, t.edge) {
      assert Feeds(w.db, t.event, t.edge);
    }
  }

  // ---------------------------------------------------------------------
  // Construction steps on edges and groups

  /** Events are never lost, and a claim is never undone. */
  ghost predicate EventsGrow(events: map<EventId, Event>, events': map<EventId, Event>) {
    forall e :: e in events ==>
      && e in events'
      && events'[e] == events[e].(dispatched := events'[e].dispatched)
      && (events[e].dispatched ==> events'[e].dispatched)
  }

  ghost predicate EdgesGrow(edges: map<EdgeKey, Edge>, edges': map<EdgeKey, Edge>) {
    forall k :: k in edges ==>
      && k in edges'
      && edges'[k] == edges[k].(applied := edges'[k].applied)
      && (edges[k].applied ==> edges'[k].applied)
  }

  lemma SettledStays(w: World, db': Db)
    requires AdvancedInv(w) && EventsGrow(w.db.events, db'.events) && EdgesGrow(w.db.edges, db'.edges)
    ensures AdvancedInv(w.(db := db'))
  {
    forall k | k in w.advanced ensures k in db'.edges && db'.edges[k].applied && exists e :: SettledBy(db', e, k, w.advanced[k]) {
      var e :| SettledBy(w.db, e, k, w.advanced[k]);
      assert SettledBy(db', e, k, w.advanced[k]);
    }
  }

  lemma TasksStay(w: World, db': Db)
    requires TasksInv(w) && EventsGrow(w.db.events, db'.events) && EdgesGrow(w.db.edges, db'.edges)
    ensures TasksInv(w.(db := db'))
  {
  }

  /** Setting one row's `applied` column, or staging a row unapplied, moves only that edge. */
  lemma CountsAfterEdgeWrite(edges: map<EdgeKey, Edge>, advanced: map<EdgeKey, Outcome>, k: EdgeKey, e: Edge, g: GroupKey)
    requires k !in advanced && (k in edges ==> !edges[k].applied)
    ensures Waiting(edges[k := e], advanced, g)
         == Waiting(edges, advanced, g) + if e.applied && g == GroupKey(k.flow, e.down) then {k} else {}
    ensures k !in Waiting(edges, advanced, g)
    ensures forall o :: Counted(edges[k := e], advanced, g, o) == Counted(edges, advanced, g, o)
  {
  }

  lemma StageKeepsCounts(w: World, k: EdgeKey, up: ExecId, down: ExecId, w': World)
    requires CountInv(w) && k !in w.db.edges && k !in w.advanced
    requires w'.advanced == w.advanced && w'.db.groups == w.db.groups
    requires w'.db.edges == w.db.edges[k := Edge(up, down, false)]
    ensures CountInv(w')
  {
    forall g | g in w'.db.groups ensures CountersRight(w'.db.groups[g], w'.db.edges, w'.advanced, g) {
      assert CountersRight(w.db.groups[g], w.db.edges, w.advanced, g);
      CountsAfterEdgeWrite(w.db.edges, w.advanced, k, Edge(up, down, false), g);
    }
    forall j | j in w'.db.edges && w'.db.edges[j].applied ensures GroupOf(w'.db.edges, j) in w'.db.groups {
      assert GroupOf(w.db.edges, j) in w.db.groups;
    }
  }

  lemma StageKeepsCover(w: World, k: EdgeKey, up: ExecId, down: ExecId, db': Db)
    requires CoverInv(w) && Orderly(w, DoStage(k, up, down, 0))
    requires db'.events == w.db.events && db'.edges == w.db.edges[k := Edge(up, down, false)]
    ensures CoverInv(w.(db := db'))
  {
  }

  lemma StageKeeps(w: World, k: EdgeKey, up: ExecId, down: ExecId, db': Db)
    requires Inv(w) && Orderly(w, DoStage(k, up, down, 0)) && k !in w.db.edges
    requires db' == w.db.(flows := db'.flows, edges := w.db.edges[k := Edge(up, down, false)])
    requires Joined(db')
    ensures Inv(w.(db := db'))
  {
    var w' := w.(db := db');
    SettledStays(w, db');
    TasksStay(w, db');
    StageKeepsCounts(w, k, up, down, w');
    StageKeepsCover(w, k, up, down, db');
    assert LiveInv(w') by {
      forall j | j in w'.advanced ensures j in w.db.edges && w'.db.edges[j] == w.db.edges[j] { }
    }
  }

  /** A group without a row has nothing to count. */
  lemma NoRowNothingCounted(w: World, g: GroupKey)
    requires CountInv(w) && AdvancedInv(w) && g !in w.db.groups
    ensures CountersRight(NewGroup(DEFAULT_POLICY), w.db.edges, w.advanced, g)
  {
  }

  /** One more running edge for its own group, nothing else. */
  lemma ApplyCountsRight(w: World, k: EdgeKey, w': World, g: GroupKey)
    requires CountInv(w) && AdvancedInv(w) && k in w.db.edges && !w.db.edges[k].applied
    requires w' == w.(db := ApplyDependency(w.db, k, w.db.edges[k].down).0) && g in w'.db.groups
    ensures CountersRight(w'.db.groups[g], w'.db.edges, w'.advanced, g)
  {
    if g in w.db.groups {
      assert CountersRight(w.db.groups[g], w.db.edges, w.advanced, g);
    } else {
      NoRowNothingCounted(w, g);
    }
    CountsAfterEdgeWrite(w.db.edges, w.advanced, k, w.db.edges[k].(applied := true), g);
  }

  lemma ApplyKeepsCounts(w: World, k: EdgeKey, w': World)
    requires CountInv(w) && AdvancedInv(w) && k in w.db.edges && !w.db.edges[k].applied
    requires w' == w.(db := ApplyDependency(w.db, k, w.db.edges[k].down).0)
    ensures CountInv(w')
  {
    forall g | g in w'.db.groups ensures CountersRight(w'.db.groups[g], w'.db.edges, w'.advanced, g) {
      ApplyCountsRight(w, k, w', g);
    }
    forall j | j in w'.db.edges && w'.db.edges[j].applied ensures GroupOf(w'.db.edges, j) in w'.db.groups {
      assert j != k ==> GroupOf(w.db.edges, j) in w.db.groups;
    }
  }

  /** A larger running bucket never makes a policy impossible. */
  lemma MoreRunningStillPossible(group: Group)
    requires 0 <= group.success && 0 <= group.fail && 0 <= group.skip && 0 <= group.running
    requires !group.Decision().Impossible?
    ensures !group.(running := group.running + 1).Decision().Impossible?
  {
  }

  lemma GroupAfterApply(db: Db, k: EdgeKey, down: ExecId, g: GroupKey)
    requires k in db.edges && !db.edges[k].applied && g in db.groups
    ensures var db' := ApplyDependency(db, k, down).0;
      g in db'.groups && (db'.groups[g] == db.groups[g] || db'.groups[g] == db.groups[g].(running := db.groups[g].running + 1))
  {
  }

  lemma ApplyKeepsPossible(w: World, k: EdgeKey, down: ExecId, g: GroupKey)
    requires CountInv(w) && k in w.db.edges && !w.db.edges[k].applied && g in w.db.groups
    ensures var db' := ApplyDependency(w.db, k, down).0;
      g in db'.groups && (w.db.groups[g].Decision().Impossible? || !db'.groups[g].Decision().Impossible?)
  {
    assert CountersRight(w.db.groups[g], w.db.edges, w.advanced, g);
    GroupAfterApply(w.db, k, down, g);
    if !w.db.groups[g].Decision().Impossible? { MoreRunningStillPossible(w.db.groups[g]); }
  }

  lemma ApplyKeepsLive(w: World, k: EdgeKey, w': World)
    requires CountInv(w) && AdvancedInv(w) && LiveInv(w) && k in w.db.edges && !w.db.edges[k].applied
    requires w' == w.(db := ApplyDependency(w.db, k, w.db.edges[k].down).0)
    ensures LiveInv(w')
  {
    forall j | j in w.advanced
      ensures w'.db.edges[j] == w.db.edges[j]
      ensures var g := GroupOf(w.db.edges, j);
        && g in w.db.groups && g in w'.db.groups
        && (w.db.groups[g].Decision().Impossible? || !w'.db.groups[g].Decision().Impossible?)
    {
      ApplyKeepsPossible(w, k, w.db.edges[k].down, GroupOf(w.db.edges, j));
    }
  }

  lemma ApplyGrows(db: Db, k: EdgeKey, down: ExecId, db': Db)
    requires k in db.edges && !db.edges[k].applied && db' == ApplyDependency(db, k, down).0
    ensures OthersStay(db, db')
  {
  }

  lemma ApplyKeeps(w: World, k: EdgeKey)
    requires Inv(w) && k in w.db.edges && !w.db.edges[k].applied
    ensures Inv(w.(db := ApplyDependency(w.db, k, w.db.edges[k].down).0))
  {
    var w' := w.(db := ApplyDependency(w.db, k, w.db.edges[k].down).0);
    ApplyGrows(w.db, k, w.db.edges[k].down, w'.db);
    ApplyKeepsCounts(w, k, w');
    ApplyKeepsLive(w, k, w');
    OthersKeep(w, w'.db);
  }

  /** A write to the policy of a group without edges. */
  ghost predicate PolicyWritten(db: Db, g: GroupKey, policy: Json, db': Db) {
    var group := if g in db.groups then db.groups[g].(policy := policy) else NewGroup(policy);
    InEdges(db, g) == {} && db' == db.(groups := db.groups[g := group])
  }

  lemma SetPolicyKeepsCounts(w: World, g: GroupKey, policy: Json, db': Db)
    requires CountInv(w) && AdvancedInv(w) && PolicyWritten(w.db, g, policy, db')
    ensures CountInv(w.(db := db'))
  {
    forall h | h in db'.groups ensures CountersRight(db'.groups[h], db'.edges, w.advanced, h) {
      if h in w.db.groups {
        assert CountersRight(w.db.groups[h], w.db.edges, w.advanced, h);
      } else {
        NoRowNothingCounted(w, h);
      }
    }
  }

  lemma SetPolicyKeepsLive(w: World, g: GroupKey, policy: Json, db': Db)
    requires CountInv(w) && AdvancedInv(w) && LiveInv(w) && PolicyWritten(w.db, g, policy, db')
    ensures LiveInv(w.(db := db'))
  {
    assert forall k :: k in w.db.edges && GroupOf(w.db.edges, k) == g ==> k in InEdges(w.db, g);
  }

  lemma SetPolicyKeeps(w: World, g: GroupKey, policy: Json, db': Db)
    requires Inv(w) && PolicyWritten(w.db, g, policy, db')
    ensures Inv(w.(db := db'))
  {
    SetPolicyKeepsCounts(w, g, policy, db');
    SetPolicyKeepsLive(w, g, policy, db');
    OthersKeep(w, db');
  }

  /** Only groups and the `applied` columns of edges are written. */
  ghost predicate OthersStay(db: Db, db': Db) {
    && db'.events == db.events && db'.nextEvent == db.nextEvent && db'.flows == db.flows && db'.execs == db.execs
    && db'.edges.Keys == db.edges.Keys && EdgesGrow(db.edges, db'.edges)
  }

  /** Such writes leave membership, outstanding work, history and the cover of claimed events alone. */
  lemma OthersKeep(w: World, db': Db)
    requires Joined(w.db) && EventsInv(w.db) && TasksInv(w) && AdvancedInv(w) && CoverInv(w) && OthersStay(w.db, db')
    ensures var w' := w.(db := db'); Joined(db') && EventsInv(db') && TasksInv(w') && AdvancedInv(w') && CoverInv(w')
  {
    SettledStays(w, db');
    TasksStay(w, db');
    forall j | j in db'.edges ensures EdgeJoinsMembers(db', j) { assert EdgeJoinsMembers(w.db, j); }
    forall e, j | Feeds(db', e, j) && db'.events[e].dispatched ensures j in w.advanced || Task(e, j) in w.tasks {
      assert Feeds(w.db, e, j);
    }
  }

  // ---------------------------------------------------------------------
  // Completion, claim and advance

  /** Ended executions keep their rows. */
  ghost predicate EndedStay(execs: map<ExecId, Exec>, execs': map<ExecId, Exec>) {
    forall x :: x in execs && !execs[x].Live() ==> x in execs' && execs'[x] == execs[x]
  }

  lemma EventsStay(db: Db, db': Db)
    requires EventsInv(db) && EndedStay(db.execs, db'.execs) && db'.events == db.events && db'.nextEvent == db.nextEvent
    ensures EventsInv(db')
  {
  }

  /** The first event of an execution that has just ended. */
  lemma EventsAfterEnd(db: Db, db': Db, event: Event)
    requires EventsInv(db) && EndedStay(db.execs, db'.execs)
    requires event.exec in db.execs && db.execs[event.exec].Live()
    requires event.exec in db'.execs && !db'.execs[event.exec].Live()
    requires event.flow.Some? ==> db'.execs[event.exec].flow == event.flow
    requires db'.events == db.events[db.nextEvent := event] && db'.nextEvent == db.nextEvent + 1
    ensures EventsInv(db')
  {
  }

  lemma FinishKeeps(w: World, x: ExecId, phase: Phase, outcome: string)
    requires Inv(w) && x in w.db.execs && w.db.execs[x].Live() && Ending(phase)
    ensures Inv(w.(db := Finish(w.db, x, phase, outcome)))
  {
    var w' := w.(db := Finish(w.db, x, phase, outcome));
    SettledStays(w, w'.db);
    TasksStay(w, w'.db);
    assert Joined(w'.db) by {
      forall j | j in w'.db.edges ensures EdgeJoinsMembers(w'.db, j) { assert EdgeJoinsMembers(w.db, j); }
    }
    EventsAfterEnd(w.db, w'.db, w'.db.events[w.db.nextEvent]);
    forall e, j | Feeds(w'.db, e, j) && w'.db.events[e].dispatched ensures j in w'.advanced || Task(e, j) in w'.tasks {
      assert Feeds(w.db, e, j);
    }
  }

  lemma ClaimKeeps(w: World, e: EventId)
    requires Inv(w) && Claimable(w.db, e) && Orderly(w, DoClaim(e))
    ensures Inv(ClaimEvent(w, e))
  {
    var w' := ClaimEvent(w, e);
    SettledStays(w, w'.db);
    assert AdvancedInv(w');
    forall t | t in w'.tasks
      ensures Feeds(w'.db, t.event, t.edge) && w'.db.events[t.event].dispatched
      ensures w'.db.edges[t.edge].applied && t.edge !in w'.advanced
    {
      if t in w.tasks {
        assert Feeds(w.db, t.event, t.edge);
      } else {
        assert Feeds(w.db, e, t.edge);
        NotYetAdvanced(w, e, t.edge);
      }
    }
    forall d, k | Feeds(w'.db, d, k) && w'.db.events[d].dispatched ensures k in w'.advanced || Task(d, k) in w'.tasks {
      assert Feeds(w.db, d, k);
      assert d == e ==> k in OutEdges(w.db, w.db.events[e]);
    }
    assert Joined(w'.db) by {
      forall j | j in w'.db.edges ensures EdgeJoinsMembers(w'.db, j) { assert EdgeJoinsMembers(w.db, j); }
    }
  }

  /** An unclaimed event has advanced none of its edges: no edge is counted twice. */
  lemma NotYetAdvanced(w: World, e: EventId, k: EdgeKey)
    requires EventsInv(w.db) && AdvancedInv(w) && Feeds(w.db, e, k) && !w.db.events[e].dispatched
    ensures k !in w.advanced
  {
  }

  /** Advancing an edge moves it, and only it, from waiting to its outcome. */
  lemma CountsAfterAdvance(edges: map<EdgeKey, Edge>, advanced: map<EdgeKey, Outcome>, k: EdgeKey, o: Outcome, g: GroupKey)
    requires k in edges && edges[k].applied && k !in advanced
    ensures Waiting(edges, advanced[k := o], g) == Waiting(edges, advanced, g) - {k}
    ensures k in Waiting(edges, advanced, g) <==> g == GroupOf(edges, k)
    ensures forall p :: k !in Counted(edges, advanced, g, p)
    ensures forall p :: Counted(edges, advanced[k := o], g, p) ==
                        Counted(edges, advanced, g, p) + if p == o && g == GroupOf(edges, k) then {k} else {}
  {
  }

  lemma SizesAfterAdvance(edges: map<EdgeKey, Edge>, advanced: map<EdgeKey, Outcome>, k: EdgeKey, o: Outcome, g: GroupKey, p: Outcome)
    requires k in edges && edges[k].applied && k !in advanced
    ensures |Waiting(edges, advanced[k := o], g)| == |Waiting(edges, advanced, g)| - if g == GroupOf(edges, k) then 1 else 0
    ensures |Counted(edges, advanced[k := o], g, p)|
         == |Counted(edges, advanced, g, p)| + if p == o && g == GroupOf(edges, k) then 1 else 0
  {
    CountsAfterAdvance(edges, advanced, k, o, g);
  }

  lemma BumpKeepsRight(group: Group, edges: map<EdgeKey, Edge>, advanced: map<EdgeKey, Outcome>, k: EdgeKey, o: Outcome, g: GroupKey)
    requires k in edges && edges[k].applied && k !in advanced
    requires CountersRight(group, edges, advanced, g)
    ensures CountersRight(if g == GroupOf(edges, k) then group.Bump(o) else group, edges, advanced[k := o], g)
  {
    SizesAfterAdvance(edges, advanced, k, o, g, Success);
    SizesAfterAdvance(edges, advanced, k, o, g, Fail);
    SizesAfterAdvance(edges, advanced, k, o, g, Skip);
  }

  lemma AdvanceKeepsCounts(w: World, t: Task, w': World)
    requires CountInv(w) && TasksInv(w) && t in w.tasks && w' == AdvanceTask(w, t)
    ensures CountInv(w')
  {
    forall g | g in w'.db.groups ensures CountersRight(w'.db.groups[g], w'.db.edges, w'.advanced, g) {
      BumpKeepsRight(w.db.groups[g], w.db.edges, w.advanced, t.edge, TaskOutcome(w, t), g);
    }
  }

  lemma AdvanceAges(w: World, t: Task, w': World)
    requires TasksInv(w) && t in w.tasks && w' == AdvanceTask(w, t)
    ensures Aging(w.db.execs, w'.db.execs) && w'.db.execs.Keys == w.db.execs.Keys
    ensures forall x :: x in w.db.execs && x != TaskGroup(w, t).down ==> w'.db.execs[x] == w.db.execs[x]
    ensures forall x :: x in w.db.execs && !w.db.execs[x].Live() ==> w'.db.execs[x] == w.db.execs[x]
    ensures forall x :: x in w.db.execs ==> w'.db.execs[x].flow == w.db.execs[x].flow
  {
  }

  lemma AdvanceKeepsEvents(w: World, t: Task, w': World)
    requires Joined(w.db) && EventsInv(w.db) && TasksInv(w) && t in w.tasks && w' == AdvanceTask(w, t)
    ensures EventsInv(w'.db) && EventsGrow(w.db.events, w'.db.events)
  {
    AdvanceAges(w, t, w');
    assert EdgeJoinsMembers(w.db, t.edge);
    if w'.db.nextEvent == w.db.nextEvent {
      EventsStay(w.db, w'.db);
    } else {
      EventsAfterEnd(w.db, w'.db, w'.db.events[w.db.nextEvent]);
    }
  }

  lemma JoinedStays(db: Db, db': Db)
    requires Joined(db) && db'.edges == db.edges && db'.flows == db.flows
    requires db'.execs.Keys == db.execs.Keys && forall x :: x in db.execs ==> db'.execs[x].flow == db.execs[x].flow
    ensures Joined(db')
  {
  }

  lemma AdvanceKeepsCover(w: World, t: Task, w': World)
    requires EventsInv(w.db) && TasksInv(w) && AdvancedInv(w) && CoverInv(w)
    requires t in w.tasks && w' == AdvanceTask(w, t) && EventsGrow(w.db.events, w'.db.events)
    ensures TasksInv(w') && AdvancedInv(w') && CoverInv(w')
  {
    assert SettledBy(w'.db, t.event, t.edge, TaskOutcome(w, t)) by { assert Feeds(w.db, t.event, t.edge); }
    SettledStays(w, w'.db);
    forall d | d in w'.tasks
      ensures Feeds(w'.db, d.event, d.edge) && w'.db.events[d.event].dispatched
      ensures w'.db.edges[d.edge].applied && d.edge !in w'.advanced
    {
      assert Feeds(w.db, d.event, d.edge);
    }
    forall e, j | Feeds(w'.db, e, j) && w'.db.events[e].dispatched ensures j in w'.advanced || Task(e, j) in w'.tasks {
      assert Feeds(w.db, e, j);
    }
  }

  lemma AdvanceKeepsLive(w: World, t: Task, w': World)
    requires TasksInv(w) && AdvancedInv(w) && LiveInv(w) && t in w.tasks && w' == AdvanceTask(w, t)
    ensures LiveInv(w')
  {
    AdvanceAges(w, t, w');
    forall k | k in w'.advanced && k in w'.db.edges && GroupOf(w'.db.edges, k) in w'.db.groups
               && w'.db.edges[k].down in w'.db.execs && w'.db.execs[w'.db.edges[k].down].Live()
      ensures !w'.db.groups[GroupOf(w'.db.edges, k)].Decision().Impossible?
    {
      if GroupOf(w.db.edges, k) != TaskGroup(w, t) {
        assert k in w.advanced;
      }
    }
  }

  lemma AdvanceKeeps(w: World, t: Task)
    requires Inv(w) && t in w.tasks
    ensures t.event in w.db.events && t.edge in w.db.edges && Inv(AdvanceTask(w, t))
  {
    var w' := AdvanceTask(w, t);
    AdvanceAges(w, t, w');
    JoinedStays(w.db, w'.db);
    AdvanceKeepsEvents(w, t, w');
    AdvanceKeepsCover(w, t, w');
    AdvanceKeepsCounts(w, t, w');
    AdvanceKeepsLive(w, t, w');
  }

  // ---------------------------------------------------------------------
  // Runs

  predicate Quiet(s: Step) {
    s.DoCreateFlow? || s.DoInsertExecution? || s.DoAddExecution? || s.DoMove? || s.DoCloseFlow?
  }

  lemma QuietAges(w: World, s: Step)
    requires Quiet(s)
    ensures var w' := Next(w, s);
      && w' == w.(db := w.db.(flows := w'.db.flows, execs := w'.db.execs))
      && Aging(w.db.execs, w'.db.execs)
      && forall x :: x in w.db.execs && !w.db.execs[x].Live() ==> !w'.db.execs[x].Live()
  {
  }

  lemma BusyStepKeeps(w: World, s: Step)
    requires Inv(w) && Orderly(w, s) && !Quiet(s) && Next(w, s) != w && Joined(Next(w, s).db)
    ensures Inv(Next(w, s))
  {
    match s
    case DoStage(k, up, down, expected) => StageKeeps(w, k, up, down, Next(w, s).db);
    case DoApply(k, down) => ApplyKeeps(w, k);
    case DoSetPolicy(g, p) => SetPolicyKeeps(w, g, EncodePolicy(p), Next(w, s).db);
    case DoFinish(x, phase, outcome) => FinishKeeps(w, x, phase, outcome);
    case DoClaim(e) => ClaimKeeps(w, e);
    case DoAdvance(t) => AdvanceKeeps(w, t);
  }

  lemma StepKeepsInv(w: World, s: Step)
    requires Inv(w) && GraphInv(w.db) && Orderly(w, s)
    ensures Inv(Next(w, s))
  {
    assert Joined(Next(w, s).db) by { StepKeepsGraph(w, s); }
    if Quiet(s) {
      QuietAges(w, s);
      QuietStepKeeps(w, Next(w, s));
    } else if Next(w, s) != w {
      BusyStepKeeps(w, s);
    }
  }

  ghost predicate OrderlyRun(w: World, steps: seq<Step>)
    decreases |steps|
  {
    steps != [] ==> Orderly(w, steps[0]) && OrderlyRun(Next(w, steps[0]), steps[1..])
  }

  /**
   Counter conservation: in every interleaving that keeps the discipline, each group's
   running count is the number of its applied edges not yet advanced and its success,
   fail and skip counts are its advanced edges by the outcome of their own upstream's
   claimed event.
   */
  lemma {:induction false} CountersConserved(w: World, steps: seq<Step>)
    requires Inv(w) && GraphInv(w.db) && OrderlyRun(w, steps)
    ensures Inv(Run(w, steps)) && GraphInv(Run(w, steps).db)
    decreases |steps|
  {
    if steps != [] {
      StepKeepsInv(w, steps[0]);
      StepKeepsGraph(w, steps[0]);
      CountersConserved(Next(w, steps[0]), steps[1..]);
    }
  }

  /** Every run starts conserved. */
  lemma EmptyConserved()
    ensures Inv(EMPTY_WORLD) && GraphInv(EMPTY_WORLD.db)
  {
  }

  // ---------------------------------------------------------------------
  // When an apply keeps the counts

  /** No edge into the group has been counted. */
  ghost predicate NoneCounted(w: World, g: GroupKey) {
    forall k :: k in w.advanced && k in w.db.edges ==> GroupOf(w.db.edges, k) != g
  }

  /** A group without a row has nothing waiting; its counts are right once nothing is counted either. */
  lemma NoRowCounts(w: World, g: GroupKey)
    requires CountInv(w) && g !in w.db.groups
    ensures Waiting(w.db.edges, w.advanced, g) == {}
    ensures NoneCounted(w, g) <==> forall o :: Counted(w.db.edges, w.advanced, g, o) == {}
  {
    assert forall k :: k in w.advanced && k in w.db.edges && GroupOf(w.db.edges, k) == g ==>
      k in Counted(w.db.edges, w.advanced, g, w.advanced[k]);
  }

  /** Applying an edge that was counted before adds nothing that waits. */
  lemma AppliedLate(edges: map<EdgeKey, Edge>, advanced: map<EdgeKey, Outcome>, k: EdgeKey, g: GroupKey)
    requires k in edges && k in advanced
    ensures var edges' := edges[k := edges[k].(applied := true)];
      Waiting(edges', advanced, g) == Waiting(edges, advanced, g)
      && forall o :: Counted(edges', advanced, g, o) == Counted(edges, advanced, g, o)
  {
  }

  /** The named group of an apply before the edge's dispatch. */
  lemma NamedGroupInTime(w: World, k: EdgeKey, down: ExecId, w': World)
    requires CountInv(w) && k in w.db.edges && !w.db.edges[k].applied && k !in w.advanced
    requires w' == w.(db := ApplyDependency(w.db, k, down).0)
    ensures var g := GroupKey(k.flow, down);
      CountersRight(w'.db.groups[g], w'.db.edges, w'.advanced, g)
      <==> w.db.edges[k].down == down && (g in w.db.groups || NoneCounted(w, g))
  {
    var g := GroupKey(k.flow, down);
    CountsAfterEdgeWrite(w.db.edges, w.advanced, k, w.db.edges[k].(applied := true), g);
    if g in w.db.groups {
      assert CountersRight(w.db.groups[g], w.db.edges, w.advanced, g);
    } else {
      NoRowCounts(w, g);
    }
  }

  /** After the dispatch the edge is counted as running once too often. */
  lemma NamedGroupLate(w: World, k: EdgeKey, down: ExecId, w': World)
    requires CountInv(w) && k in w.db.edges && !w.db.edges[k].applied && k in w.advanced
    requires w' == w.(db := ApplyDependency(w.db, k, down).0)
    ensures var g := GroupKey(k.flow, down); !CountersRight(w'.db.groups[g], w'.db.edges, w'.advanced, g)
  {
    var g := GroupKey(k.flow, down);
    AppliedLate(w.db.edges, w.advanced, k, g);
    if g in w.db.groups {
      assert CountersRight(w.db.groups[g], w.db.edges, w.advanced, g);
    } else {
      NoRowCounts(w, g);
    }
  }

  /** With the right downstream named, the other groups keep their counts. */
  lemma OtherGroupCounts(w: World, k: EdgeKey, w': World, h: GroupKey)
    requires CountInv(w) && k in w.db.edges && !w.db.edges[k].applied && k !in w.advanced
    requires w' == w.(db := ApplyDependency(w.db, k, w.db.edges[k].down).0)
    requires h in w.db.groups && h != GroupOf(w.db.edges, k)
    ensures h in w'.db.groups && CountersRight(w'.db.groups[h], w'.db.edges, w'.advanced, h)
  {
    assert CountersRight(w.db.groups[h], w.db.edges, w.advanced, h);
    CountsAfterEdgeWrite(w.db.edges, w.advanced, k, w.db.edges[k].(applied := true), h);
  }

  /**
   Neither the downstream named in an apply call nor the order with the dispatch of the edge is
   checked.  From right counts, the counts are right afterwards exactly when the downstream is
   the edge's own, the edge has not been dispatched already, and no other edge was dispatched
   into the group before it had a row.
   */
  lemma ApplyCountsIff(w: World, k: EdgeKey, down: ExecId)
    requires CountInv(w) && k in w.db.edges && !w.db.edges[k].applied
    ensures var g := GroupKey(k.flow, down);
      CountInv(Next(w, DoApply(k, down)))
      <==> w.db.edges[k].down == down && k !in w.advanced && (g in w.db.groups || NoneCounted(w, g))
  {
    var w', g := w.(db := ApplyDependency(w.db, k, down).0), GroupKey(k.flow, down);
    if k in w.advanced { NamedGroupLate(w, k, down, w'); } else { NamedGroupInTime(w, k, down, w'); }
    if w.db.edges[k].down == down && k !in w.advanced && (g in w.db.groups || NoneCounted(w, g)) {
      forall h | h in w'.db.groups ensures CountersRight(w'.db.groups[h], w'.db.edges, w'.advanced, h) {
        if h != g { OtherGroupCounts(w, k, w', h); }
      }
      forall j | j in w'.db.edges && w'.db.edges[j].applied ensures GroupOf(w'.db.edges, j) in w'.db.groups {
        assert j != k ==> GroupOf(w.db.edges, j) in w.db.groups;
      }
    }
  }

  // ---------------------------------------------------------------------
  // An edge dispatched before it is applied

  /** An outcome that cannot revise the decision although it was never counted as running. */
  ghost predicate Harmless(r: Group, o: Outcome) {
    match DecodePolicy(r.policy)
    case AllOf => r.Decision().Impossible? || o == Success
    case AnyOf(_) => r.Decision().Satisfied? || o != Success
    case Quorum(k, _) => r.Decision().Satisfied? || o != Success || r.success + 1 < AsI32(k)
  }

  /**
   A hop keeps a decision already taken exactly when it takes its upstream out of the running
   bucket or its outcome is harmless.  On an edge not yet applied the bucket can be empty.
   */
  lemma HopKeepsDecisionIff(r: Group, o: Outcome)
    requires 0 <= r.success && 0 <= r.fail && 0 <= r.skip && 0 <= r.running && !r.Decision().Pending?
    ensures r.Bump(o).Decision() == r.Decision() <==> r.running > 0 || Harmless(r, o)
  {
  }

  /** With nothing running, a failure skips a live downstream that AllOf had released. */
  lemma LateFailureSkipsReleased(db: Db, g: GroupKey, up: ExecId, o: Outcome)
    requires g in db.groups && DecodePolicy(db.groups[g].policy) == AllOf && db.groups[g].Decision().Satisfied?
    requires 0 <= db.groups[g].success && 0 <= db.groups[g].fail && 0 <= db.groups[g].skip && db.groups[g].running == 0
    requires g.down in db.execs && db.execs[g.down].Live() && o != Success
    ensures Advance(db, g, up, o).execs[g.down] == SkipExec(db.execs[g.down])
  {
  }

  /** Counting an edge that was never applied: what the group's counters should be and are. */
  lemma EarlyAdvanceCounts(w: World, t: Task, w': World)
    requires CountInv(w) && t.event in w.db.events && t.edge in w.db.edges && t.edge !in w.advanced
    requires !w.db.edges[t.edge].applied && TaskGroup(w, t) in w.db.groups && w' == AdvanceTask(w, t)
    ensures var g := TaskGroup(w, t);
      CountersRight(w'.db.groups[g], w'.db.edges, w'.advanced, g) <==> w.db.groups[g].running == 0
  {
    var g, o := TaskGroup(w, t), TaskOutcome(w, t);
    assert CountersRight(w.db.groups[g], w.db.edges, w.advanced, g);
    EarlySizes(w.db.edges, w.advanced, t.edge, o, g, Success);
    EarlySizes(w.db.edges, w.advanced, t.edge, o, g, Fail);
    EarlySizes(w.db.edges, w.advanced, t.edge, o, g, Skip);
  }

  lemma EarlySizes(edges: map<EdgeKey, Edge>, advanced: map<EdgeKey, Outcome>, k: EdgeKey, o: Outcome, g: GroupKey, p: Outcome)
    requires k in edges && !edges[k].applied && k !in advanced
    ensures Waiting(edges, advanced[k := o], g) == Waiting(edges, advanced, g)
    ensures |Counted(edges, advanced[k := o], g, p)|
         == |Counted(edges, advanced, g, p)| + if p == o && g == GroupOf(edges, k) then 1 else 0
  {
    EarlySets(edges, advanced, k, o, g);
  }

  lemma EarlySets(edges: map<EdgeKey, Edge>, advanced: map<EdgeKey, Outcome>, k: EdgeKey, o: Outcome, g: GroupKey)
    requires k in edges && !edges[k].applied && k !in advanced
    ensures Waiting(edges, advanced[k := o], g) == Waiting(edges, advanced, g)
    ensures forall p :: k !in Counted(edges, advanced, g, p)
    ensures forall p :: Counted(edges, advanced[k := o], g, p) ==
                        Counted(edges, advanced, g, p) + if p == o && g == GroupOf(edges, k) then {k} else {}
  {
  }

  /** The other groups of an early hop keep their counts. */
  lemma EarlyAdvanceElsewhere(w: World, t: Task, w': World, h: GroupKey)
    requires CountInv(w) && t.event in w.db.events && t.edge in w.db.edges && t.edge !in w.advanced
    requires !w.db.edges[t.edge].applied && w' == AdvanceTask(w, t) && h in w.db.groups && h != TaskGroup(w, t)
    ensures h in w'.db.groups && CountersRight(w'.db.groups[h], w'.db.edges, w'.advanced, h)
  {
    var o := TaskOutcome(w, t);
    assert CountersRight(w.db.groups[h], w.db.edges, w.advanced, h);
    EarlySizes(w.db.edges, w.advanced, t.edge, o, h, Success);
    EarlySizes(w.db.edges, w.advanced, t.edge, o, h, Fail);
    EarlySizes(w.db.edges, w.advanced, t.edge, o, h, Skip);
  }

  /**
   Right after a first hop the counts read right exactly when the edge was applied, or nothing
   of its group was there to be miscounted.  In the latter case the damage comes with the apply.
   */
  lemma HopCountsIff(w: World, t: Task)
    requires CountInv(w) && t.event in w.db.events && t.edge in w.db.edges && t.edge !in w.advanced
    ensures var g := TaskGroup(w, t);
      CountInv(AdvanceTask(w, t))
      <==> w.db.edges[t.edge].applied || g !in w.db.groups || w.db.groups[g].running == 0
  {
    var w', g := AdvanceTask(w, t), TaskGroup(w, t);
    if w.db.edges[t.edge].applied {
      forall h | h in w'.db.groups ensures CountersRight(w'.db.groups[h], w'.db.edges, w'.advanced, h) {
        BumpKeepsRight(w.db.groups[h], w.db.edges, w.advanced, t.edge, TaskOutcome(w, t), h);
      }
    } else {
      if g in w.db.groups { EarlyAdvanceCounts(w, t, w'); }
      forall h | h in w.db.groups && h != g ensures h in w'.db.groups && CountersRight(w'.db.groups[h], w'.db.edges, w'.advanced, h) {
        EarlyAdvanceElsewhere(w, t, w', h);
      }
    }
  }

  lemma AdvanceSettles(w: World, t: Task)
    requires AdvancedInv(w) && w.db.nextEvent !in w.db.events
    requires Feeds(w.db, t.event, t.edge) && w.db.events[t.event].dispatched && w.db.edges[t.edge].applied
    ensures AdvancedInv(AdvanceTask(w, t))
  {
    var w' := AdvanceTask(w, t);
    SettledStays(w, w'.db);
    assert SettledBy(w'.db, t.event, t.edge, TaskOutcome(w, t));
  }

  /**
   Carrying a claimed event to an edge for the first time keeps the counts and the history they
   rest on exactly when the edge was applied before.
   */
  lemma AdvanceConservesIffApplied(w: World, t: Task)
    requires CountInv(w) && AdvancedInv(w) && w.db.nextEvent !in w.db.events
    requires Feeds(w.db, t.event, t.edge) && w.db.events[t.event].dispatched && t.edge !in w.advanced
    ensures CountInv(AdvanceTask(w, t)) && AdvancedInv(AdvanceTask(w, t)) <==> w.db.edges[t.edge].applied
  {
    HopCountsIff(w, t);
    if w.db.edges[t.edge].applied { AdvanceSettles(w, t); } else { assert t.edge in AdvanceTask(w, t).advanced; }
  }
}
