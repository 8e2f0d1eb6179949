/**
 Termination of the skip cascade.  The graph may have cycles.
 */
module Cascade {
  import opened Common
  import opened EdgePolicy
  import opened FlowModel
  import opened FlowGraph
  import opened FlowCounters

  /** A dispatcher does something: it claims an event or advances an edge it owes. */
  ghost predicate Dispatches(w: World, s: Step) {
    || (s.DoClaim? && Claimable(w.db, s.e))
    || (s.DoAdvance? && s.task in w.tasks)
  }

  ghost predicate DispatchRun(w: World, steps: seq<Step>)
    decreases |steps|
  {
    steps != [] ==> Dispatches(w, steps[0]) && DispatchRun(Next(w, steps[0]), steps[1..])
  }

  /** No event is left to claim and no dispatcher owes anything. */
  ghost predicate Quiescent(w: World) {
    w.tasks == {} && forall e :: e in w.db.events ==> w.db.events[e].dispatched
  }

  ghost function DispatchOf(w: World, s: Step): World
    requires TasksInv(w) && Dispatches(w, s)
  {
    if s.DoClaim? then ClaimEvent(w, s.e) else AdvanceTask(w, s.task)
  }

  lemma DispatchIsNext(w: World, s: Step)
    requires TasksInv(w) && Dispatches(w, s)
    ensures Next(w, s) == DispatchOf(w, s)
    ensures Next(w, s).db.edges == w.db.edges
  {
  }

  lemma DispatchKeepsInv(w: World, s: Step)
    requires Inv(w) && Dispatches(w, s) && Orderly(w, s)
    ensures Inv(Next(w, s)) && Next(w, s).db.edges == w.db.edges
  {
    DispatchIsNext(w, s);
    if s.DoClaim? { ClaimKeeps(w, s.e); } else { AdvanceKeeps(w, s.task); }
  }

  // ---------------------------------------------------------------------
  // Termination

  ghost function LiveExecs(execs: map<ExecId, Exec>): set<ExecId> {
    set x | x in execs && execs[x].Live()
  }

  ghost function Unclaimed(events: map<EventId, Event>): set<EventId> {
    set e | e in events && !events[e].dispatched
  }

  /** Executions that can still end plus events still to be claimed. */
  ghost function Load(db: Db): nat {
    |LiveExecs(db.execs)| + |Unclaimed(db.events)|
  }

  ghost function Rank(w: World): nat {
    Load(w.db) + |w.db.edges.Keys - w.advanced.Keys|
  }

  lemma ClaimLowersLoad(w: World, e: EventId)
    requires Claimable(w.db, e)
    ensures Load(ClaimEvent(w, e).db) == Load(w.db) - 1
    ensures Rank(ClaimEvent(w, e)) == Rank(w) - 1
  {
    assert Unclaimed(Claim(w.db, e).events) == Unclaimed(w.db.events) - {e};
  }

  lemma LiveAfter(execs: map<ExecId, Exec>, x: ExecId, row: Exec)
    requires x in execs && (row.Live() ==> execs[x].Live())
    ensures |LiveExecs(execs[x := row])| == |LiveExecs(execs)| - if execs[x].Live() && !row.Live() then 1 else 0
  {
    assert LiveExecs(execs[x := row]) == LiveExecs(execs) - if execs[x].Live() && !row.Live() then {x} else {};
  }

  lemma UnclaimedAfter(events: map<EventId, Event>, e: EventId, event: Event)
    requires e !in events && !event.dispatched
    ensures |Unclaimed(events[e := event])| == |Unclaimed(events)| + 1
  {
    assert Unclaimed(events[e := event]) == Unclaimed(events) + {e};
  }

  /** A skip trades one live execution for one new event. */
  lemma AdvanceKeepsLoad(db: Db, g: GroupKey, up: ExecId, o: Outcome)
    requires db.nextEvent !in db.events
    ensures Load(Advance(db, g, up, o)) == Load(db)
  {
    if g in db.groups {
      var d := db.groups[g].Bump(o).Decision();
      if g.down in db.execs { LiveAfter(db.execs, g.down, AfterDecision(db.execs[g.down], d)); }
      if Skips(db, g, d) { UnclaimedAfter(db.events, db.nextEvent, Event(g.down, Some(g.flow), "skipped", false)); }
    }
  }

  lemma AdvanceLowersRank(w: World, t: Task)
    requires TasksInv(w) && t in w.tasks && w.db.nextEvent !in w.db.events
    ensures Load(AdvanceTask(w, t).db) == Load(w.db)
    ensures Rank(AdvanceTask(w, t)) == Rank(w) - 1
  {
    var w' := AdvanceTask(w, t);
    AdvanceKeepsLoad(w.db, TaskGroup(w, t), w.db.events[t.event].exec, TaskOutcome(w, t));
    assert w'.db.edges.Keys - w'.advanced.Keys == (w.db.edges.Keys - w.advanced.Keys) - {t.edge};
  }

  lemma DispatchLowersRank(w: World, s: Step)
    requires TasksInv(w) && w.db.nextEvent !in w.db.events && Dispatches(w, s)
    ensures Rank(Next(w, s)) == Rank(w) - 1
  {
    DispatchIsNext(w, s);
    if s.DoClaim? { ClaimLowersLoad(w, s.e); } else { AdvanceLowersRank(w, s.task); }
  }

  ghost function Claims(steps: seq<Step>): nat
  {
    if steps == [] then 0 else Claims(steps[1..]) + if steps[0].DoClaim? then 1 else 0
  }

  // Without any discipline

  /** Event ids are fresh and outstanding work refers to rows that exist. */
  ghost predicate Sound(w: World) {
    && (forall e :: e in w.db.events ==> e < w.db.nextEvent)
    && (forall t :: t in w.tasks ==> t.event in w.db.events && t.edge in w.db.edges)
  }

  /** Bounds the steps that are left: each claim owes at most one hop per edge. */
  ghost function Weight(w: World): nat { Load(w.db) * (|w.db.edges| + 1) + |w.tasks| }

  lemma ClaimOwes(w: World, e: EventId)
    requires e in w.db.events
    ensures |ClaimEvent(w, e).tasks| <= |w.tasks| + |w.db.edges|
  {
    var out := OutEdges(w.db, w.db.events[e]);
    var owed := set k | k in out :: Task(e, k);
    TasksCount(e, out);
    SubsetSize(out, w.db.edges.Keys);
    assert |w.tasks + owed| <= |w.tasks| + |owed|;
  }

  lemma {:induction false} TasksCount(e: EventId, ks: set<EdgeKey>)
    ensures |set k | k in ks :: Task(e, k)| == |ks|
    decreases |ks|
  {
    if k :| k in ks {
      TasksCount(e, ks - {k});
      assert (set j | j in ks :: Task(e, j)) == (set j | j in ks - {k} :: Task(e, j)) + {Task(e, k)};
    }
  }

  lemma AdvanceLoad(w: World, t: Task)
    requires Sound(w) && t in w.tasks
    ensures var w' := AdvanceTask(w, t);
      Sound(w') && w'.db.edges == w.db.edges && Load(w'.db) == Load(w.db) && |w'.tasks| == |w.tasks| - 1
  {
    AdvanceKeepsLoad(w.db, TaskGroup(w, t), w.db.events[t.event].exec, TaskOutcome(w, t));
  }

  lemma DispatchLowersLoad(w: World, s: Step)
    requires Sound(w) && Dispatches(w, s)
    ensures var w' := Next(w, s);
      && Sound(w') && w'.db.edges == w.db.edges
      && Load(w'.db) == Load(w.db) - (if s.DoClaim? then 1 else 0)
      && |w'.tasks| <= if s.DoClaim? then |w.tasks| + |w.db.edges| else |w.tasks| - 1
  {
    if s.DoClaim? {
      ClaimLowersLoad(w, s.e);
      ClaimOwes(w, s.e);
    } else {
      AdvanceLoad(w, s.task);
    }
  }

  lemma LowerWeight(load: nat, load': nat, edges: nat, tasks: nat, tasks': nat, claim: bool)
    requires load' == load - (if claim then 1 else 0)
    requires tasks' <= if claim then tasks + edges else tasks - 1
    ensures load' * (edges + 1) + tasks' < load * (edges + 1) + tasks
  {
  }

  /**
   The cascade ends on every graph, cycles included, in every order and whether or not edges
   were applied in time: each claimed event lowers live executions plus unclaimed events by
   exactly one, and the steps of a run are bounded by the weight it starts with.
   */
  lemma {:induction false} CascadeEnds(w: World, steps: seq<Step>)
    requires Sound(w) && DispatchRun(w, steps)
    ensures Sound(Run(w, steps))
    ensures Claims(steps) == Load(w.db) - Load(Run(w, steps).db)
    ensures |steps| <= Weight(w) - Weight(Run(w, steps))
    decreases |steps|
  {
    if steps != [] {
      var w' := Next(w, steps[0]);
      DispatchLowersLoad(w, steps[0]);
      LowerWeight(Load(w.db), Load(w'.db), |w.db.edges|, |w.tasks|, |w'.tasks|, steps[0].DoClaim?);
      CascadeEnds(w', steps[1..]);
    }
  }

  // With it, the length of a run is exact

  lemma {:induction false} DispatchLength(w: World, steps: seq<Step>)
    requires Inv(w) && DispatchRun(w, steps) && OrderlyRun(w, steps)
    ensures Inv(Run(w, steps)) && Run(w, steps).db.edges == w.db.edges
    ensures |steps| == Rank(w) - Rank(Run(w, steps))
    decreases |steps|
  {
    if steps != [] {
      DispatchKeepsInv(w, steps[0]);
      DispatchLowersRank(w, steps[0]);
      DispatchLength(Next(w, steps[0]), steps[1..]);
    }
  }

  lemma SomeDispatch(w: World) returns (s: Step)
    requires !Quiescent(w)
    ensures Dispatches(w, s)
  {
    if t :| t in w.tasks {
      s := DoAdvance(t);
    } else {
      var e :| e in w.db.events && !w.db.events[e].dispatched;
      s := DoClaim(e);
    }
  }

  /** As long as anything is left to do a dispatcher can do it, so a quiet end is reached. */
  lemma {:induction false} QuiescenceReachable(w: World) returns (steps: seq<Step>)
    requires Sound(w)
    ensures DispatchRun(w, steps) && Quiescent(Run(w, steps))
    decreases Weight(w)
  {
    if Quiescent(w) {
      steps := [];
    } else {
      var s := SomeDispatch(w);
      DispatchLowersLoad(w, s);
      LowerWeight(Load(w.db), Load(Next(w, s).db), |w.db.edges|, |w.tasks|, |Next(w, s).tasks|, s.DoClaim?);
      var rest := QuiescenceReachable(Next(w, s));
      steps := [s] + rest;
      assert steps[1..] == rest;
    }
  }

  /** On a graph whose edges have all been applied the discipline holds by itself. */
  lemma {:induction false} AppliedGraphOrderly(w: World, steps: seq<Step>)
    requires Inv(w) && DispatchRun(w, steps) && forall k :: k in w.db.edges ==> w.db.edges[k].applied
    ensures OrderlyRun(w, steps)
    decreases |steps|
  {
    if steps != [] {
      DispatchKeepsInv(w, steps[0]);
      AppliedGraphOrderly(Next(w, steps[0]), steps[1..]);
    }
  }
}
