/**
 What the skip cascade computes: the least set of executions closed under impossibility,
 whatever the order of dispatch, and with it every counter, flag and execution row.
 */
module Confluence {
  import opened Common
  import opened EdgePolicy
  import opened FlowModel
  import opened FlowGraph
  import opened FlowCounters
  import opened Cascade

  // ---------------------------------------------------------------------
  // The declarative answer, read off the tables before dispatching starts

  ghost predicate Tells(db: Db, e: EventId, k: EdgeKey, o: Outcome) {
    Feeds(db, e, k) && OutcomeKind(db.events[e].outcome) == o
  }

  /** The upstream of `k` ends with `o`: its event says so, or it is among the skipped `xs`. */
  ghost predicate Ends(db: Db, xs: set<ExecId>, k: EdgeKey, o: Outcome) {
    k in db.edges && ((db.edges[k].up in xs && o == Skip) || exists e :: Tells(db, e, k, o))
  }

  /** The applied edges into a group; the others count for nothing yet. */
  ghost function AppliedInto(edges: map<EdgeKey, Edge>, g: GroupKey): set<EdgeKey> {
    set k | k in edges && GroupOf(edges, k) == g && edges[k].applied
  }

  ghost function Ended(db: Db, xs: set<ExecId>, g: GroupKey, o: Outcome): set<EdgeKey> {
    set k | k in AppliedInto(db.edges, g) && Ends(db, xs, k, o)
  }

  /** The decision on a group once every event and every skip in `xs` has reached it. */
  ghost function Verdict(db: Db, xs: set<ExecId>, g: GroupKey): Decision
    requires g in db.groups
  {
    Evaluate(DecodePolicy(db.groups[g].policy), |Ended(db, xs, g, Success)|, |Ended(db, xs, g, Fail)|,
             |Ended(db, xs, g, Skip)|, |AppliedInto(db.edges, g)|)
  }

  /**
   `xs` is closed: a live execution that some ended upstream reaches and whose policy has
   become impossible is in it.
   */
  ghost predicate Closed(db: Db, xs: set<ExecId>) {
    forall k, o :: Ends(db, xs, k, o) && db.edges[k].applied && GroupOf(db.edges, k) in db.groups
      && db.edges[k].down in LiveExecs(db.execs) && db.edges[k].down !in xs
      ==> !Verdict(db, xs, GroupOf(db.edges, k)).Impossible?
  }

  ghost function Skipped(w0: World, w: World): set<ExecId> {
    LiveExecs(w0.db.execs) - LiveExecs(w.db.execs)
  }

  // ---------------------------------------------------------------------
  // What a dispatching run leaves as it was

  ghost predicate SkipEvent(w0: World, w: World, e: EventId, x: ExecId) {
    e in w.db.events && e !in w0.db.events && x in w0.db.execs
    && w.db.events[e].exec == x && w.db.events[e].flow == w0.db.execs[x].flow
    && w.db.events[e].outcome == "skipped"
  }

  ghost predicate SameTables(w0: World, w: World) {
    && w.db.edges == w0.db.edges
    && w.db.groups.Keys == w0.db.groups.Keys
    && (forall g :: g in w0.db.groups ==> w.db.groups[g].policy == w0.db.groups[g].policy)
    && w.db.execs.Keys == w0.db.execs.Keys
    && (forall x :: x in w0.db.execs ==>
          w.db.execs[x].flow == w0.db.execs[x].flow && (w.db.execs[x].Live() ==> w0.db.execs[x].Live()))
    && (forall k :: k in w0.advanced ==> k in w.advanced && w.advanced[k] == w0.advanced[k])
  }

  /** The only new events are those of skipped executions, and each of these has one. */
  ghost predicate EventsOfSkips(w0: World, w: World) {
    && EventsGrow(w0.db.events, w.db.events)
    && (forall e :: e in w.db.events && e !in w0.db.events ==>
          w.db.events[e].exec in Skipped(w0, w) && SkipEvent(w0, w, e, w.db.events[e].exec))
    && (forall x :: x in Skipped(w0, w) ==> exists e :: SkipEvent(w0, w, e, x))
  }

  ghost predicate Later(w0: World, w: World) {
    SameTables(w0, w) && EventsOfSkips(w0, w)
  }

  lemma LaterRefl(w: World)
    ensures Later(w, w)
  {
  }

  lemma ClaimLater(w0: World, w: World, e: EventId)
    requires Later(w0, w) && Claimable(w.db, e)
    ensures Later(w0, ClaimEvent(w, e))
  {
    var w' := ClaimEvent(w, e);
    forall x | x in Skipped(w0, w') ensures exists d :: SkipEvent(w0, w', d, x) {
      assert x in Skipped(w0, w);
      var d :| SkipEvent(w0, w, d, x);
      assert SkipEvent(w0, w', d, x);
    }
    forall d | d in w'.db.events && d !in w0.db.events ensures SkipEvent(w0, w', d, w'.db.events[d].exec) {
      assert SkipEvent(w0, w, d, w.db.events[d].exec);
    }
  }

  lemma AdvanceSameTables(w0: World, w: World, t: Task)
    requires TasksInv(w) && SameTables(w0, w) && t in w.tasks
    ensures SameTables(w0, AdvanceTask(w, t))
  {
    AdvanceAges(w, t, AdvanceTask(w, t));
  }

  /** A hop adds an event exactly when it skips its downstream. */
  lemma AdvanceAddsEvent(w: World, t: Task, w': World)
    requires TasksInv(w) && t in w.tasks && w' == AdvanceTask(w, t)
    requires w.db.nextEvent !in w.db.events && EdgeJoinsMembers(w.db, t.edge)
    ensures var x := w.db.edges[t.edge].down;
      if w'.db.events == w.db.events then LiveExecs(w'.db.execs) == LiveExecs(w.db.execs)
      else
        && x in LiveExecs(w.db.execs)
        && LiveExecs(w'.db.execs) == LiveExecs(w.db.execs) - {x}
        && w'.db.events == w.db.events[w.db.nextEvent := Event(x, w.db.execs[x].flow, "skipped", false)]
        && TaskGroup(w, t) in w.db.groups && w.db.groups[TaskGroup(w, t)].Bump(TaskOutcome(w, t)).Decision().Impossible?
  {
  }

  lemma SkippedAfterHop(w0: World, w: World, t: Task, w': World)
    requires SameTables(w0, w) && TasksInv(w) && t in w.tasks && w' == AdvanceTask(w, t)
    requires w.db.nextEvent !in w.db.events && EdgeJoinsMembers(w.db, t.edge)
    ensures if w'.db.events == w.db.events then Skipped(w0, w') == Skipped(w0, w)
      else
        && Skipped(w0, w') == Skipped(w0, w) + {w.db.edges[t.edge].down}
        && w.db.edges[t.edge].down in LiveExecs(w0.db.execs)
        && TaskGroup(w, t) in w.db.groups && w.db.groups[TaskGroup(w, t)].Bump(TaskOutcome(w, t)).Decision().Impossible?
  {
    AdvanceAddsEvent(w, t, w');
  }

  lemma SkipEventsStay(w0: World, w: World, w': World)
    requires EventsGrow(w.db.events, w'.db.events)
    ensures forall e, x :: SkipEvent(w0, w, e, x) ==> SkipEvent(w0, w', e, x)
  {
  }

  lemma AdvanceEventsOfSkips(w0: World, w: World, t: Task)
    requires Later(w0, w) && TasksInv(w) && t in w.tasks
    requires w.db.nextEvent !in w.db.events && EdgeJoinsMembers(w.db, t.edge)
    ensures EventsOfSkips(w0, AdvanceTask(w, t))
  {
    var w', x := AdvanceTask(w, t), w.db.edges[t.edge].down;
    AdvanceAddsEvent(w, t, w');
    SkippedAfterHop(w0, w, t, w');
    SkipEventsStay(w0, w, w');
    if w'.db.events != w.db.events { assert SkipEvent(w0, w', w.db.nextEvent, x); }
  }

  lemma DispatchLater(w0: World, w: World, s: Step)
    requires Inv(w) && Later(w0, w) && Dispatches(w, s)
    ensures Later(w0, Next(w, s))
  {
    DispatchIsNext(w, s);
    if s.DoClaim? {
      ClaimLater(w0, w, s.e);
    } else {
      AdvanceSameTables(w0, w, s.task);
      AdvanceEventsOfSkips(w0, w, s.task);
    }
  }

  // ---------------------------------------------------------------------
  // Leastness

  /** The events after a run say what the events before it and the skips say. */
  lemma TellsIffEnds(w0: World, w: World, k: EdgeKey, o: Outcome)
    requires Joined(w0.db) && Later(w0, w)
    ensures (exists e :: Tells(w.db, e, k, o)) <==> Ends(w0.db, Skipped(w0, w), k, o)
  {
    if e :| Tells(w.db, e, k, o) {
      if e in w0.db.events { assert Tells(w0.db, e, k, o); }
    }
    if Ends(w0.db, Skipped(w0, w), k, o) {
      if e :| Tells(w0.db, e, k, o) {
        assert Tells(w.db, e, k, o);
      } else {
        assert EdgeJoinsMembers(w0.db, k);
        var e :| SkipEvent(w0, w, e, w0.db.edges[k].up);
        assert Tells(w.db, e, k, o);
      }
    }
  }

  lemma AdvancedEnds(w0: World, w: World, xs: set<ExecId>, k: EdgeKey)
    requires Joined(w0.db) && AdvancedInv(w) && Later(w0, w) && Skipped(w0, w) <= xs && k in w.advanced
    ensures Ends(w0.db, xs, k, w.advanced[k])
  {
    var e :| SettledBy(w.db, e, k, w.advanced[k]);
    assert Tells(w.db, e, k, w.advanced[k]);
    TellsIffEnds(w0, w, k, w.advanced[k]);
  }

  /** Whatever has been counted is accounted for by the events and the skips. */
  lemma CountedAmongEnded(w0: World, w: World, xs: set<ExecId>, g: GroupKey, o: Outcome)
    requires Joined(w0.db) && AdvancedInv(w) && Later(w0, w) && Skipped(w0, w) <= xs
    ensures Counted(w.db.edges, w.advanced, g, o) <= Ended(w0.db, xs, g, o)
  {
    forall k | k in Counted(w.db.edges, w.advanced, g, o) ensures k in Ended(w0.db, xs, g, o) {
      AdvancedEnds(w0, w, xs, k);
    }
  }

  /** An edge ends in at most one way, so the ways share out the incoming edges. */
  lemma EndedFits(db: Db, xs: set<ExecId>, g: GroupKey)
    requires EventsInv(db) && xs <= LiveExecs(db.execs)
    ensures |Ended(db, xs, g, Success)| + |Ended(db, xs, g, Fail)| + |Ended(db, xs, g, Skip)| <= |AppliedInto(db.edges, g)|
  {
    var a, b, c := Ended(db, xs, g, Success), Ended(db, xs, g, Fail), Ended(db, xs, g, Skip);
    assert a !! b && (a + b) !! c;
    SubsetSize(a + b + c, AppliedInto(db.edges, g));
  }

  lemma FourParts<T>(a: set<T>, b: set<T>, c: set<T>, d: set<T>, all: set<T>)
    requires a !! b && a !! c && a !! d && b !! c && b !! d && c !! d
    requires all == a + b + c + d
    ensures |a| + |b| + |c| + |d| == |all|
  {
  }

  /** Waiting and counted edges share out the applied ones. */
  lemma EdgesShared(edges: map<EdgeKey, Edge>, advanced: map<EdgeKey, Outcome>, g: GroupKey)
    requires forall k :: k in edges && k in advanced ==> edges[k].applied
    ensures |Counted(edges, advanced, g, Success)| + |Counted(edges, advanced, g, Fail)|
          + |Counted(edges, advanced, g, Skip)| + |Waiting(edges, advanced, g)| == |AppliedInto(edges, g)|
  {
    var a, b, c := Counted(edges, advanced, g, Success), Counted(edges, advanced, g, Fail), Counted(edges, advanced, g, Skip);
    var d, all := Waiting(edges, advanced, g), AppliedInto(edges, g);
    assert a <= all && b <= all && c <= all && d <= all;
    forall k | k in all ensures k in a || k in b || k in c || k in d { }
    assert all == a + b + c + d;
    FourParts(a, b, c, d, all);
  }

  /** The counters of a group never exceed what the events and the skips account for. */
  lemma EndedDominates(w0: World, w: World, xs: set<ExecId>, g: GroupKey)
    requires Joined(w0.db) && AdvancedInv(w) && CountInv(w)
    requires Later(w0, w) && Skipped(w0, w) <= xs && g in w.db.groups
    ensures var r := w.db.groups[g];
      && 0 <= r.success <= |Ended(w0.db, xs, g, Success)|
      && 0 <= r.fail <= |Ended(w0.db, xs, g, Fail)|
      && 0 <= r.skip <= |Ended(w0.db, xs, g, Skip)|
  {
    assert CountersRight(w.db.groups[g], w.db.edges, w.advanced, g);
    forall o ensures |Counted(w.db.edges, w.advanced, g, o)| <= |Ended(w0.db, xs, g, o)| {
      CountedAmongEnded(w0, w, xs, g, o);
      SubsetSize(Counted(w.db.edges, w.advanced, g, o), Ended(w0.db, xs, g, o));
    }
  }

  lemma CountersFit(w: World, g: GroupKey)
    requires CountInv(w) && AdvancedInv(w) && g in w.db.groups
    ensures var r := w.db.groups[g];
      r.success + r.fail + r.skip + r.running == |AppliedInto(w.db.edges, g)| && 0 <= r.running
  {
    assert CountersRight(w.db.groups[g], w.db.edges, w.advanced, g);
    EdgesShared(w.db.edges, w.advanced, g);
  }

  /** `DecisionStable` for the row of a group found impossible. */
  lemma GroupStaysImpossible(r: Group, success: nat, fail: nat, skip: nat, total: nat)
    requires r.Decision().Impossible?
    requires 0 <= r.success <= success && 0 <= r.fail <= fail && 0 <= r.skip <= skip && 0 <= r.running
    requires r.success + r.fail + r.skip + r.running == total && success + fail + skip <= total
    ensures Evaluate(DecodePolicy(r.policy), success, fail, skip, total).Impossible?
  {
    DecisionStable(DecodePolicy(r.policy), r.success, r.fail, r.skip, success, fail, skip, total);
  }

  /** A group found impossible during the run is impossible for every larger set. */
  lemma ImpossibleForAll(w0: World, w: World, xs: set<ExecId>, g: GroupKey)
    requires Joined(w0.db) && EventsInv(w0.db) && AdvancedInv(w) && CountInv(w)
    requires Later(w0, w) && Skipped(w0, w) <= xs <= LiveExecs(w0.db.execs)
    requires g in w.db.groups && w.db.groups[g].Decision().Impossible?
    ensures Verdict(w0.db, xs, g).Impossible?
  {
    CountersFit(w, g);
    EndedDominates(w0, w, xs, g);
    EndedFits(w0.db, xs, g);
    GroupStaysImpossible(w.db.groups[g], |Ended(w0.db, xs, g, Success)|, |Ended(w0.db, xs, g, Fail)|,
                         |Ended(w0.db, xs, g, Skip)|, |AppliedInto(w0.db.edges, g)|);
  }

  /** A hop after its counter write and before its decision is carried out. */
  ghost function Bumped(w: World, t: Task): World
    requires t.event in w.db.events && t.edge in w.db.edges && TaskGroup(w, t) in w.db.groups
  {
    var g := TaskGroup(w, t);
    World(w.db.(groups := w.db.groups[g := w.db.groups[g].Bump(TaskOutcome(w, t))]),
          w.tasks - {t}, w.advanced[t.edge := TaskOutcome(w, t)])
  }

  lemma BumpedCounts(w: World, t: Task)
    requires TasksInv(w) && AdvancedInv(w) && CountInv(w) && t in w.tasks
    ensures TaskGroup(w, t) in w.db.groups
    ensures CountInv(Bumped(w, t))
  {
    var w' := Bumped(w, t);
    forall g | g in w'.db.groups ensures CountersRight(w'.db.groups[g], w'.db.edges, w'.advanced, g) {
      BumpKeepsRight(w.db.groups[g], w.db.edges, w.advanced, t.edge, TaskOutcome(w, t), g);
    }
  }

  lemma BumpedAdvanced(w: World, t: Task)
    requires TasksInv(w) && AdvancedInv(w) && t in w.tasks && TaskGroup(w, t) in w.db.groups
    ensures AdvancedInv(Bumped(w, t))
  {
    SettledStays(w, Bumped(w, t).db);
    assert SettledBy(Bumped(w, t).db, t.event, t.edge, TaskOutcome(w, t)) by { assert Feeds(w.db, t.event, t.edge); }
  }

  lemma BumpedLater(w0: World, w: World, t: Task)
    requires Later(w0, w) && t.event in w.db.events && t.edge in w.db.edges && TaskGroup(w, t) in w.db.groups
    requires t.edge !in w.advanced
    ensures Later(w0, Bumped(w, t)) && Skipped(w0, Bumped(w, t)) == Skipped(w0, w)
  {
    var w' := Bumped(w, t);
    SkipEventsStay(w0, w, w');
    forall x | x in Skipped(w0, w') ensures exists e :: SkipEvent(w0, w', e, x) {
      assert x in Skipped(w0, w);
      var e :| SkipEvent(w0, w, e, x);
      assert SkipEvent(w0, w', e, x);
    }
    forall e | e in w'.db.events && e !in w0.db.events ensures SkipEvent(w0, w', e, w'.db.events[e].exec) {
      assert SkipEvent(w0, w, e, w.db.events[e].exec);
    }
  }

  /** Skipping outside a closed set is ruled out. */
  lemma SkipStaysInside(w0: World, w: World, t: Task, xs: set<ExecId>)
    requires Joined(w0.db) && EventsInv(w0.db)
    requires TasksInv(w) && AdvancedInv(w) && CountInv(w) && Later(w0, w) && t in w.tasks
    requires Closed(w0.db, xs) && Skipped(w0, w) <= xs <= LiveExecs(w0.db.execs)
    requires TaskGroup(w, t) in w.db.groups && w.db.edges[t.edge].down in LiveExecs(w0.db.execs)
    requires w.db.groups[TaskGroup(w, t)].Bump(TaskOutcome(w, t)).Decision().Impossible?
    ensures w.db.edges[t.edge].down in xs
  {
    BumpedCounts(w, t);
    BumpedAdvanced(w, t);
    BumpedLater(w0, w, t);
    ImpossibleForAll(w0, Bumped(w, t), xs, TaskGroup(w, t));
    assert Tells(w.db, t.event, t.edge, TaskOutcome(w, t)) by { assert Feeds(w.db, t.event, t.edge); }
    TellsIffEnds(w0, w, t.edge, TaskOutcome(w, t));
    assert Ends(w0.db, xs, t.edge, TaskOutcome(w, t));
  }

  lemma AddedInside(ys: set<ExecId>, x: ExecId, xs: set<ExecId>)
    requires ys <= xs && x in xs
    ensures ys + {x} <= xs
  {
  }

  lemma AdvanceStaysInside(w0: World, w: World, t: Task, xs: set<ExecId>)
    requires Joined(w0.db) && EventsInv(w0.db)
    requires TasksInv(w) && AdvancedInv(w) && CountInv(w) && Later(w0, w) && t in w.tasks
    requires w.db.nextEvent !in w.db.events && EdgeJoinsMembers(w.db, t.edge)
    requires Closed(w0.db, xs) && Skipped(w0, w) <= xs <= LiveExecs(w0.db.execs)
    ensures Skipped(w0, AdvanceTask(w, t)) <= xs
  {
    SkippedAfterHop(w0, w, t, AdvanceTask(w, t));
    if AdvanceTask(w, t).db.events != w.db.events {
      SkipStaysInside(w0, w, t, xs);
      AddedInside(Skipped(w0, w), w.db.edges[t.edge].down, xs);
    }
  }

  lemma DispatchStaysInside(w0: World, w: World, s: Step, xs: set<ExecId>)
    requires Inv(w0) && Inv(w) && Later(w0, w) && Dispatches(w, s)
    requires Closed(w0.db, xs) && Skipped(w0, w) <= xs <= LiveExecs(w0.db.execs)
    ensures Skipped(w0, Next(w, s)) <= xs
  {
    DispatchIsNext(w, s);
    if s.DoAdvance? { AdvanceStaysInside(w0, w, s.task, xs); }
  }

  lemma {:induction false} RunStaysInside(w0: World, w: World, steps: seq<Step>, xs: set<ExecId>)
    requires Inv(w0) && Inv(w) && Later(w0, w) && DispatchRun(w, steps) && OrderlyRun(w, steps)
    requires Closed(w0.db, xs) && Skipped(w0, w) <= xs <= LiveExecs(w0.db.execs)
    ensures Skipped(w0, Run(w, steps)) <= xs
    decreases |steps|
  {
    if steps != [] {
      DispatchKeepsInv(w, steps[0]);
      DispatchLater(w0, w, steps[0]);
      DispatchStaysInside(w0, w, steps[0], xs);
      RunStaysInside(w0, Next(w, steps[0]), steps[1..], xs);
    }
  }

  lemma {:induction false} RunLater(w0: World, w: World, steps: seq<Step>)
    requires Inv(w) && Later(w0, w) && DispatchRun(w, steps) && OrderlyRun(w, steps)
    ensures Inv(Run(w, steps)) && Later(w0, Run(w, steps))
    decreases |steps|
  {
    if steps != [] {
      DispatchKeepsInv(w, steps[0]);
      DispatchLater(w0, w, steps[0]);
      RunLater(w0, Next(w, steps[0]), steps[1..]);
    }
  }

  // ---------------------------------------------------------------------
  // The quiet end

  /** At a quiet end an edge has been advanced exactly as its upstream ends. */
  lemma QuietAdvanced(w0: World, w: World, k: EdgeKey, o: Outcome)
    requires Joined(w0.db) && EventsInv(w.db) && AdvancedInv(w) && CoverInv(w) && Later(w0, w) && Quiescent(w)
    ensures (k in w.advanced && w.advanced[k] == o) <==> Ends(w0.db, Skipped(w0, w), k, o)
  {
    TellsIffEnds(w0, w, k, o);
    if k in w.advanced {
      var e :| SettledBy(w.db, e, k, w.advanced[k]);
      assert Tells(w.db, e, k, w.advanced[k]);
    }
    if e :| Tells(w.db, e, k, o) {
      assert Feeds(w.db, e, k);
    }
  }

  lemma QuietCounts(w0: World, w: World, g: GroupKey, o: Outcome)
    requires Joined(w0.db) && EventsInv(w.db) && AdvancedInv(w) && CoverInv(w) && Later(w0, w) && Quiescent(w)
    ensures Counted(w.db.edges, w.advanced, g, o) == Ended(w0.db, Skipped(w0, w), g, o)
  {
    forall k | k in w.db.edges ensures k in Counted(w.db.edges, w.advanced, g, o) <==> k in Ended(w0.db, Skipped(w0, w), g, o) {
      QuietAdvanced(w0, w, k, o);
    }
  }

  lemma VerdictOf(db: Db, xs: set<ExecId>, r: Group, g: GroupKey)
    requires g in db.groups && r.policy == db.groups[g].policy && 0 <= r.running
    requires r.success == |Ended(db, xs, g, Success)| && r.fail == |Ended(db, xs, g, Fail)|
    requires r.skip == |Ended(db, xs, g, Skip)| && r.success + r.fail + r.skip + r.running == |AppliedInto(db.edges, g)|
    ensures r.Decision() == Verdict(db, xs, g)
  {
  }

  /** At a quiet end the stored decision of every group is its verdict. */
  lemma QuietVerdict(w0: World, w: World, g: GroupKey)
    requires Joined(w0.db) && EventsInv(w.db) && AdvancedInv(w) && CoverInv(w) && CountInv(w)
    requires Later(w0, w) && Quiescent(w) && g in w.db.groups
    ensures w.db.groups[g].Decision() == Verdict(w0.db, Skipped(w0, w), g)
  {
    assert CountersRight(w.db.groups[g], w.db.edges, w.advanced, g);
    CountersFit(w, g);
    QuietCounts(w0, w, g, Success);
    QuietCounts(w0, w, g, Fail);
    QuietCounts(w0, w, g, Skip);
    VerdictOf(w0.db, Skipped(w0, w), w.db.groups[g], g);
  }

  lemma QuietClosed(w0: World, w: World)
    requires Inv(w0) && Inv(w) && Later(w0, w) && Quiescent(w)
    ensures Closed(w0.db, Skipped(w0, w))
  {
    var xs := Skipped(w0, w);
    forall k, o | Ends(w0.db, xs, k, o) && w0.db.edges[k].applied && GroupOf(w0.db.edges, k) in w0.db.groups
                  && w0.db.edges[k].down in LiveExecs(w0.db.execs) && w0.db.edges[k].down !in xs
      ensures !Verdict(w0.db, xs, GroupOf(w0.db.edges, k)).Impossible?
    {
      QuietAdvanced(w0, w, k, o);
      QuietVerdict(w0, w, GroupOf(w0.db.edges, k));
    }
  }

  /**
   The cascade skips exactly the least set of live executions closed under impossibility:
   the set it skips is closed, and it is inside every closed set.
   */
  lemma SkippedIsLeast(w: World, steps: seq<Step>, xs: set<ExecId>)
    requires Inv(w) && DispatchRun(w, steps) && OrderlyRun(w, steps) && Quiescent(Run(w, steps))
    ensures Closed(w.db, Skipped(w, Run(w, steps)))
    ensures Closed(w.db, xs) && xs <= LiveExecs(w.db.execs) ==> Skipped(w, Run(w, steps)) <= xs
  {
    LaterRefl(w);
    RunLater(w, w, steps);
    QuietClosed(w, Run(w, steps));
    if Closed(w.db, xs) && xs <= LiveExecs(w.db.execs) {
      assert Skipped(w, w) == {};
      RunStaysInside(w, w, steps, xs);
    }
  }
}
