/**
 The flow tables of the Postgres backend and each transaction on them as a function
 from the tables before to the tables after.  Partitions are not shown: a flow and its
 executions share one.
 */
module FlowModel {
  import opened Common
  import opened EdgePolicy

  type FlowId = nat
  type ExecId = nat
  type EdgeId = nat
  type EventId = nat

  datatype EdgeKey = EdgeKey(flow: FlowId, id: EdgeId)
  datatype GroupKey = GroupKey(flow: FlowId, down: ExecId)

  /** `Closed` stands for cancelled, completed and failed. */
  datatype FlowState = Open | Progressing | Closed
  datatype FlowRow = FlowRow(revision: nat, state: FlowState, nodeCount: nat, edgeCount: nat)

  datatype Phase = Submitted | Blocked | Runnable | Active | Suspended | Terminal | Cancelled
  datatype Eligibility = EligibleNow | NotEligibleUntilTime | BlockedByDependencies | NotApplicable
  datatype Exec = Exec(flow: Option<FlowId>, phase: Phase, eligibility: Eligibility, skipped: bool)
  {
    predicate Live() { phase != Terminal && phase != Cancelled }
  }

  datatype Edge = Edge(up: ExecId, down: ExecId, applied: bool)

  datatype Group = Group(policy: Json, success: int, fail: int, skip: int, running: int,
                         flagged: bool, members: set<ExecId>)
  {
    function Positive(n: int): int { if n > 0 then n else 0 }

    function Decision(): Decision {
      Evaluate(DecodePolicy(policy), success, fail, skip, success + fail + skip + Positive(running))
    }

    /** One upstream leaves the running bucket with outcome `o`. */
    function Bump(o: Outcome): Group {
      this.(running := Positive(running - 1),
            success := success + if o == Success then 1 else 0,
            fail := fail + if o == Fail then 1 else 0,
            skip := skip + if o == Skip then 1 else 0)
    }
  }

  /** A row of the completion outbox. */
  datatype Event = Event(exec: ExecId, flow: Option<FlowId>, outcome: string, dispatched: bool)

  datatype Db = Db(
    flows: map<FlowId, FlowRow>,
    execs: map<ExecId, Exec>,
    edges: map<EdgeKey, Edge>,
    groups: map<GroupKey, Group>,
    pendingCancel: set<GroupKey>,
    events: map<EventId, Event>,
    nextEvent: EventId)

  datatype Refusal =
    | FlowNotFound | FlowTerminal | ExecutionNotFound | MemberOfOtherFlow
    | SelfEdge | StaleRevision | NotInFlow | EdgeExists | EdgeNotFound
    | ZeroQuorum | PolicyFixed

  datatype Reply =
    | Created | AlreadySatisfied
    | Added(nodeCount: nat) | AlreadyMember(nodeCount: nat)
    | Staged(revision: nat)
    | Applied(unsatisfied: nat) | AlreadyApplied
    | PolicySet | PolicyAlreadySet
    | Refused(why: Refusal)

  // ---------------------------------------------------------------------
  // Graph construction

  function CreateFlow(db: Db, f: FlowId): (Db, Reply) {
    if f in db.flows then (db, AlreadySatisfied)
    else (db.(flows := db.flows[f := FlowRow(0, Open, 0, 0)]), Created)
  }

  function AddExecution(db: Db, f: FlowId, x: ExecId): (Db, Reply) {
    if f !in db.flows then (db, Refused(FlowNotFound))
    else if db.flows[f].state == Closed then (db, Refused(FlowTerminal))
    else if x !in db.execs then (db, Refused(ExecutionNotFound))
    else if db.execs[x].flow == Some(f) then (db, AlreadyMember(db.flows[f].nodeCount))
    else if db.execs[x].flow.Some? then (db, Refused(MemberOfOtherFlow))
    else
      var row := db.flows[f];
      var row' := row.(revision := row.revision + 1, nodeCount := row.nodeCount + 1);
      (db.(execs := db.execs[x := db.execs[x].(flow := Some(f))], flows := db.flows[f := row']),
       Added(row'.nodeCount))
  }

  predicate Member(db: Db, f: FlowId, x: ExecId) {
    x in db.execs && db.execs[x].flow == Some(f)
  }

  function StageEdge(db: Db, k: EdgeKey, up: ExecId, down: ExecId, expected: nat): (Db, Reply) {
    if up == down then (db, Refused(SelfEdge))
    else if k.flow !in db.flows then (db, Refused(FlowNotFound))
    else if db.flows[k.flow].state == Closed then (db, Refused(FlowTerminal))
    else if db.flows[k.flow].revision != expected || db.flows[k.flow].state != Open then (db, Refused(StaleRevision))
    else if !Member(db, k.flow, up) || !Member(db, k.flow, down) then (db, Refused(NotInFlow))
    else if k in db.edges then (db, Refused(EdgeExists))
    else
      var row := db.flows[k.flow];
      var row' := row.(revision := row.revision + 1, edgeCount := row.edgeCount + 1);
      (db.(flows := db.flows[k.flow := row'], edges := db.edges[k := Edge(up, down, false)]),
       Staged(row'.revision))
  }

  function NewGroup(policy: Json): Group { Group(policy, 0, 0, 0, 0, false, {}) }

  const DEFAULT_POLICY: Json := Object(map["kind" := Text("all_of")])

  /** The group bumped is the one the caller names, whatever the edge says. */
  function ApplyDependency(db: Db, k: EdgeKey, down: ExecId): (Db, Reply) {
    if k !in db.edges then (db, Refused(EdgeNotFound))
    else if db.edges[k].applied then (db, AlreadyApplied)
    else
      var g := GroupKey(k.flow, down);
      var group := if g in db.groups then db.groups[g] else NewGroup(DEFAULT_POLICY);
      var group' := group.(running := group.running + 1);
      (db.(edges := db.edges[k := db.edges[k].(applied := true)], groups := db.groups[g := group']),
       Applied(group'.Positive(group'.running)))
  }

  function InEdges(db: Db, g: GroupKey): set<EdgeKey> {
    set k | k in db.edges && k.flow == g.flow && db.edges[k].down == g.down
  }

  function SetPolicy(db: Db, g: GroupKey, p: Policy): (Db, Reply) {
    if p.Quorum? && p.k == 0 then (db, Refused(ZeroQuorum))
    else if InEdges(db, g) != {} then (db, Refused(PolicyFixed))
    else if g in db.groups && db.groups[g].policy == EncodePolicy(p) then (db, PolicyAlreadySet)
    else
      var group := if g in db.groups then db.groups[g].(policy := EncodePolicy(p)) else NewGroup(EncodePolicy(p));
      (db.(groups := db.groups[g := group]), PolicySet)
  }

  /** The policy the cascade reads for a group: the stored one, or AllOf when none is stored. */
  function PolicyOf(db: Db, g: GroupKey): Policy {
    if g in db.groups then DecodePolicy(db.groups[g].policy) else AllOf
  }

  // ---------------------------------------------------------------------
  // Completion and dispatch

  /** An execution ends and its completion event enters the outbox, stamped with its flow. */
  function Finish(db: Db, x: ExecId, phase: Phase, outcome: string): Db
    requires x in db.execs
  {
    db.(execs := db.execs[x := db.execs[x].(phase := phase, eligibility := NotApplicable)],
        events := db.events[db.nextEvent := Event(x, db.execs[x].flow, outcome, false)],
        nextEvent := db.nextEvent + 1)
  }

  function OutEdges(db: Db, e: Event): set<EdgeKey> {
    set k | k in db.edges && Some(k.flow) == e.flow && db.edges[k].up == e.exec
  }

  predicate Claimable(db: Db, e: EventId) {
    e in db.events && !db.events[e].dispatched
  }

  function Claim(db: Db, e: EventId): Db
    requires e in db.events
  {
    db.(events := db.events[e := db.events[e].(dispatched := true)])
  }

  /** Downstream becomes claimable by the scheduler. */
  function Unblock(x: Exec): Exec {
    if !x.Live() then x
    else x.(eligibility := EligibleNow, phase := if x.phase == Blocked then Runnable else x.phase)
  }

  function SkipExec(x: Exec): Exec {
    x.(phase := Terminal, eligibility := NotApplicable, skipped := true)
  }

  /** Upstreams of the group that are still live, the one that just ended excepted. */
  function Siblings(db: Db, g: GroupKey, winner: ExecId): set<ExecId> {
    set k | k in InEdges(db, g) && db.edges[k].up in db.execs
            && db.execs[db.edges[k].up].Live() && !db.execs[db.edges[k].up].skipped
            && db.edges[k].up != winner
          :: db.edges[k].up
  }

  /** What a decision does to the downstream's row. */
  function AfterDecision(x: Exec, d: Decision): Exec {
    match d
    case Pending => x
    case Satisfied(_) => Unblock(x)
    case Impossible => if x.Live() then SkipExec(x) else x
  }

  predicate Skips(db: Db, g: GroupKey, d: Decision) {
    d.Impossible? && g.down in db.execs && db.execs[g.down].Live()
  }

  /** One hop of the cascade: the outcome of one upstream reaches one edge group. */
  function Advance(db: Db, g: GroupKey, up: ExecId, o: Outcome): Db {
    if g !in db.groups then db
    else
      var group := db.groups[g].Bump(o);
      var d := group.Decision();
      var flags := d == Satisfied(true) && !group.flagged;
      var skips := Skips(db, g, d);
      Db(db.flows,
         if g.down in db.execs then db.execs[g.down := AfterDecision(db.execs[g.down], d)] else db.execs,
         db.edges,
         db.groups[g := if flags then group.(flagged := true, members := Siblings(db, g, up)) else group],
         if flags then db.pendingCancel + {g} else db.pendingCancel,
         if skips then db.events[db.nextEvent := Event(g.down, Some(g.flow), "skipped", false)] else db.events,
         if skips then db.nextEvent + 1 else db.nextEvent)
  }

  // ---------------------------------------------------------------------
  // Runs: any interleaving of the transactions above with concurrent dispatchers.

  /** Work a dispatcher still owes after claiming `event`: one group advance for `edge`. */
  datatype Task = Task(event: EventId, edge: EdgeKey)

  /**
   `tasks` is what the dispatchers hold in memory.  `advanced` is history: the edges whose
   group has been advanced, with the outcome that was counted.
   */
  datatype World = World(db: Db, tasks: set<Task>, advanced: map<EdgeKey, Outcome>)

  datatype Step =
    | DoCreateFlow(f: FlowId)
    | DoInsertExecution(x: ExecId)
    | DoAddExecution(f: FlowId, x: ExecId)
    | DoSetPolicy(g: GroupKey, p: Policy)
    | DoStage(k: EdgeKey, up: ExecId, down: ExecId, expected: nat)
    | DoApply(k: EdgeKey, down: ExecId)
    | DoMove(x: ExecId, phase: Phase, eligibility: Eligibility)
    | DoFinish(x: ExecId, phase: Phase, outcome: string)
    | DoCloseFlow(f: FlowId, state: FlowState)
    | DoClaim(e: EventId)
    | DoAdvance(task: Task)

  function ReplyTo(db: Db, s: Step): Reply {
    match s
    case DoCreateFlow(f) => CreateFlow(db, f).1
    case DoAddExecution(f, x) => AddExecution(db, f, x).1
    case DoSetPolicy(g, p) => SetPolicy(db, g, p).1
    case DoStage(k, up, down, expected) => StageEdge(db, k, up, down, expected).1
    case DoApply(k, down) => ApplyDependency(db, k, down).1
    case _ => AlreadySatisfied
  }

  /** Workers and the scheduler move a live execution between live phases. */
  function MoveExec(db: Db, x: ExecId, phase: Phase, eligibility: Eligibility): Db {
    var moved := Exec(None, phase, eligibility, false);
    if x in db.execs && db.execs[x].Live() && moved.Live() then
      db.(execs := db.execs[x := db.execs[x].(phase := phase, eligibility := eligibility)])
    else db
  }

  predicate Ending(phase: Phase) { phase == Terminal || phase == Cancelled }

  /** A dispatcher wins the event and lists the edges it has to advance. */
  function ClaimEvent(w: World, e: EventId): World
    requires e in w.db.events
  {
    w.(db := Claim(w.db, e), tasks := w.tasks + set k | k in OutEdges(w.db, w.db.events[e]) :: Task(e, k))
  }

  function TaskGroup(w: World, t: Task): GroupKey
    requires t.edge in w.db.edges
  {
    GroupKey(t.edge.flow, w.db.edges[t.edge].down)
  }

  function TaskOutcome(w: World, t: Task): Outcome
    requires t.event in w.db.events
  {
    OutcomeKind(w.db.events[t.event].outcome)
  }

  /** A dispatcher advances one edge it owes. */
  function AdvanceTask(w: World, t: Task): World
    requires t.event in w.db.events && t.edge in w.db.edges
  {
    World(Advance(w.db, TaskGroup(w, t), w.db.events[t.event].exec, TaskOutcome(w, t)),
          w.tasks - {t}, w.advanced[t.edge := TaskOutcome(w, t)])
  }

  function Next(w: World, s: Step): World {
    var db := w.db;
    match s
    case DoCreateFlow(f) => w.(db := CreateFlow(db, f).0)
    case DoInsertExecution(x) =>
      if x in db.execs then w
      else w.(db := db.(execs := db.execs[x := Exec(None, Submitted, EligibleNow, false)]))
    case DoAddExecution(f, x) => w.(db := AddExecution(db, f, x).0)
    case DoSetPolicy(g, p) => w.(db := SetPolicy(db, g, p).0)
    case DoStage(k, up, down, expected) => w.(db := StageEdge(db, k, up, down, expected).0)
    case DoApply(k, down) => w.(db := ApplyDependency(db, k, down).0)
    case DoMove(x, phase, eligibility) => w.(db := MoveExec(db, x, phase, eligibility))
    case DoFinish(x, phase, outcome) =>
      if x in db.execs && Ending(phase) then w.(db := Finish(db, x, phase, outcome)) else w
    case DoCloseFlow(f, state) =>
      if f in db.flows then w.(db := db.(flows := db.flows[f := db.flows[f].(state := state)])) else w
    case DoClaim(e) => if Claimable(db, e) then ClaimEvent(w, e) else w
    case DoAdvance(t) =>
      if t in w.tasks && t.event in db.events && t.edge in db.edges then AdvanceTask(w, t) else w
  }

  function Run(w: World, steps: seq<Step>): World
    decreases |steps|
  {
    if steps == [] then w else Run(Next(w, steps[0]), steps[1..])
  }

  lemma {:induction false} RunSplit(w: World, a: seq<Step>, b: seq<Step>)
    ensures Run(w, a + b) == Run(Run(w, a), b)
    decreases |a|
  {
    if a == [] {
      assert a + b == b;
    } else {
      assert (a + b)[1..] == a[1..] + b;
      RunSplit(Next(w, a[0]), a[1..], b);
    }
  }

  /** The state before step `j` is reached from the state after step `i`. */
  lemma RunBetween(w: World, steps: seq<Step>, i: nat, j: nat)
    requires i < j <= |steps|
    ensures Run(w, steps[..j]) == Run(Next(Run(w, steps[..i]), steps[i]), steps[i + 1..j])
  {
    var tail := [steps[i]] + steps[i + 1..j];
    assert steps[..j] == steps[..i] + tail;
    RunSplit(w, steps[..i], tail);
    assert tail[1..] == steps[i + 1..j];
  }

  const EMPTY_DB := Db(map[], map[], map[], map[], {}, map[], 0)
  const EMPTY_WORLD := World(EMPTY_DB, {}, map[])
}
