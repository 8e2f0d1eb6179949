/**
 Leases: execution cores, attempt rows with their fencing epochs, and reclaim grants.
 Each transaction is a function from the tables before to the tables after and a reply.
 Time is whatever the caller's clock says: no order between calls is assumed.
 */
module LeaseModel {
  import opened Common

  type ExecId = nat
  type WorkerId = nat
  type GrantId = nat
  type Millis = int

  datatype Phase = Runnable | Active | Terminal | Cancelled | OtherPhase
  datatype Ownership = Unowned | Leased | LeaseExpiredReclaimable | LeaseRevoked
  datatype Core = Core(phase: Phase, ownership: Ownership, eligible: bool, attemptIndex: nat, reclaimCount: nat)

  datatype AttemptOutcome = Succeeded | Retry | Failed | Interrupted | WaitingChildren | InterruptedReclaimed
  datatype Key = Key(exec: ExecId, index: nat)
  datatype Attempt = Attempt(worker: Option<WorkerId>, epoch: nat, expires: Option<Millis>, outcome: Option<AttemptOutcome>)

  datatype Grant = Grant(exec: ExecId, worker: WorkerId, issued: Millis, expires: Millis)

  datatype Db = Db(cores: map<ExecId, Core>, attempts: map<Key, Attempt>, grants: map<GrantId, Grant>)

  /** The part of a handle that fences: which attempt row, under which epoch. */
  datatype Token = Token(exec: ExecId, index: nat, epoch: nat)

  datatype Work =
    | Renew(until: Millis)
    | Progress
    | Complete
    | FailForRetry
    | FailForGood
    | Delay
    | WaitChildren

  datatype Reply =
    | Minted(token: Token)
    | Done
    | NoGrantAvailable
    | Granted
    | NotFound
    | LeaseConflict
    | GrantNotFound
    | WrongWorker
    | NotReclaimable
    | ReclaimCapExceeded
    | DuplicateRow

  const DEFAULT_MAX_RECLAIM_COUNT: nat := 1000

  function KeyOf(t: Token): Key { Key(t.exec, t.index) }

  // ---------------------------------------------------------------------
  // Operations that mint

  /** First claim or retry claim of the eligible row `x` by a capable worker. */
  function Claim(db: Db, x: ExecId, worker: WorkerId, until: Millis): (Db, Reply) {
    if x !in db.cores || db.cores[x].phase != Runnable || !db.cores[x].eligible then (db, NoGrantAvailable)
    else
      var k := Key(x, db.cores[x].attemptIndex);
      var epoch := if k in db.attempts then db.attempts[k].epoch + 1 else 1;
      (db.(attempts := db.attempts[k := Attempt(Some(worker), epoch, Some(until), None)],
           cores := db.cores[x := db.cores[x].(phase := Active, ownership := Leased, eligible := false)]),
       Minted(Token(x, k.index, epoch)))
  }

  function RowsOf(db: Db, x: ExecId): set<nat> {
    set k | k in db.attempts && k.exec == x :: k.index
  }

  predicate IsLatest(db: Db, x: ExecId, i: nat) {
    i in RowsOf(db, x) && forall j :: j in RowsOf(db, x) ==> j <= i
  }

  predicate LeaseLive(a: Attempt, now: Millis) {
    a.expires.Some? && a.expires.value > now
  }

  /** Claim by resume grant: the latest attempt row `i` changes hands under the next epoch. */
  function ClaimFromResume(db: Db, x: ExecId, i: nat, worker: WorkerId, now: Millis, until: Millis): (Db, Reply)
    requires RowsOf(db, x) != {} ==> IsLatest(db, x, i)
  {
    var k := Key(x, i);
    if RowsOf(db, x) == {} then (db, NotFound)
    else if LeaseLive(db.attempts[k], now) then (db, NoGrantAvailable)
    else
      var epoch := db.attempts[k].epoch + 1;
      (db.(attempts := db.attempts[k := Attempt(Some(worker), epoch, Some(until), None)],
           cores := if x in db.cores then
                      db.cores[x := db.cores[x].(phase := Active, ownership := Leased, eligible := false)]
                    else db.cores),
       Minted(Token(x, i, epoch)))
  }

  predicate Reclaimable(db: Db, x: ExecId, now: Millis)
    requires x in db.cores
  {
    var core, k := db.cores[x], Key(x, db.cores[x].attemptIndex);
    var expired :=
      if k !in db.attempts then true
      else match db.attempts[k].expires
           case Some(e) => e <= now
           case None => db.attempts[k].worker.None?;
    core.phase == Active
    && (core.ownership == LeaseExpiredReclaimable || core.ownership == LeaseRevoked || expired)
  }

  function IssueGrant(db: Db, g: GrantId, x: ExecId, worker: WorkerId, now: Millis, expires: Millis): (Db, Reply) {
    if x !in db.cores then (db, NotFound)
    else if db.cores[x].reclaimCount >= DEFAULT_MAX_RECLAIM_COUNT then (db, ReclaimCapExceeded)
    else if !Reclaimable(db, x, now) then (db, NotReclaimable)
    else if g in db.grants then (db, DuplicateRow)
    else (db.(grants := db.grants[g := Grant(x, worker, now, expires)]), Granted)
  }

  function GrantsOf(db: Db, x: ExecId): set<GrantId> {
    set g | g in db.grants && db.grants[g].exec == x
  }

  predicate IsNewest(db: Db, x: ExecId, g: GrantId) {
    g in GrantsOf(db, x) && forall h :: h in GrantsOf(db, x) ==> db.grants[h].issued <= db.grants[g].issued
  }

  /** Consume the newest reclaim grant `g`: a new attempt row, or the end of the execution at the cap. */
  function Reclaim(db: Db, x: ExecId, g: GrantId, worker: WorkerId, now: Millis, until: Millis, cap: nat): (Db, Reply)
    requires GrantsOf(db, x) != {} ==> IsNewest(db, x, g)
  {
    if GrantsOf(db, x) == {} then (db, GrantNotFound)
    else if db.grants[g].worker != worker then (db, WrongWorker)
    else if db.grants[g].expires <= now then (db, GrantNotFound)
    else if x !in db.cores then (db, NotFound)
    else
      var core := db.cores[x];
      var prior, next := Key(x, core.attemptIndex), Key(x, core.attemptIndex + 1);
      if core.phase == Terminal || core.phase == Cancelled then (db, NotReclaimable)
      else if core.reclaimCount + 1 > cap then
        (db.(cores := db.cores[x := core.(phase := Terminal, ownership := Unowned, eligible := false,
                                          reclaimCount := core.reclaimCount + 1)],
             grants := db.grants - {g}),
         ReclaimCapExceeded)
      else if next in db.attempts then (db, DuplicateRow)
      else
        var epoch := if prior in db.attempts then db.attempts[prior].epoch + 1 else 1;
        var marked := if prior in db.attempts then
                        db.attempts[prior := db.attempts[prior].(outcome := Some(InterruptedReclaimed))]
                      else db.attempts;
        (Db(db.cores[x := Core(Active, Leased, false, core.attemptIndex + 1, core.reclaimCount + 1)],
            marked[next := Attempt(Some(worker), epoch, Some(until), None)],
            db.grants - {g}),
         Minted(Token(x, next.index, epoch)))
  }

  // ---------------------------------------------------------------------
  // Fenced operations

  /** The fence looks at the handle's own attempt row and nothing else. */
  function Fence(db: Db, t: Token): Reply {
    if KeyOf(t) !in db.attempts then NotFound
    else if db.attempts[KeyOf(t)].epoch != t.epoch then LeaseConflict
    else Done
  }

  function WorkOnAttempt(a: Attempt, w: Work): Attempt {
    match w
    case Renew(until) => a.(expires := Some(until))
    case Progress => a
    case Complete => a.(outcome := Some(Succeeded), expires := None)
    case FailForRetry => a.(outcome := Some(Retry), expires := None)
    case FailForGood => a.(outcome := Some(Failed), expires := None)
    case Delay => a.(outcome := Some(Interrupted), expires := None)
    case WaitChildren => a.(outcome := Some(WaitingChildren), expires := None)
  }

  function WorkOnCore(c: Core, w: Work): Core {
    match w
    case Renew(_) => c
    case Progress => c
    case Complete => c.(phase := Terminal, ownership := Unowned, eligible := false)
    case FailForRetry => c.(phase := Runnable, ownership := Unowned, eligible := true, attemptIndex := c.attemptIndex + 1)
    case FailForGood => c.(phase := Terminal, ownership := Unowned, eligible := false)
    case Delay => c.(phase := Runnable, ownership := Unowned, eligible := false)
    case WaitChildren => c.(phase := Runnable, ownership := Unowned, eligible := false)
  }

  function DoWork(db: Db, t: Token, w: Work): (Db, Reply) {
    var reply := Fence(db, t);
    if reply != Done then (db, reply)
    else
      var k := KeyOf(t);
      (db.(attempts := db.attempts[k := WorkOnAttempt(db.attempts[k], w)],
           cores := if t.exec in db.cores then db.cores[t.exec := WorkOnCore(db.cores[t.exec], w)] else db.cores),
       Done)
  }

  // ---------------------------------------------------------------------
  // Runs

  /** What every attempt row satisfies: its execution exists and has counted at least that far. */
  ghost predicate LeaseInv(db: Db) {
    forall k :: k in db.attempts ==> k.exec in db.cores && k.index <= db.cores[k.exec].attemptIndex
  }

  /**
   What the rest of the backend may do between these calls: anything that loses no row,
   lowers no epoch and lowers no counter.
   */
  ghost predicate Forward(db: Db, db': Db) {
    && (forall x :: x in db.cores ==>
          && x in db'.cores
          && db.cores[x].attemptIndex <= db'.cores[x].attemptIndex
          && db.cores[x].reclaimCount <= db'.cores[x].reclaimCount)
    && (forall k :: k in db.attempts ==> k in db'.attempts && db.attempts[k].epoch <= db'.attempts[k].epoch)
  }

  datatype Call =
    | DoClaim(x: ExecId, worker: WorkerId, until: Millis)
    | DoResume(x: ExecId, i: nat, worker: WorkerId, now: Millis, until: Millis)
    | DoIssue(g: GrantId, x: ExecId, worker: WorkerId, now: Millis, expires: Millis)
    | DoReclaim(x: ExecId, g: GrantId, worker: WorkerId, now: Millis, until: Millis, cap: nat)
    | DoFenced(t: Token, w: Work)
    | Elsewhere(after: Db)

  /** The row a query ordered by index or issue time may return. */
  ghost predicate Chosen(db: Db, c: Call) {
    match c
    case DoResume(x, i, _, _, _) => RowsOf(db, x) != {} ==> IsLatest(db, x, i)
    case DoReclaim(x, g, _, _, _, _) => GrantsOf(db, x) != {} ==> IsNewest(db, x, g)
    case Elsewhere(after) => Forward(db, after) && LeaseInv(after) && after.grants == db.grants
    case _ => true
  }

  ghost function Next(db: Db, c: Call): (Db, Reply)
    requires Chosen(db, c)
  {
    match c
    case DoClaim(x, worker, until) => Claim(db, x, worker, until)
    case DoResume(x, i, worker, now, until) => ClaimFromResume(db, x, i, worker, now, until)
    case DoIssue(g, x, worker, now, expires) => IssueGrant(db, g, x, worker, now, expires)
    case DoReclaim(x, g, worker, now, until, cap) => Reclaim(db, x, g, worker, now, until, cap)
    case DoFenced(t, w) => DoWork(db, t, w)
    case Elsewhere(after) => (after, Done)
  }

  ghost predicate IsRun(db: Db, calls: seq<Call>)
    decreases |calls|
  {
    calls != [] ==> Chosen(db, calls[0]) && IsRun(Next(db, calls[0]).0, calls[1..])
  }

  ghost function After(db: Db, calls: seq<Call>): Db
    requires IsRun(db, calls)
    decreases |calls|
  {
    if calls == [] then db else After(Next(db, calls[0]).0, calls[1..])
  }

  /** The tokens a run hands out, in order. */
  ghost function Tokens(db: Db, calls: seq<Call>): seq<Token>
    requires IsRun(db, calls)
    decreases |calls|
  {
    if calls == [] then []
    else
      var (db', reply) := Next(db, calls[0]);
      (if reply.Minted? then [reply.token] else []) + Tokens(db', calls[1..])
  }
}
