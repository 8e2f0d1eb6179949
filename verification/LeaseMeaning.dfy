/**
 What each lease call means: when it succeeds, read off the tables before it, and what the
 calls after it will answer.
 */
module LeaseMeaning {
  import opened Common
  import opened LeaseModel

  /** No worker can claim the execution. */
  ghost predicate NothingToClaim(db: Db, x: ExecId) {
    forall worker, until :: Claim(db, x, worker, until) == (db, NoGrantAvailable)
  }

  /** No worker can get a reclaim grant for the execution. */
  ghost predicate NothingToReclaim(db: Db, x: ExecId) {
    forall g, worker, now, expires :: !IssueGrant(db, g, x, worker, now, expires).1.Granted?
  }

  /** Every claim gets a first handle on attempt row `i`. */
  ghost predicate NextAttemptOpen(db: Db, x: ExecId, i: nat) {
    forall worker, until :: Claim(db, x, worker, until).1 == Minted(Token(x, i, 1))
  }

  /** The lease runs until exactly `until`. */
  ghost predicate LiveUntil(a: Attempt, until: Millis) {
    forall now :: LeaseLive(a, now) <==> now < until
  }

  ghost predicate NeverLive(a: Attempt) {
    forall now :: !LeaseLive(a, now)
  }

  /** Nothing but attempt row `k` and the core of `x` differs. */
  ghost predicate OnlyRowAndCore(db: Db, db': Db, k: Key, x: ExecId) {
    && db.attempts.Keys <= db'.attempts.Keys <= db.attempts.Keys + {k} && db'.cores.Keys == db.cores.Keys
    && (forall j :: j in db.attempts && j != k ==> db'.attempts[j] == db.attempts[j])
    && (forall y :: y in db.cores && y != x ==> db'.cores[y] == db.cores[y])
  }

  // ---------------------------------------------------------------------
  // Fenced work

  ghost predicate RowMeans(a: Attempt, a': Attempt, w: Work) {
    && a'.worker == a.worker && a'.epoch == a.epoch
    && match w
       case Renew(until) => a'.outcome == a.outcome && LiveUntil(a', until)
       case Progress => a' == a
       case Complete => NeverLive(a') && a'.outcome == Some(Succeeded)
       case FailForRetry => NeverLive(a') && a'.outcome == Some(Retry)
       case FailForGood => NeverLive(a') && a'.outcome == Some(Failed)
       case Delay => NeverLive(a') && a'.outcome == Some(Interrupted)
       case WaitChildren => NeverLive(a') && a'.outcome == Some(WaitingChildren)
  }

  /** What the execution offers its next caller. */
  ghost predicate OffersNext(db: Db, db': Db, x: ExecId, w: Work)
    requires x in db.cores && x in db'.cores
  {
    var core, core' := db.cores[x], db'.cores[x];
    && core'.reclaimCount == core.reclaimCount
    && match w
       case Renew(_) => core' == core
       case Progress => core' == core
       case FailForRetry =>
         NextAttemptOpen(db', x, core.attemptIndex + 1) && NothingToReclaim(db', x) && core'.ownership == Unowned
       case Complete =>
         core'.phase == Terminal && NothingToClaim(db', x) && NothingToReclaim(db', x) && core'.ownership == Unowned
       case FailForGood =>
         core'.phase == Terminal && NothingToClaim(db', x) && NothingToReclaim(db', x) && core'.ownership == Unowned
       case Delay =>
         && core'.phase == Runnable && core'.attemptIndex == core.attemptIndex && core'.ownership == Unowned
         && NothingToClaim(db', x) && NothingToReclaim(db', x)
       case WaitChildren =>
         && core'.phase == Runnable && core'.attemptIndex == core.attemptIndex && core'.ownership == Unowned
         && NothingToClaim(db', x) && NothingToReclaim(db', x)
  }

  /** What a resume of the handle's row will answer, when it is the latest one. */
  ghost predicate ResumesNext(db': Db, t: Token, w: Work)
    requires IsLatest(db', t.exec, t.index)
  {
    match w
    case Progress => true
    case Renew(until) =>
      forall worker, now, u ::
        ClaimFromResume(db', t.exec, t.index, worker, now, u).1 ==
          if now < until then NoGrantAvailable else Minted(Token(t.exec, t.index, t.epoch + 1))
    case _ =>
      forall worker, now, u ::
        ClaimFromResume(db', t.exec, t.index, worker, now, u).1 == Minted(Token(t.exec, t.index, t.epoch + 1))
  }

  ghost predicate WorkMeans(db: Db, db': Db, t: Token, w: Work)
    requires KeyOf(t) in db.attempts
  {
    && OnlyRowAndCore(db, db', KeyOf(t), t.exec) && db'.grants == db.grants
    && RowMeans(db.attempts[KeyOf(t)], db'.attempts[KeyOf(t)], w)
    && (t.exec in db.cores ==> OffersNext(db, db', t.exec, w))
    && (IsLatest(db', t.exec, t.index) ==> ResumesNext(db', t, w))
  }

  lemma WorkRow(db: Db, t: Token, w: Work)
    requires Fence(db, t) == Done
    ensures var db' := DoWork(db, t, w).0;
      && OnlyRowAndCore(db, db', KeyOf(t), t.exec) && db'.grants == db.grants
      && RowMeans(db.attempts[KeyOf(t)], db'.attempts[KeyOf(t)], w)
  {
  }

  lemma WorkOffers(db: Db, t: Token, w: Work)
    requires LeaseInv(db) && Fence(db, t) == Done && t.exec in db.cores
    ensures OffersNext(db, DoWork(db, t, w).0, t.exec, w)
  {
    var db', x := DoWork(db, t, w).0, t.exec;
    if w.FailForRetry? { assert Key(x, db.cores[x].attemptIndex + 1) !in db'.attempts; }
  }

  lemma WorkResumes(db: Db, t: Token, w: Work)
    requires Fence(db, t) == Done && IsLatest(DoWork(db, t, w).0, t.exec, t.index)
    ensures ResumesNext(DoWork(db, t, w).0, t, w)
  {
  }

  /**
   After fenced work the row's lease is what the work says and the next call answers
   accordingly: a retry opens exactly the next attempt, an end leaves nothing to claim, a
   delay or a wait for children leaves the execution runnable and unclaimable.
   */
  lemma WorkDoes(db: Db, t: Token, w: Work)
    requires LeaseInv(db) && Fence(db, t) == Done
    ensures WorkMeans(db, DoWork(db, t, w).0, t, w)
  {
    WorkRow(db, t, w);
    if t.exec in db.cores { WorkOffers(db, t, w); }
    if IsLatest(DoWork(db, t, w).0, t.exec, t.index) { WorkResumes(db, t, w); }
  }

  // ---------------------------------------------------------------------
  // Minting

  /** The token's holder has the lease until `until`, and no one else can claim. */
  ghost predicate LeaseGiven(db: Db, t: Token, worker: WorkerId, until: Millis) {
    && KeyOf(t) in db.attempts && db.attempts[KeyOf(t)].epoch == t.epoch
    && db.attempts[KeyOf(t)].worker == Some(worker) && db.attempts[KeyOf(t)].outcome.None?
    && LiveUntil(db.attempts[KeyOf(t)], until)
    && (t.exec in db.cores ==>
          db.cores[t.exec].phase == Active && db.cores[t.exec].ownership == Leased && NothingToClaim(db, t.exec))
  }

  ghost predicate ClaimMeans(db: Db, db': Db, r: Reply, x: ExecId, worker: WorkerId, until: Millis) {
    if x in db.cores && db.cores[x].phase == Runnable && db.cores[x].eligible then
      && r.Minted? && r.token.exec == x && r.token.index == db.cores[x].attemptIndex
      && LeaseGiven(db', r.token, worker, until) && OnlyRowAndCore(db, db', KeyOf(r.token), x) && db'.grants == db.grants
      && db'.cores[x].attemptIndex == db.cores[x].attemptIndex && db'.cores[x].reclaimCount == db.cores[x].reclaimCount
    else r == NoGrantAvailable && db' == db
  }

  /** A claim succeeds exactly on a runnable, eligible execution, and gives its current attempt row. */
  lemma ClaimDoes(db: Db, x: ExecId, worker: WorkerId, until: Millis)
    ensures var (db', r) := Claim(db, x, worker, until); ClaimMeans(db, db', r, x, worker, until)
  {
  }

  /** `i` is the highest attempt index of the execution. */
  ghost predicate HighestRow(db: Db, x: ExecId, i: nat) {
    Key(x, i) in db.attempts && forall k :: k in db.attempts && k.exec == x ==> k.index <= i
  }

  ghost predicate ResumeMeans(db: Db, db': Db, r: Reply, x: ExecId, i: nat, worker: WorkerId, now: Millis, until: Millis)
    requires HighestRow(db, x, i)
  {
    var row := db.attempts[Key(x, i)];
    if row.expires.Some? && now < row.expires.value then r == NoGrantAvailable && db' == db
    else
      && r == Minted(Token(x, i, row.epoch + 1)) && LeaseGiven(db', r.token, worker, until)
      && OnlyRowAndCore(db, db', Key(x, i), x) && db'.grants == db.grants
      && (x in db.cores ==>
            && db'.cores[x].attemptIndex == db.cores[x].attemptIndex
            && db'.cores[x].reclaimCount == db.cores[x].reclaimCount)
  }

  lemma HighestIsLatest(db: Db, x: ExecId, i: nat)
    ensures IsLatest(db, x, i) <==> HighestRow(db, x, i)
  {
    forall k | k in db.attempts && k.exec == x ensures k.index in RowsOf(db, x) { }
    forall j | j in RowsOf(db, x) ensures Key(x, j) in db.attempts { }
  }

  /** A resume succeeds exactly when the lease on the highest row is out, and keeps its index. */
  lemma ResumeDoes(db: Db, x: ExecId, i: nat, worker: WorkerId, now: Millis, until: Millis)
    requires HighestRow(db, x, i)
    ensures IsLatest(db, x, i)
    ensures var (db', r) := ClaimFromResume(db, x, i, worker, now, until);
      ResumeMeans(db, db', r, x, i, worker, now, until)
  {
    HighestIsLatest(db, x, i);
  }

  // ---------------------------------------------------------------------
  // Reclaim

  /** The lease on the current attempt is lost: flagged so, missing, run out, or held by no one. */
  ghost predicate Lapsed(db: Db, x: ExecId, now: Millis)
    requires x in db.cores
  {
    var core, k := db.cores[x], Key(x, db.cores[x].attemptIndex);
    || core.ownership == LeaseExpiredReclaimable || core.ownership == LeaseRevoked
    || k !in db.attempts
    || (!LeaseLive(db.attempts[k], now) && !(db.attempts[k].expires.None? && db.attempts[k].worker.Some?))
  }

  ghost predicate IssueMeans(db: Db, db': Db, r: Reply, g: GrantId, x: ExecId, worker: WorkerId, now: Millis, expires: Millis) {
    && (r == Granted <==>
          && x in db.cores && db.cores[x].reclaimCount < 1000 && db.cores[x].phase == Active
          && Lapsed(db, x, now) && g !in db.grants)
    && (r == NotReclaimable <==>
          x in db.cores && db.cores[x].reclaimCount < 1000 && !(db.cores[x].phase == Active && Lapsed(db, x, now)))
    && (r == ReclaimCapExceeded <==> x in db.cores && db.cores[x].reclaimCount >= 1000)
    && db' == if r == Granted then db.(grants := db.grants[g := Grant(x, worker, now, expires)]) else db
  }

  /** A grant is given exactly on an active execution under the cap whose lease has lapsed. */
  lemma IssueDoes(db: Db, g: GrantId, x: ExecId, worker: WorkerId, now: Millis, expires: Millis)
    ensures var (db', r) := IssueGrant(db, g, x, worker, now, expires); IssueMeans(db, db', r, g, x, worker, now, expires)
  {
  }

  /** No grant for the execution was issued after `g`. */
  ghost predicate LastIssued(db: Db, x: ExecId, g: GrantId) {
    && g in db.grants && db.grants[g].exec == x
    && forall h :: h in db.grants && db.grants[h].exec == x ==> db.grants[h].issued <= db.grants[g].issued
  }

  /** The grant names this worker, has not run out, and its execution has not ended. */
  ghost predicate GrantGood(db: Db, x: ExecId, g: GrantId, worker: WorkerId, now: Millis)
    requires g in db.grants
  {
    && db.grants[g].worker == worker && now < db.grants[g].expires
    && x in db.cores && db.cores[x].phase != Terminal && db.cores[x].phase != Cancelled
  }

  ghost predicate Refusal(r: Reply, db: Db, x: ExecId, g: GrantId, worker: WorkerId, now: Millis)
    requires g in db.grants
  {
    && (r == WrongWorker <==> db.grants[g].worker != worker)
    && (r == GrantNotFound <==> db.grants[g].worker == worker && db.grants[g].expires <= now)
    && (r == NotFound <==> db.grants[g].worker == worker && now < db.grants[g].expires && x !in db.cores)
  }

  /** Nothing about other executions differs. */
  ghost predicate OthersAlone(db: Db, db': Db, x: ExecId) {
    && (forall y :: y != x ==> (y in db'.cores <==> y in db.cores) && (y in db.cores ==> db'.cores[y] == db.cores[y]))
    && (forall k: Key :: k.exec != x ==>
          (k in db'.attempts <==> k in db.attempts) && (k in db.attempts ==> db'.attempts[k] == db.attempts[k]))
  }

  ghost predicate ReclaimMeans(db: Db, db': Db, r: Reply, x: ExecId, g: GrantId,
                               worker: WorkerId, now: Millis, until: Millis, cap: nat)
    requires g in db.grants
  {
    if !GrantGood(db, x, g, worker, now) then
      && db' == db && Refusal(r, db, x, g, worker, now)
      && (r == WrongWorker || r == GrantNotFound || r == NotFound || r == NotReclaimable)
    else if db.cores[x].reclaimCount < cap then
      && r.Minted? && r.token.exec == x && r.token.index == db.cores[x].attemptIndex + 1
      && LeaseGiven(db', r.token, worker, until) && db'.grants == db.grants - {g} && OthersAlone(db, db', x)
      && x in db'.cores && db'.cores[x].attemptIndex == r.token.index
      && db'.cores[x].reclaimCount == db.cores[x].reclaimCount + 1
    else
      && r == ReclaimCapExceeded && db'.attempts == db.attempts && db'.grants == db.grants - {g} && OthersAlone(db, db', x)
      && x in db'.cores && db'.cores[x].phase == Terminal && db'.cores[x].reclaimCount == db.cores[x].reclaimCount + 1
      && NothingToClaim(db', x) && NothingToReclaim(db', x)
  }

  lemma LastIsNewest(db: Db, x: ExecId, g: GrantId)
    ensures IsNewest(db, x, g) <==> LastIssued(db, x, g)
  {
  }

  /**
   Reclaiming by the last grant mints exactly when the grant names this worker and has not
   run out, the execution has not ended, and the cap is not reached; at the cap it ends the
   execution and uses the grant up; every other refusal changes nothing.
   */
  lemma ReclaimDoes(db: Db, x: ExecId, g: GrantId, worker: WorkerId, now: Millis, until: Millis, cap: nat)
    requires LeaseInv(db) && LastIssued(db, x, g)
    ensures IsNewest(db, x, g)
    ensures var (db', r) := Reclaim(db, x, g, worker, now, until, cap);
      ReclaimMeans(db, db', r, x, g, worker, now, until, cap)
  {
    LastIsNewest(db, x, g);
  }

  /** A grant that was given can be used by its worker until it runs out. */
  lemma GrantThenReclaim(db: Db, g: GrantId, x: ExecId, worker: WorkerId, issued: Millis, expires: Millis,
                         now: Millis, until: Millis, cap: nat)
    requires LeaseInv(db) && IssueGrant(db, g, x, worker, issued, expires).1 == Granted
    requires forall h :: h in db.grants && db.grants[h].exec == x ==> db.grants[h].issued <= issued
    ensures var db' := IssueGrant(db, g, x, worker, issued, expires).0;
      && IsNewest(db', x, g)
      && (Reclaim(db', x, g, worker, now, until, cap).1.Minted? <==> now < expires && db.cores[x].reclaimCount < cap)
  {
    var db' := IssueGrant(db, g, x, worker, issued, expires).0;
    assert LastIssued(db', x, g);
    ReclaimDoes(db', x, g, worker, now, until, cap);
  }
}
