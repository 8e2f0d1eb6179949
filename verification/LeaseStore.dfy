/** The lease transactions as they run on mutable tables, each proved against `LeaseModel`. */
module LeaseStore {
  import opened Common
  import LM = LeaseModel
  import LP = LeaseProofs
  import Means = LeaseMeaning

  lemma {:induction false} LatestExists(rows: set<nat>)
    requires rows != {}
    ensures exists i :: i in rows && forall j :: j in rows ==> j <= i
    decreases |rows|
  {
    var i :| i in rows;
    var rest := rows - {i};
    assert rows == rest + {i};
    if rest == {} {
      assert i in rows && forall j :: j in rows ==> j <= i;
    } else {
      LatestExists(rest);
      var m :| m in rest && forall j :: j in rest ==> j <= m;
      var top := if m < i then i else m;
      assert top in rows && forall j :: j in rows ==> j <= top;
    }
  }

  lemma {:induction false} NewestExists(grants: map<LM.GrantId, LM.Grant>, gs: set<LM.GrantId>)
    requires gs != {} && gs <= grants.Keys
    ensures exists g :: g in gs && forall h :: h in gs ==> grants[h].issued <= grants[g].issued
    decreases |gs|
  {
    var g :| g in gs;
    var rest := gs - {g};
    assert gs == rest + {g};
    if rest == {} {
      assert g in gs && forall h :: h in gs ==> grants[h].issued <= grants[g].issued;
    } else {
      NewestExists(grants, rest);
      var m :| m in rest && forall h :: h in rest ==> grants[h].issued <= grants[m].issued;
      var top := if grants[m].issued < grants[g].issued then g else m;
      assert top in gs && forall h :: h in gs ==> grants[h].issued <= grants[top].issued;
    }
  }

  /** A call on consistent tables leaves them consistent and takes nothing back. */
  lemma CallKeeps(db: LM.Db, c: LM.Call, minted: seq<LM.Token>)
    requires LM.LeaseInv(db) && LM.Chosen(db, c) && !c.Elsewhere? && LP.HandlesRight(db, minted)
    ensures var (db', r) := LM.Next(db, c);
      && LM.LeaseInv(db') && LM.Forward(db, db') && LP.HandlesRight(db', minted + LP.Given(r))
      && (r.Minted? ==> LP.NewestOnRow(minted + [r.token], r.token))
  {
    LP.StepForward(db, c);
    LP.StepKeepsHandles(db, c, minted);
    if LM.Next(db, c).1.Minted? {
      LP.MintedPasses(db, c);
      LP.FencePassesNewestOnly(LM.Next(db, c).0, minted + LP.Given(LM.Next(db, c).1), LM.Next(db, c).1.token);
    }
  }

  /** Fenced work is done for the newest handle of its row only; for any other it changes nothing. */
  lemma WorkKeeps(db: LM.Db, t: LM.Token, w: LM.Work, minted: seq<LM.Token>)
    requires LM.LeaseInv(db) && LP.HandlesRight(db, minted)
    ensures var (db', r) := LM.DoWork(db, t, w);
      && LM.LeaseInv(db') && LM.Forward(db, db') && LP.HandlesRight(db', minted)
      && (r == LM.Done <==> LP.NewestOnRow(minted, t)) && (r != LM.Done ==> db' == db)
      && (r == LM.Done ==> LM.KeyOf(t) in db.attempts && Means.WorkMeans(db, db', t, w))
  {
    if LM.Fence(db, t) == LM.Done { Means.WorkDoes(db, t, w); }
    CallKeeps(db, LM.DoFenced(t, w), minted);
    assert minted + [] == minted;
    LP.FencePassesNewestOnly(db, minted, t);
  }

  class Store {
    var cores: map<LM.ExecId, LM.Core>
    var attempts: map<LM.Key, LM.Attempt>
    var grants: map<LM.GrantId, LM.Grant>

    /** The handles given out, oldest first. */
    ghost var minted: seq<LM.Token>

    /** Executions that no worker has claimed yet. */
    constructor (cores: map<LM.ExecId, LM.Core>)
      ensures Valid() && State() == LM.Db(cores, map[], map[]) && minted == []
    {
      this.cores, attempts, grants, minted := cores, map[], map[], [];
    }

    function State(): LM.Db
      reads this`cores, this`attempts, this`grants
    {
      LM.Db(cores, attempts, grants)
    }

    /** Row indices are within their executions' counters, and rows and handles agree. */
    ghost predicate Valid()
      reads this
    {
      LM.LeaseInv(State()) && LP.HandlesRight(State(), minted)
    }

    /** Nothing is taken back, and exactly the minted token was given out. */
    twostate predicate Gave(r: LM.Reply)
      reads this
    {
      && Valid() && LM.Forward(old(State()), State()) && minted == old(minted) + LP.Given(r)
      && (r.Minted? ==> LP.NewestOnRow(minted, r.token))
    }

    /** The work was done for the newest handle of the row only, means what it should, and left the handles alone. */
    twostate predicate Worked(t: LM.Token, w: LM.Work, r: LM.Reply)
      reads this
    {
      && Valid() && LM.Forward(old(State()), State()) && minted == old(minted)
      && (r == LM.Done <==> LP.NewestOnRow(minted, t)) && (r != LM.Done ==> State() == old(State()))
      && (r == LM.Done ==> LM.KeyOf(t) in old(attempts) && Means.WorkMeans(old(State()), State(), t, w))
    }

    /** The writes of a claim: upsert the attempt, re-read its epoch, flip the core. */
    method ClaimRow(x: LM.ExecId, worker: LM.WorkerId, until: LM.Millis) returns (r: LM.Reply)
      modifies this`cores, this`attempts
      ensures (State(), r) == LM.Claim(old(State()), x, worker, until)
    {
      if x !in cores || cores[x].phase != LM.Runnable || !cores[x].eligible { return LM.NoGrantAvailable; }
      var k := LM.Key(x, cores[x].attemptIndex);
      if k in attempts {
        attempts := attempts[k := LM.Attempt(Some(worker), attempts[k].epoch + 1, Some(until), None)];
      } else {
        attempts := attempts[k := LM.Attempt(Some(worker), 1, Some(until), None)];
      }
      var epoch := attempts[k].epoch;
      cores := cores[x := cores[x].(phase := LM.Active, ownership := LM.Leased, eligible := false)];
      r := LM.Minted(LM.Token(x, k.index, epoch));
    }

    /** Claims the candidate row `x`; the token is above every one given out for it before. */
    method TryClaim(x: LM.ExecId, worker: LM.WorkerId, until: LM.Millis) returns (r: LM.Reply)
      requires Valid()
      modifies this
      ensures (State(), r) == LM.Claim(old(State()), x, worker, until)
      ensures Means.ClaimMeans(old(State()), State(), r, x, worker, until)
      ensures Gave(r)
    {
      Means.ClaimDoes(State(), x, worker, until);
      CallKeeps(State(), LM.DoClaim(x, worker, until), minted);
      r := ClaimRow(x, worker, until);
      minted := minted + LP.Given(r);
    }

    /** The attempt row with the highest index. */
    method LatestRow(x: LM.ExecId) returns (i: nat)
      requires LM.RowsOf(State(), x) != {}
      ensures LM.IsLatest(State(), x, i)
    {
      var rows := LM.RowsOf(State(), x);
      LatestExists(rows);
      i :| i in rows && forall j :: j in rows ==> j <= i;
    }

    /** The writes of a resume claim on the latest row `i`. */
    method TakeRow(x: LM.ExecId, i: nat, worker: LM.WorkerId, now: LM.Millis, until: LM.Millis) returns (r: LM.Reply)
      requires LM.IsLatest(State(), x, i)
      modifies this`cores, this`attempts
      ensures (State(), r) == LM.ClaimFromResume(old(State()), x, i, worker, now, until)
    {
      var k := LM.Key(x, i);
      if LM.LeaseLive(attempts[k], now) { return LM.NoGrantAvailable; }
      var epoch := attempts[k].epoch;
      attempts := attempts[k := LM.Attempt(Some(worker), epoch + 1, Some(until), None)];
      if x in cores {
        cores := cores[x := cores[x].(phase := LM.Active, ownership := LM.Leased, eligible := false)];
      }
      r := LM.Minted(LM.Token(x, i, epoch + 1));
    }

    /** Hands the latest attempt row over under the next epoch, unless its lease is live. */
    method ClaimFromResumeGrant(x: LM.ExecId, worker: LM.WorkerId, now: LM.Millis, until: LM.Millis)
      returns (r: LM.Reply, i: nat)
      requires Valid()
      modifies this
      ensures LM.RowsOf(old(State()), x) != {} ==> LM.IsLatest(old(State()), x, i)
      ensures (State(), r) == LM.ClaimFromResume(old(State()), x, i, worker, now, until)
      ensures if r == LM.NotFound then LM.RowsOf(old(State()), x) == {}
        else Means.HighestRow(old(State()), x, i) && Means.ResumeMeans(old(State()), State(), r, x, i, worker, now, until)
      ensures Gave(r)
    {
      i := 0;
      if LM.RowsOf(State(), x) == {} { return LM.NotFound, i; }
      i := LatestRow(x);
      Means.HighestIsLatest(State(), x, i);
      Means.ResumeDoes(State(), x, i, worker, now, until);
      CallKeeps(State(), LM.DoResume(x, i, worker, now, until), minted);
      r := TakeRow(x, i, worker, now, until);
      minted := minted + LP.Given(r);
    }

    /** Reads the handle's own row. */
    method ReadFence(t: LM.Token) returns (r: LM.Reply)
      ensures r == LM.Fence(State(), t)
    {
      if LM.KeyOf(t) !in attempts { return LM.NotFound; }
      if attempts[LM.KeyOf(t)].epoch != t.epoch { return LM.LeaseConflict; }
      r := LM.Done;
    }

    /** A handle passes exactly when it was given out and is the newest on its row. */
    method FenceCheck(t: LM.Token) returns (r: LM.Reply)
      requires Valid()
      ensures r == LM.Fence(State(), t)
      ensures r == LM.Done <==> LP.NewestOnRow(minted, t)
    {
      LP.FencePassesNewestOnly(State(), minted, t);
      r := ReadFence(t);
    }

    method Renew(t: LM.Token, until: LM.Millis) returns (r: LM.Reply)
      requires Valid()
      modifies this
      ensures (State(), r) == LM.DoWork(old(State()), t, LM.Renew(until))
      ensures Worked(t, LM.Renew(until), r)
    {
      WorkKeeps(State(), t, LM.Renew(until), minted);
      r := ReadFence(t);
      if r != LM.Done { return; }
      attempts := attempts[LM.KeyOf(t) := attempts[LM.KeyOf(t)].(expires := Some(until))];
      assert t.exec in cores ==> cores == cores[t.exec := cores[t.exec]];
    }

    /** Progress only patches a JSON column outside this model. */
    method Progress(t: LM.Token) returns (r: LM.Reply)
      requires Valid()
      modifies this
      ensures (State(), r) == LM.DoWork(old(State()), t, LM.Progress)
      ensures State() == old(State())
      ensures Worked(t, LM.Progress, r)
    {
      WorkKeeps(State(), t, LM.Progress, minted);
      r := ReadFence(t);
      if r == LM.Done {
        assert attempts == attempts[LM.KeyOf(t) := attempts[LM.KeyOf(t)]];
        assert t.exec in cores ==> cores == cores[t.exec := cores[t.exec]];
      }
    }

    /** The attempt row's outcome and the core's next state, written together. */
    method CloseAttempt(t: LM.Token, outcome: LM.AttemptOutcome, phase: LM.Phase, eligible: bool, bump: nat)
      requires LM.KeyOf(t) in attempts
      modifies this`attempts, this`cores
      ensures attempts == old(attempts)[LM.KeyOf(t) := old(attempts[LM.KeyOf(t)]).(outcome := Some(outcome), expires := None)]
      ensures cores == if t.exec in old(cores) then
          old(cores)[t.exec := LM.Core(phase, LM.Unowned, eligible, old(cores[t.exec]).attemptIndex + bump,
                                       old(cores[t.exec]).reclaimCount)]
        else old(cores)
    {
      attempts := attempts[LM.KeyOf(t) := attempts[LM.KeyOf(t)].(outcome := Some(outcome), expires := None)];
      if t.exec in cores {
        var core := cores[t.exec];
        cores := cores[t.exec := LM.Core(phase, LM.Unowned, eligible, core.attemptIndex + bump, core.reclaimCount)];
      }
    }

    /** The fence and the writes of closing work. */
    method WriteClosing(t: LM.Token, w: LM.Work) returns (r: LM.Reply)
      requires !w.Renew? && !w.Progress?
      modifies this`attempts, this`cores
      ensures (State(), r) == LM.DoWork(old(State()), t, w)
    {
      r := ReadFence(t);
      if r != LM.Done { return; }
      match w {
        case Complete => CloseAttempt(t, LM.Succeeded, LM.Terminal, false, 0);
        case FailForRetry => CloseAttempt(t, LM.Retry, LM.Runnable, true, 1);
        case FailForGood => CloseAttempt(t, LM.Failed, LM.Terminal, false, 0);
        case Delay => CloseAttempt(t, LM.Interrupted, LM.Runnable, false, 0);
        case WaitChildren => CloseAttempt(t, LM.WaitingChildren, LM.Runnable, false, 0);
      }
    }

    method Complete(t: LM.Token) returns (r: LM.Reply)
      requires Valid()
      modifies this
      ensures (State(), r) == LM.DoWork(old(State()), t, LM.Complete)
      ensures Worked(t, LM.Complete, r)
    {
      WorkKeeps(State(), t, LM.Complete, minted);
      r := WriteClosing(t, LM.Complete);
    }

    /** A transient failure schedules the next attempt index; any other ends the execution. */
    method Fail(t: LM.Token, retryable: bool) returns (r: LM.Reply)
      requires Valid()
      modifies this
      ensures (State(), r) == LM.DoWork(old(State()), t, if retryable then LM.FailForRetry else LM.FailForGood)
      ensures Worked(t, if retryable then LM.FailForRetry else LM.FailForGood, r)
    {
      var w := if retryable then LM.FailForRetry else LM.FailForGood;
      WorkKeeps(State(), t, w, minted);
      r := WriteClosing(t, w);
    }

    method Delay(t: LM.Token) returns (r: LM.Reply)
      requires Valid()
      modifies this
      ensures (State(), r) == LM.DoWork(old(State()), t, LM.Delay)
      ensures Worked(t, LM.Delay, r)
    {
      WorkKeeps(State(), t, LM.Delay, minted);
      r := WriteClosing(t, LM.Delay);
    }

    method WaitChildren(t: LM.Token) returns (r: LM.Reply)
      requires Valid()
      modifies this
      ensures (State(), r) == LM.DoWork(old(State()), t, LM.WaitChildren)
      ensures Worked(t, LM.WaitChildren, r)
    {
      WorkKeeps(State(), t, LM.WaitChildren, minted);
      r := WriteClosing(t, LM.WaitChildren);
    }

    /** A grant is given exactly on an active execution under the cap whose lease has lapsed. */
    method IssueReclaimGrant(g: LM.GrantId, x: LM.ExecId, worker: LM.WorkerId, now: LM.Millis, expires: LM.Millis)
      returns (r: LM.Reply)
      requires Valid()
      modifies this
      ensures (State(), r) == LM.IssueGrant(old(State()), g, x, worker, now, expires)
      ensures Means.IssueMeans(old(State()), State(), r, g, x, worker, now, expires)
      ensures Gave(r)
    {
      Means.IssueDoes(State(), g, x, worker, now, expires);
      CallKeeps(State(), LM.DoIssue(g, x, worker, now, expires), minted);
      if x !in cores { return LM.NotFound; }
      if cores[x].reclaimCount >= LM.DEFAULT_MAX_RECLAIM_COUNT { return LM.ReclaimCapExceeded; }
      if !LM.Reclaimable(State(), x, now) { return LM.NotReclaimable; }
      if g in grants { return LM.DuplicateRow; }
      grants := grants[g := LM.Grant(x, worker, now, expires)];
      r := LM.Granted;
    }

    /** The grant for the execution that was issued last. */
    method NewestGrant(x: LM.ExecId) returns (g: LM.GrantId)
      requires LM.GrantsOf(State(), x) != {}
      ensures LM.IsNewest(State(), x, g)
    {
      var candidates := LM.GrantsOf(State(), x);
      NewestExists(grants, candidates);
      g :| g in candidates && forall h :: h in candidates ==> grants[h].issued <= grants[g].issued;
    }

    /** The writes of a reclaim by the newest grant `g`; a row already there would abort it. */
    method ConsumeGrant(x: LM.ExecId, g: LM.GrantId, worker: LM.WorkerId, now: LM.Millis, until: LM.Millis, cap: nat)
      returns (r: LM.Reply)
      requires LM.IsNewest(State(), x, g)
      modifies this`cores, this`attempts, this`grants
      ensures (State(), r) == LM.Reclaim(old(State()), x, g, worker, now, until, cap)
    {
      if grants[g].worker != worker { return LM.WrongWorker; }
      if grants[g].expires <= now { return LM.GrantNotFound; }
      if x !in cores { return LM.NotFound; }
      var core := cores[x];
      if core.phase == LM.Terminal || core.phase == LM.Cancelled { return LM.NotReclaimable; }
      if core.reclaimCount + 1 > cap {
        cores := cores[x := core.(phase := LM.Terminal, ownership := LM.Unowned, eligible := false,
                                  reclaimCount := core.reclaimCount + 1)];
        grants := grants - {g};
        return LM.ReclaimCapExceeded;
      }
      var prior, next := LM.Key(x, core.attemptIndex), LM.Key(x, core.attemptIndex + 1);
      if next in attempts { return LM.DuplicateRow; }
      var priorEpoch := 0;
      if prior in attempts {
        priorEpoch := attempts[prior].epoch;
        attempts := attempts[prior := attempts[prior].(outcome := Some(LM.InterruptedReclaimed))];
      }
      attempts := attempts[next := LM.Attempt(Some(worker), priorEpoch + 1, Some(until), None)];
      cores := cores[x := LM.Core(LM.Active, LM.Leased, false, core.attemptIndex + 1, core.reclaimCount + 1)];
      grants := grants - {g};
      r := LM.Minted(LM.Token(x, next.index, priorEpoch + 1));
    }

    /** Consumes the newest grant; the insert of the new attempt row never meets an old one. */
    method ReclaimExecution(x: LM.ExecId, worker: LM.WorkerId, now: LM.Millis, until: LM.Millis, cap: nat)
      returns (r: LM.Reply, g: LM.GrantId)
      requires Valid()
      modifies this
      ensures LM.GrantsOf(old(State()), x) != {} ==> LM.IsNewest(old(State()), x, g)
      ensures (State(), r) == LM.Reclaim(old(State()), x, g, worker, now, until, cap)
      ensures LM.GrantsOf(old(State()), x) == {} ==> r == LM.GrantNotFound && State() == old(State())
      ensures LM.GrantsOf(old(State()), x) != {} ==>
        Means.LastIssued(old(State()), x, g) && Means.ReclaimMeans(old(State()), State(), r, x, g, worker, now, until, cap)
      ensures Gave(r) && r != LM.DuplicateRow
    {
      g := 0;
      if LM.GrantsOf(State(), x) == {} { return LM.GrantNotFound, g; }
      g := NewestGrant(x);
      Means.LastIsNewest(State(), x, g);
      Means.ReclaimDoes(State(), x, g, worker, now, until, cap);
      CallKeeps(State(), LM.DoReclaim(x, g, worker, now, until, cap), minted);
      LP.ReclaimNeverCollides(State(), x, g, worker, now, until, cap);
      r := ConsumeGrant(x, g, worker, now, until, cap);
      minted := minted + LP.Given(r);
    }
  }
}
