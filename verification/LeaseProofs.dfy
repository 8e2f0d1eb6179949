/** Fencing-token order, permanent fencing of stale tokens, and reclaim accounting. */
module LeaseProofs {
  import opened Common
  import opened LeaseModel

  // ---------------------------------------------------------------------
  // Every step moves forward

  lemma RowsOfRow(db: Db, k: Key)
    requires k in db.attempts
    ensures k.index in RowsOf(db, k.exec)
  {
  }

  lemma ClaimForward(db: Db, x: ExecId, worker: WorkerId, until: Millis)
    requires LeaseInv(db)
    ensures var db' := Claim(db, x, worker, until).0; Forward(db, db') && LeaseInv(db')
  {
  }

  lemma ResumeForward(db: Db, x: ExecId, i: nat, worker: WorkerId, now: Millis, until: Millis)
    requires LeaseInv(db) && (RowsOf(db, x) != {} ==> IsLatest(db, x, i))
    ensures var db' := ClaimFromResume(db, x, i, worker, now, until).0; Forward(db, db') && LeaseInv(db')
  {
  }

  lemma ReclaimForward(db: Db, x: ExecId, g: GrantId, worker: WorkerId, now: Millis, until: Millis, cap: nat)
    requires LeaseInv(db) && (GrantsOf(db, x) != {} ==> IsNewest(db, x, g))
    ensures var db' := Reclaim(db, x, g, worker, now, until, cap).0; Forward(db, db') && LeaseInv(db')
  {
  }

  lemma WorkForward(db: Db, t: Token, w: Work)
    requires LeaseInv(db)
    ensures var db' := DoWork(db, t, w).0; Forward(db, db') && LeaseInv(db')
  {
  }

  lemma StepForward(db: Db, c: Call)
    requires LeaseInv(db) && Chosen(db, c)
    ensures var db' := Next(db, c).0; Forward(db, db') && LeaseInv(db')
  {
    match c
    case DoClaim(x, worker, until) => ClaimForward(db, x, worker, until);
    case DoResume(x, i, worker, now, until) => ResumeForward(db, x, i, worker, now, until);
    case DoReclaim(x, g, worker, now, until, cap) => ReclaimForward(db, x, g, worker, now, until, cap);
    case DoFenced(t, w) => WorkForward(db, t, w);
    case _ =>
  }

  /**
   In every reachable state each attempt row's index is at most its execution's counter, no
   row is lost and no epoch or counter ever falls.
   */
  lemma {:induction false} RunForward(db: Db, calls: seq<Call>)
    requires LeaseInv(db) && IsRun(db, calls)
    ensures Forward(db, After(db, calls)) && LeaseInv(After(db, calls))
    decreases |calls|
  {
    if calls != [] {
      StepForward(db, calls[0]);
      RunForward(Next(db, calls[0]).0, calls[1..]);
    }
  }

  /** The plain INSERT of a reclaim can therefore never hit an existing row. */
  lemma ReclaimNeverCollides(db: Db, x: ExecId, g: GrantId, worker: WorkerId, now: Millis, until: Millis, cap: nat)
    requires LeaseInv(db) && (GrantsOf(db, x) != {} ==> IsNewest(db, x, g))
    ensures !Reclaim(db, x, g, worker, now, until, cap).1.DuplicateRow?
  {
  }

  // ---------------------------------------------------------------------
  // Token order

  predicate Below(a: Token, b: Token) {
    a.index < b.index || (a.index == b.index && a.epoch < b.epoch)
  }

  /** The token's row is still there and its epoch has not fallen behind the token. */
  ghost predicate Covers(db: Db, t: Token) {
    KeyOf(t) in db.attempts && t.epoch <= db.attempts[KeyOf(t)].epoch
  }

  lemma MintedIsCovered(db: Db, c: Call)
    requires LeaseInv(db) && Chosen(db, c) && Next(db, c).1.Minted?
    ensures Covers(Next(db, c).0, Next(db, c).1.token)
  {
  }

  lemma MintedIsAbove(db: Db, c: Call, t: Token)
    requires LeaseInv(db) && Chosen(db, c) && Covers(db, t)
    requires Next(db, c).1.Minted? && Next(db, c).1.token.exec == t.exec
    ensures Below(t, Next(db, c).1.token)
  {
    RowsOfRow(db, KeyOf(t));
  }

  ghost predicate AllAbove(t: Token, ts: seq<Token>) {
    forall u :: u in ts && u.exec == t.exec ==> Below(t, u)
  }

  /** Tokens of the same execution strictly increase, attempt index first, epoch second. */
  ghost predicate Increasing(ts: seq<Token>) {
    forall i, j :: 0 <= i < j < |ts| && ts[i].exec == ts[j].exec ==> Below(ts[i], ts[j])
  }

  ghost function Given(r: Reply): seq<Token> { if r.Minted? then [r.token] else [] }

  lemma TokensUnfold(db: Db, calls: seq<Call>)
    requires IsRun(db, calls) && calls != []
    ensures Tokens(db, calls) == Given(Next(db, calls[0]).1) + Tokens(Next(db, calls[0]).0, calls[1..])
  {
  }

  lemma StillCovered(db: Db, db': Db, t: Token)
    requires Forward(db, db') && Covers(db, t)
    ensures Covers(db', t)
  {
  }

  /** Whatever a run mints is above a token its rows already cover. */
  lemma {:induction false} TokensAbove(db: Db, calls: seq<Call>, t: Token)
    requires LeaseInv(db) && IsRun(db, calls) && Covers(db, t)
    ensures AllAbove(t, Tokens(db, calls))
    decreases |calls|
  {
    if calls != [] {
      var (db', reply) := Next(db, calls[0]);
      StepForward(db, calls[0]);
      StillCovered(db, db', t);
      TokensAbove(db', calls[1..], t);
      TokensUnfold(db, calls);
      if reply.Minted? && reply.token.exec == t.exec { MintedIsAbove(db, calls[0], t); }
    }
  }

  lemma IncreasingCons(t: Token, ts: seq<Token>)
    requires Increasing(ts) && AllAbove(t, ts)
    ensures Increasing([t] + ts)
  {
  }

  /**
   Over every run of claims, resumes, reclaims, fenced work and whatever else moves the
   tables forward, the tokens minted for one execution strictly increase, attempt index
   first and lease epoch second.
   */
  lemma {:induction false} TokensIncrease(db: Db, calls: seq<Call>)
    requires LeaseInv(db) && IsRun(db, calls)
    ensures Increasing(Tokens(db, calls))
    decreases |calls|
  {
    if calls != [] {
      var (db', reply) := Next(db, calls[0]);
      StepForward(db, calls[0]);
      TokensIncrease(db', calls[1..]);
      TokensUnfold(db, calls);
      if reply.Minted? {
        MintedIsCovered(db, calls[0]);
        TokensAbove(db', calls[1..], reply.token);
        IncreasingCons(reply.token, Tokens(db', calls[1..]));
      } else {
        assert [] + Tokens(db', calls[1..]) == Tokens(db', calls[1..]);
      }
    }
  }

  // ---------------------------------------------------------------------
  // Permanent fencing

  /**
   Once a newer token has been minted on an attempt row, every fenced operation under an
   older token of that row is refused with LeaseConflict and changes nothing, for the rest
   of the run.
   */
  lemma StaleTokenFencedForever(db: Db, c: Call, rest: seq<Call>, t: Token, w: Work)
    requires LeaseInv(db) && Chosen(db, c) && Next(db, c).1.Minted? && IsRun(Next(db, c).0, rest)
    requires KeyOf(Next(db, c).1.token) == KeyOf(t) && t.epoch < Next(db, c).1.token.epoch
    ensures DoWork(After(Next(db, c).0, rest), t, w) == (After(Next(db, c).0, rest), LeaseConflict)
  {
    StepForward(db, c);
    MintedIsCovered(db, c);
    RunForward(Next(db, c).0, rest);
  }

  /**
   Whether a call will hand out attempt row `k` anew, read off the tables before it: a claim
   takes the current row of an eligible execution, a resume the latest row once its lease is
   out.  A reclaim opens a new row and takes none.
   */
  predicate TakesRow(db: Db, c: Call, k: Key) {
    match c
    case DoClaim(x, _, _) =>
      x in db.cores && db.cores[x].phase == Runnable && db.cores[x].eligible && k == Key(x, db.cores[x].attemptIndex)
    case DoResume(x, i, _, now, _) => k == Key(x, i) && k in db.attempts && !LeaseLive(db.attempts[k], now)
    case _ => false
  }

  /** The fence is per attempt row: a token that passes is lost exactly when its row is taken. */
  lemma TokenLostIffRowTaken(db: Db, c: Call, t: Token)
    requires LeaseInv(db) && Chosen(db, c) && !c.Elsewhere? && Fence(db, t) == Done
    ensures Fence(Next(db, c).0, t) != Done <==> TakesRow(db, c, KeyOf(t))
  {
    RowsOfRow(db, KeyOf(t));
  }

  ghost predicate ClaimsFor(c: Call, x: ExecId) { (c.DoClaim? || c.DoResume? || c.DoReclaim?) && c.x == x }

  /** So a holder whose row is not taken can end the execution while the new holder's token is good. */
  lemma OldHolderEndsExecution(db: Db, c: Call, t: Token)
    requires LeaseInv(db) && Chosen(db, c) && Fence(db, t) == Done
    requires ClaimsFor(c, t.exec) && !TakesRow(db, c, KeyOf(t)) && Next(db, c).1.Minted?
    ensures var now, fresher := Next(db, c).0, Next(db, c).1.token;
      var (end, reply) := DoWork(now, t, Complete);
      && reply == Done && t.exec in end.cores && end.cores[t.exec].phase == Terminal
      && Below(t, fresher) && Fence(end, fresher) == Done && end.attempts[KeyOf(fresher)] == now.attempts[KeyOf(fresher)]
  {
    TokenLostIffRowTaken(db, c, t);
    StepForward(db, c);
    MintedPasses(db, c);
    MintedIsAbove(db, c, t);
    assert KeyOf(Next(db, c).1.token) != KeyOf(t);
  }

  /**
   A run that gets there: a worker claims and lets the lease run out, another reclaims, and the
   first one's completion still ends the execution under the second.
   */
  lemma OldHolderRun(x: ExecId, first: WorkerId, second: WorkerId, g: GrantId, until: Millis, now: Millis, later: Millis, cap: nat)
    requires until <= now < later && cap > 0
    ensures var db := Db(map[x := Core(Runnable, Unowned, true, 0, 0)], map[], map[]);
      var calls := [DoClaim(x, first, until), DoIssue(g, x, second, now, later), DoReclaim(x, g, second, now, later, cap)];
      && LeaseInv(db) && IsRun(db, calls) && Tokens(db, calls) == [Token(x, 0, 1), Token(x, 1, 2)]
      && var (end, reply) := DoWork(After(db, calls), Token(x, 0, 1), Complete);
         reply == Done && x in end.cores && end.cores[x].phase == Terminal && Fence(end, Token(x, 1, 2)) == Done
  {
    var db := Db(map[x := Core(Runnable, Unowned, true, 0, 0)], map[], map[]);
    var a, b, c := DoClaim(x, first, until), DoIssue(g, x, second, now, later), DoReclaim(x, g, second, now, later, cap);
    var db2 := Next(Next(db, a).0, b).0;
    assert db2.grants == map[g := Grant(x, second, now, later)] && GrantsOf(db2, x) == {g};
    ThreeCalls(db, a, b, c);
  }

  lemma ThreeCalls(db: Db, a: Call, b: Call, c: Call)
    requires Chosen(db, a) && Chosen(Next(db, a).0, b) && Chosen(Next(Next(db, a).0, b).0, c)
    ensures IsRun(db, [a, b, c])
    ensures After(db, [a, b, c]) == Next(Next(Next(db, a).0, b).0, c).0
    ensures Tokens(db, [a, b, c])
         == Given(Next(db, a).1) + Given(Next(Next(db, a).0, b).1) + Given(Next(Next(Next(db, a).0, b).0, c).1)
  {
    var db1 := Next(db, a).0;
    var db2 := Next(db1, b).0;
    var db3 := Next(db2, c).0;
    assert [a, b, c][1..] == [b, c] && [b, c][1..] == [c] && [c][1..] == [];
    assert IsRun(db3, []) && IsRun(db2, [c]) && IsRun(db1, [b, c]);
    assert After(db2, [c]) == After(db3, []) && After(db1, [b, c]) == After(db2, [c]);
    TokensUnfold(db2, [c]);
    TokensUnfold(db1, [b, c]);
    TokensUnfold(db, [a, b, c]);
  }

  lemma MintedPasses(db: Db, c: Call)
    requires LeaseInv(db) && Chosen(db, c) && Next(db, c).1.Minted?
    ensures Fence(Next(db, c).0, Next(db, c).1.token) == Done
  {
  }

  // ---------------------------------------------------------------------
  // The handles given out

  /**
   The tables and the handles given out so far agree: every row carries the epoch of a handle
   given out for it, no row has fallen behind a handle, and handles come in order.
   */
  ghost predicate HandlesRight(db: Db, minted: seq<Token>) {
    && Increasing(minted)
    && (forall t :: t in minted ==> Covers(db, t))
    && (forall k :: k in db.attempts ==> Token(k.exec, k.index, db.attempts[k].epoch) in minted)
  }

  ghost predicate NewestOnRow(minted: seq<Token>, t: Token) {
    t in minted && forall u :: u in minted && KeyOf(u) == KeyOf(t) ==> u.epoch <= t.epoch
  }

  /** A token passes the fence exactly when it was given out and is the newest on its row. */
  lemma FencePassesNewestOnly(db: Db, minted: seq<Token>, t: Token)
    requires HandlesRight(db, minted)
    ensures Fence(db, t) == Done <==> NewestOnRow(minted, t)
  {
    if KeyOf(t) in db.attempts {
      assert Token(t.exec, t.index, db.attempts[KeyOf(t)].epoch) in minted;
    }
    assert t in minted ==> Covers(db, t);
  }

  /** Epochs move by minting only. */
  lemma EpochsMoveByMinting(db: Db, c: Call, k: Key)
    requires Chosen(db, c) && !c.Elsewhere? && k in Next(db, c).0.attempts
    ensures var (db', reply) := Next(db, c);
      if reply.Minted? && k == KeyOf(reply.token) then db'.attempts[k].epoch == reply.token.epoch
      else k in db.attempts && db'.attempts[k].epoch == db.attempts[k].epoch
  {
  }

  lemma MintedComesLast(db: Db, c: Call, minted: seq<Token>)
    requires LeaseInv(db) && Chosen(db, c) && Next(db, c).1.Minted?
    requires Increasing(minted) && forall t :: t in minted ==> Covers(db, t)
    ensures Increasing(minted + [Next(db, c).1.token])
  {
    forall t | t in minted && t.exec == Next(db, c).1.token.exec ensures Below(t, Next(db, c).1.token) {
      MintedIsAbove(db, c, t);
    }
  }

  lemma StepKeepsHandles(db: Db, c: Call, minted: seq<Token>)
    requires LeaseInv(db) && Chosen(db, c) && !c.Elsewhere? && HandlesRight(db, minted)
    ensures HandlesRight(Next(db, c).0, minted + Given(Next(db, c).1))
  {
    var (db', reply) := Next(db, c);
    var minted' := minted + Given(reply);
    StepForward(db, c);
    if reply.Minted? {
      MintedComesLast(db, c, minted);
      MintedIsCovered(db, c);
    }
    forall t | t in minted' ensures Covers(db', t) {
      if t in minted { StillCovered(db, db', t); }
    }
    forall k | k in db'.attempts ensures Token(k.exec, k.index, db'.attempts[k].epoch) in minted' {
      EpochsMoveByMinting(db, c, k);
    }
  }

  // ---------------------------------------------------------------------
  // Reclaim accounting

  /** A reclaim opens its attempt above the epoch of the one it interrupts. */
  lemma ReclaimRaisesEpoch(db: Db, x: ExecId, g: GrantId, worker: WorkerId, now: Millis, until: Millis, cap: nat)
    requires GrantsOf(db, x) != {} ==> IsNewest(db, x, g)
    requires Reclaim(db, x, g, worker, now, until, cap).1.Minted?
    ensures var (db', reply) := Reclaim(db, x, g, worker, now, until, cap);
      var prior := Key(x, db.cores[x].attemptIndex);
      && reply.token.index == prior.index + 1
      && (prior in db.attempts ==>
            db.attempts[prior].epoch < reply.token.epoch
            && db'.attempts[prior] == db.attempts[prior].(outcome := Some(InterruptedReclaimed)))
      && db'.cores[x].reclaimCount == db.cores[x].reclaimCount + 1 <= cap
      && g !in db'.grants
  {
  }

  ghost predicate Reclaims(db: Db, c: Call, x: ExecId)
    requires Chosen(db, c)
  {
    c.DoReclaim? && c.x == x && Next(db, c).1.Minted?
  }

  /** Successful reclaims of `x` in a run. */
  ghost function ReclaimsIn(db: Db, calls: seq<Call>, x: ExecId): nat
    requires IsRun(db, calls)
    decreases |calls|
  {
    if calls == [] then 0
    else (if Reclaims(db, calls[0], x) then 1 else 0) + ReclaimsIn(Next(db, calls[0]).0, calls[1..], x)
  }

  ghost function ReclaimCount(db: Db, x: ExecId): nat {
    if x in db.cores then db.cores[x].reclaimCount else 0
  }

  /** Under a cap of `m`, at most `m` reclaims of an execution ever succeed. */
  lemma {:induction false} ReclaimsBounded(db: Db, calls: seq<Call>, x: ExecId, m: nat)
    requires LeaseInv(db) && IsRun(db, calls)
    requires forall i :: 0 <= i < |calls| && calls[i].DoReclaim? && calls[i].x == x ==> calls[i].cap <= m
    ensures ReclaimsIn(db, calls, x) <= if ReclaimCount(db, x) <= m then m - ReclaimCount(db, x) else 0
    decreases |calls|
  {
    if calls != [] {
      var c, db' := calls[0], Next(db, calls[0]).0;
      StepForward(db, c);
      if Reclaims(db, c, x) { ReclaimRaisesEpoch(db, x, c.g, c.worker, c.now, c.until, c.cap); }
      assert ReclaimCount(db, x) <= ReclaimCount(db', x);
      ReclaimsBounded(db', calls[1..], x, m);
    }
  }

  ghost function Once(b: bool): nat { if b then 1 else 0 }

  ghost predicate Issues(db: Db, c: Call, g: GrantId) {
    c.DoIssue? && c.g == g && IssueGrant(db, g, c.x, c.worker, c.now, c.expires).1.Granted?
  }

  /** The call uses up grant `g`: a handle is minted or the cap ends the execution. */
  ghost predicate Consumes(db: Db, c: Call, g: GrantId)
    requires Chosen(db, c)
  {
    c.DoReclaim? && c.g == g && (Next(db, c).1.Minted? || Next(db, c).1.ReclaimCapExceeded?)
  }

  ghost function IssuesIn(db: Db, calls: seq<Call>, g: GrantId): nat
    requires IsRun(db, calls)
    decreases |calls|
  {
    if calls == [] then 0 else Once(Issues(db, calls[0], g)) + IssuesIn(Next(db, calls[0]).0, calls[1..], g)
  }

  ghost function ConsumesIn(db: Db, calls: seq<Call>, g: GrantId): nat
    requires IsRun(db, calls)
    decreases |calls|
  {
    if calls == [] then 0 else Once(Consumes(db, calls[0], g)) + ConsumesIn(Next(db, calls[0]).0, calls[1..], g)
  }

  lemma GrantStep(db: Db, c: Call, g: GrantId)
    requires Chosen(db, c)
    ensures Once(g in db.grants) + Once(Issues(db, c, g)) == Once(g in Next(db, c).0.grants) + Once(Consumes(db, c, g))
  {
  }

  /**
   Grant conservation: grants issued, plus one if it was there before, are the grants
   consumed plus one if it is still there.  So a grant yields at most one handle.
   */
  lemma {:induction false} GrantsConserved(db: Db, calls: seq<Call>, g: GrantId)
    requires IsRun(db, calls)
    ensures Once(g in db.grants) + IssuesIn(db, calls, g) == Once(g in After(db, calls).grants) + ConsumesIn(db, calls, g)
    decreases |calls|
  {
    if calls != [] {
      GrantStep(db, calls[0], g);
      GrantsConserved(Next(db, calls[0]).0, calls[1..], g);
    }
  }
}
