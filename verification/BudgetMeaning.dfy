/**
 What a report or spend answers and writes, said with the limits, the counters and the
 amounts alone.
 */
module BudgetMeaning {
  import opened Common
  import opened BudgetModel
  import opened BudgetProofs

  /** The counter as an unsigned number plus the amount, stopping at the largest one. */
  ghost function Projected(db: Db, b: BudgetId, d: Delta): int {
    var cur := Cur(db.usage, Slot(b, d.dim));
    var sum := d.amount + if cur >= 0 then cur else cur + TWO_64;
    if sum >= TWO_64 then TWO_64 - 1 else sum
  }

  /** The dimension has a limit other than zero and would end above it. */
  ghost predicate Over(db: Db, b: BudgetId, limits: map<Dim, u64>, d: Delta) {
    d.dim in limits && limits[d.dim] != 0 && limits[d.dim] < Projected(db, b, d)
  }

  ghost predicate FirstOverAt(db: Db, b: BudgetId, limits: map<Dim, u64>, ds: seq<Delta>, i: int) {
    0 <= i < |ds| && Over(db, b, limits, ds[i]) && forall j :: 0 <= j < i ==> !Over(db, b, limits, ds[j])
  }

  ghost predicate NothingOver(db: Db, b: BudgetId, limits: map<Dim, u64>, ds: seq<Delta>) {
    forall i :: 0 <= i < |ds| ==> !Over(db, b, limits, ds[i])
  }

  lemma OverIs(db: Db, b: BudgetId, limits: map<Dim, u64>, d: Delta)
    requires InRange(db)
    ensures Exceeds(db, b, limits, d) <==> Over(db, b, limits, d)
    ensures NewValue(Cur(db.usage, Slot(b, d.dim)), d.amount) == Projected(db, b, d)
  {
  }

  lemma FirstIs(db: Db, b: BudgetId, limits: map<Dim, u64>, ds: seq<Delta>, i: int)
    requires InRange(db)
    ensures FirstOverAt(db, b, limits, ds, i) <==> i < |ds| && i == FirstOver(db, b, limits, ds, 0)
    ensures NothingOver(db, b, limits, ds) <==> FirstOver(db, b, limits, ds, 0) == |ds|
  {
    forall k | 0 <= k < |ds| ensures Exceeds(db, b, limits, ds[k]) <==> Over(db, b, limits, ds[k]) {
      OverIs(db, b, limits, ds[k]);
    }
  }

  /** The amount each row would gain fits its column. */
  ghost predicate RowsFit(db: Db, b: BudgetId, ds: seq<Delta>, who: Option<ExecId>) {
    forall i :: 0 <= i < |ds| ==>
      && InI64(Cur(db.usage, Slot(b, ds[i].dim)) + AsI64(ds[i].amount))
      && (who.Some? ==> InI64(Owed(db.ledger, Entry(b, who.value, ds[i].dim)) + AsI64(ds[i].amount)))
  }

  lemma CounterRowFits(db: Db, b: BudgetId, ds: seq<Delta>)
    requires InRange(db) && Distinct(ds)
    ensures Fits(Raised(db.usage, b, ds)) <==>
      forall i :: 0 <= i < |ds| ==> InI64(Cur(db.usage, Slot(b, ds[i].dim)) + AsI64(ds[i].amount))
  {
    var usage := Raised(db.usage, b, ds);
    forall i | 0 <= i < |ds|
      ensures var s := Slot(b, ds[i].dim); s in usage && usage[s] == Cur(db.usage, s) + AsI64(ds[i].amount)
    {
      AddedAt(ds, i);
      assert Slot(b, ds[i].dim) in Slots(b, ds);
    }
    forall s | s in usage && (s.budget != b || forall i :: 0 <= i < |ds| ==> ds[i].dim != s.dim)
      ensures usage[s] == Cur(db.usage, s)
    {
    }
  }

  lemma LedgerRowFits(db: Db, b: BudgetId, x: ExecId, ds: seq<Delta>)
    requires InRange(db) && Distinct(ds)
    ensures Fits(Booked(db.ledger, b, x, ds)) <==>
      forall i :: 0 <= i < |ds| ==> InI64(Owed(db.ledger, Entry(b, x, ds[i].dim)) + AsI64(ds[i].amount))
  {
    var ledger := Booked(db.ledger, b, x, ds);
    forall i | 0 <= i < |ds|
      ensures var e := Entry(b, x, ds[i].dim); e in ledger && ledger[e] == Owed(db.ledger, e) + AsI64(ds[i].amount)
    {
      AddedAt(ds, i);
      assert Entry(b, x, ds[i].dim) in Entries(b, x, ds);
    }
    forall e | e in ledger && (e.budget != b || e.exec != x || forall i :: 0 <= i < |ds| ==> ds[i].dim != e.dim)
      ensures ledger[e] == Owed(db.ledger, e)
    {
    }
  }

  // ---------------------------------------------------------------------
  // The answer

  ghost function HardAnswer(db: Db, b: BudgetId, d: Delta): Reply
    requires InRange(db) && d.dim in PolicyOf(db, b).hard
  {
    Reported(HardBreach(d.dim, AsU64(Cur(db.usage, Slot(b, d.dim))), PolicyOf(db, b).hard[d.dim]))
  }

  ghost function SoftAnswer(db: Db, b: BudgetId, d: Delta): Reply
    requires InRange(db) && d.dim in PolicyOf(db, b).soft
  {
    Reported(SoftBreach(d.dim, Projected(db, b, d), PolicyOf(db, b).soft[d.dim]))
  }

  /** No hard limit is in the way and every row has room. */
  ghost predicate Admitted(db: Db, b: BudgetId, ds: seq<Delta>, who: Option<ExecId>) {
    NothingOver(db, b, PolicyOf(db, b).hard, ds) && RowsFit(db, b, ds, who)
  }

  /** The answer to a call that repeats no key, case by case. */
  ghost predicate Answers(db: Db, b: BudgetId, ds: seq<Delta>, who: Option<ExecId>, r: Reply)
    requires InRange(db)
  {
    var policy := PolicyOf(db, b);
    && (forall i :: FirstOverAt(db, b, policy.hard, ds, i) ==> r == HardAnswer(db, b, ds[i]))
    && (r == OutOfRange <==> NothingOver(db, b, policy.hard, ds) && !RowsFit(db, b, ds, who))
    && (Admitted(db, b, ds, who) ==>
          && (NothingOver(db, b, policy.soft, ds) ==> r == Reported(Ok))
          && (forall i :: FirstOverAt(db, b, policy.soft, ds, i) ==> r == SoftAnswer(db, b, ds[i])))
  }

  lemma RowsFitIs(db: Db, b: BudgetId, ds: seq<Delta>, who: Option<ExecId>)
    requires InRange(db) && Distinct(ds)
    ensures RowsFit(db, b, ds, who) <==>
      Fits(Raised(db.usage, b, ds)) && Fits(if who.Some? then Booked(db.ledger, b, who.value, ds) else db.ledger)
  {
    CounterRowFits(db, b, ds);
    if who.Some? { LedgerRowFits(db, b, who.value, ds); }
  }

  lemma AnswersHard(db: Db, b: BudgetId, ds: seq<Delta>, key: string, who: Option<ExecId>)
    requires InRange(db) && !Repeats(db, key) && FirstOver(db, b, PolicyOf(db, b).hard, ds, 0) < |ds|
    ensures Answers(db, b, ds, who, Spend(db, b, ds, key, who).1)
  {
    var hard := PolicyOf(db, b).hard;
    var h := FirstOver(db, b, hard, ds, 0);
    FirstIs(db, b, hard, ds, h);
    forall i | FirstOverAt(db, b, hard, ds, i) ensures i == h { FirstIs(db, b, hard, ds, i); }
  }

  lemma AnswersAdmitted(db: Db, b: BudgetId, ds: seq<Delta>, key: string, who: Option<ExecId>)
    requires InRange(db) && Distinct(ds) && !Repeats(db, key) && FirstOver(db, b, PolicyOf(db, b).hard, ds, 0) == |ds|
    ensures Answers(db, b, ds, who, Spend(db, b, ds, key, who).1)
  {
    var hard, soft := PolicyOf(db, b).hard, PolicyOf(db, b).soft;
    var i := FirstOver(db, b, soft, ds, 0);
    RowsFitIs(db, b, ds, who);
    FirstIs(db, b, hard, ds, 0);
    FirstIs(db, b, soft, ds, i);
    forall j | FirstOverAt(db, b, soft, ds, j) ensures j == i { FirstIs(db, b, soft, ds, j); }
    if i < |ds| { OverIs(db, b, soft, ds[i]); }
  }

  lemma SpendAnswers(db: Db, b: BudgetId, ds: seq<Delta>, key: string, who: Option<ExecId>)
    requires InRange(db) && Distinct(ds) && !Repeats(db, key)
    ensures Answers(db, b, ds, who, Spend(db, b, ds, key, who).1)
  {
    if FirstOver(db, b, PolicyOf(db, b).hard, ds, 0) < |ds| {
      AnswersHard(db, b, ds, key, who);
    } else {
      AnswersAdmitted(db, b, ds, key, who);
    }
  }

  /** `dim` is the first listed dimension that ends at a value `v` above its limit `l`. */
  ghost predicate FirstBreach(db: Db, b: BudgetId, limits: map<Dim, u64>, ds: seq<Delta>, dim: Dim, v: u64, l: u64) {
    exists i :: FirstOverAt(db, b, limits, ds, i) && ds[i].dim == dim && v == Projected(db, b, ds[i]) && l == limits[dim]
  }

  lemma FirstOrNothing(db: Db, b: BudgetId, limits: map<Dim, u64>, ds: seq<Delta>)
    requires InRange(db)
    ensures NothingOver(db, b, limits, ds) || FirstOverAt(db, b, limits, ds, FirstOver(db, b, limits, ds, 0))
  {
    FirstIs(db, b, limits, ds, FirstOver(db, b, limits, ds, 0));
  }

  lemma AnswerIsExact(db: Db, b: BudgetId, ds: seq<Delta>, who: Option<ExecId>, r: Reply, dim: Dim, v: u64, l: u64)
    requires InRange(db) && Answers(db, b, ds, who, r)
    ensures var soft := PolicyOf(db, b).soft;
      && (r == Reported(SoftBreach(dim, v, l)) <==> Admitted(db, b, ds, who) && FirstBreach(db, b, soft, ds, dim, v, l))
      && (r == Reported(Ok) <==> Admitted(db, b, ds, who) && NothingOver(db, b, soft, ds))
  {
    var hard, soft := PolicyOf(db, b).hard, PolicyOf(db, b).soft;
    FirstOrNothing(db, b, hard, ds);
    FirstOrNothing(db, b, soft, ds);
  }

  /**
   A call is answered SoftBreach(dim, v, l) exactly when it is admitted and `dim` is the first
   listed dimension that ends at a value `v` above its soft limit `l`; and Ok exactly when it
   is admitted and there is no such dimension.
   */
  lemma SoftBreachIff(db: Db, b: BudgetId, ds: seq<Delta>, key: string, who: Option<ExecId>, dim: Dim, v: u64, l: u64)
    requires InRange(db) && Distinct(ds) && !Repeats(db, key)
    ensures var soft, r := PolicyOf(db, b).soft, Spend(db, b, ds, key, who).1;
      && (r == Reported(SoftBreach(dim, v, l)) <==> Admitted(db, b, ds, who) && FirstBreach(db, b, soft, ds, dim, v, l))
      && (r == Reported(Ok) <==> Admitted(db, b, ds, who) && NothingOver(db, b, soft, ds))
  {
    SpendAnswers(db, b, ds, key, who);
    AnswerIsExact(db, b, ds, who, Spend(db, b, ds, key, who).1, dim, v, l);
  }

  // ---------------------------------------------------------------------
  // The writes

  /** Breach counters move with the answer and only with it; limits never move. */
  ghost predicate BreachesCounted(db: Db, db': Db, b: BudgetId, r: Reply) {
    && db'.policies.Keys == db.policies.Keys
    && (forall c :: c in db.policies && c != b ==> db'.policies[c] == db.policies[c])
    && (b in db.policies ==>
          var p, p' := db.policies[b], db'.policies[b];
          && p'.hard == p.hard && p'.soft == p.soft
          && p'.softBreaches == p.softBreaches + (if r.Reported? && r.outcome.SoftBreach? then 1 else 0)
          && p'.breaches == p.breaches + (if r.Reported? && r.outcome.HardBreach? then 1 else 0)
          && p'.lastBreach == if r.Reported? && r.outcome.HardBreach? then Some(r.outcome.dim) else p.lastBreach)
  }

  /** Each listed row gains its amount when the call is admitted; no other row moves, and none otherwise. */
  ghost predicate AmountsLanded(db: Db, db': Db, b: BudgetId, ds: seq<Delta>, who: Option<ExecId>, r: Reply) {
    var landed := r == Reported(Ok) || (r.Reported? && r.outcome.SoftBreach?);
    && (forall s :: !(landed && s in Slots(b, ds)) ==> Cur(db'.usage, s) == Cur(db.usage, s))
    && (forall e :: !(landed && who.Some? && e in Entries(b, who.value, ds)) ==> Owed(db'.ledger, e) == Owed(db.ledger, e))
    && (forall i :: landed && 0 <= i < |ds| ==>
          Cur(db'.usage, Slot(b, ds[i].dim)) == Cur(db.usage, Slot(b, ds[i].dim)) + AsI64(ds[i].amount))
    && (forall i :: landed && who.Some? && 0 <= i < |ds| ==>
          Owed(db'.ledger, Entry(b, who.value, ds[i].dim)) == Owed(db.ledger, Entry(b, who.value, ds[i].dim)) + AsI64(ds[i].amount))
  }

  lemma SpendCounts(db: Db, b: BudgetId, ds: seq<Delta>, key: string, who: Option<ExecId>)
    requires InRange(db) && !Repeats(db, key)
    ensures var (db', r) := Spend(db, b, ds, key, who); BreachesCounted(db, db', b, r)
  {
    if FirstOver(db, b, PolicyOf(db, b).hard, ds, 0) < |ds| {
      HardCounts(db, b, ds, key, who);
    } else {
      AdmittedCounts(db, b, ds, key, who);
    }
  }

  lemma HardCounts(db: Db, b: BudgetId, ds: seq<Delta>, key: string, who: Option<ExecId>)
    requires InRange(db) && !Repeats(db, key) && FirstOver(db, b, PolicyOf(db, b).hard, ds, 0) < |ds|
    ensures var (db', r) := Spend(db, b, ds, key, who); BreachesCounted(db, db', b, r)
  {
  }

  lemma AdmittedCounts(db: Db, b: BudgetId, ds: seq<Delta>, key: string, who: Option<ExecId>)
    requires InRange(db) && !Repeats(db, key) && FirstOver(db, b, PolicyOf(db, b).hard, ds, 0) == |ds|
    ensures var (db', r) := Spend(db, b, ds, key, who); BreachesCounted(db, db', b, r)
  {
  }

  lemma RaisedRows(usage: map<Slot, int>, b: BudgetId, ds: seq<Delta>)
    requires Distinct(ds)
    ensures forall s :: s !in Slots(b, ds) ==> Cur(Raised(usage, b, ds), s) == Cur(usage, s)
    ensures forall i :: 0 <= i < |ds| ==>
      Cur(Raised(usage, b, ds), Slot(b, ds[i].dim)) == Cur(usage, Slot(b, ds[i].dim)) + AsI64(ds[i].amount)
  {
    forall s | s !in Slots(b, ds) ensures Cur(Raised(usage, b, ds), s) == Cur(usage, s) {
      if s.budget == b {
        forall i | 0 <= i < |ds| ensures ds[i].dim != s.dim { assert Slot(b, ds[i].dim) in Slots(b, ds); }
      }
    }
    forall i | 0 <= i < |ds|
      ensures Cur(Raised(usage, b, ds), Slot(b, ds[i].dim)) == Cur(usage, Slot(b, ds[i].dim)) + AsI64(ds[i].amount)
    {
      AddedAt(ds, i);
      assert Slot(b, ds[i].dim) in Slots(b, ds);
    }
  }

  lemma BookedRows(ledger: map<Entry, int>, b: BudgetId, x: ExecId, ds: seq<Delta>)
    requires Distinct(ds)
    ensures forall e :: e !in Entries(b, x, ds) ==> Owed(Booked(ledger, b, x, ds), e) == Owed(ledger, e)
    ensures forall i :: 0 <= i < |ds| ==>
      Owed(Booked(ledger, b, x, ds), Entry(b, x, ds[i].dim)) == Owed(ledger, Entry(b, x, ds[i].dim)) + AsI64(ds[i].amount)
  {
    forall e | e !in Entries(b, x, ds) ensures Owed(Booked(ledger, b, x, ds), e) == Owed(ledger, e) {
      if e.budget == b && e.exec == x {
        forall i | 0 <= i < |ds| ensures ds[i].dim != e.dim { assert Entry(b, x, ds[i].dim) in Entries(b, x, ds); }
      }
    }
    forall i | 0 <= i < |ds|
      ensures Owed(Booked(ledger, b, x, ds), Entry(b, x, ds[i].dim)) == Owed(ledger, Entry(b, x, ds[i].dim)) + AsI64(ds[i].amount)
    {
      AddedAt(ds, i);
      assert Entry(b, x, ds[i].dim) in Entries(b, x, ds);
    }
  }

  lemma SpendLands(db: Db, b: BudgetId, ds: seq<Delta>, key: string, who: Option<ExecId>)
    requires InRange(db) && Distinct(ds) && !Repeats(db, key)
    ensures var (db', r) := Spend(db, b, ds, key, who); AmountsLanded(db, db', b, ds, who, r)
  {
    RaisedRows(db.usage, b, ds);
    if who.Some? { BookedRows(db.ledger, b, who.value, ds); }
  }

  ghost predicate SpendMeans(db: Db, db': Db, b: BudgetId, ds: seq<Delta>, who: Option<ExecId>, r: Reply)
    requires InRange(db)
  {
    Answers(db, b, ds, who, r) && BreachesCounted(db, db', b, r) && AmountsLanded(db, db', b, ds, who, r)
  }

  lemma SpendDoes(db: Db, b: BudgetId, ds: seq<Delta>, key: string, who: Option<ExecId>)
    requires InRange(db) && Distinct(ds) && !Repeats(db, key)
    ensures var (db', r) := Spend(db, b, ds, key, who); SpendMeans(db, db', b, ds, who, r)
  {
    SpendAnswers(db, b, ds, key, who);
    SpendCounts(db, b, ds, key, who);
    SpendLands(db, b, ds, key, who);
  }

  /** For a counter in order and an amount below 2^63, the value answered is the counter stored. */
  lemma SoftBreachIsStored(db: Db, b: BudgetId, ds: seq<Delta>, key: string, who: Option<ExecId>)
    requires InRange(db) && Distinct(ds) && !Repeats(db, key)
    requires forall i :: 0 <= i < |ds| ==> ds[i].amount < TWO_63 && 0 <= Cur(db.usage, Slot(b, ds[i].dim))
    ensures var (db', r) := Spend(db, b, ds, key, who);
      r.Reported? && r.outcome.SoftBreach? ==>
        r.outcome.current == Cur(db'.usage, Slot(b, r.outcome.dim)) && r.outcome.limit < r.outcome.current
  {
    var (db', r) := Spend(db, b, ds, key, who);
    SpendAnswers(db, b, ds, key, who);
    SpendLands(db, b, ds, key, who);
    if r.Reported? && r.outcome.SoftBreach? { StoredIsAnswered(db, db', b, ds, who, r); }
  }

  lemma StoredIsAnswered(db: Db, db': Db, b: BudgetId, ds: seq<Delta>, who: Option<ExecId>, r: Reply)
    requires InRange(db) && Answers(db, b, ds, who, r) && AmountsLanded(db, db', b, ds, who, r)
    requires r.Reported? && r.outcome.SoftBreach?
    requires forall i :: 0 <= i < |ds| ==> ds[i].amount < TWO_63 && 0 <= Cur(db.usage, Slot(b, ds[i].dim))
    ensures r.outcome.current == Cur(db'.usage, Slot(b, r.outcome.dim)) && r.outcome.limit < r.outcome.current
  {
    AnswerIsExact(db, b, ds, who, r, r.outcome.dim, r.outcome.current, r.outcome.limit);
    var i :| FirstOverAt(db, b, PolicyOf(db, b).soft, ds, i) && ds[i].dim == r.outcome.dim
      && r.outcome.current == Projected(db, b, ds[i]) && r.outcome.limit == PolicyOf(db, b).soft[r.outcome.dim];
  }

  // ---------------------------------------------------------------------
  // Limits, reset and release

  /** Position `i` is the last one that lists its dimension. */
  ghost predicate LastListed(dims: seq<Dim>, i: int) {
    0 <= i < |dims| && forall j :: i < j < |dims| ==> dims[j] != dims[i]
  }

  lemma {:induction false} LimitMapAt(dims: seq<Dim>, limits: seq<u64>, i: nat)
    requires |dims| == |limits| && LastListed(dims, i)
    ensures dims[i] in LimitMap(dims, limits) && LimitMap(dims, limits)[dims[i]] == limits[i]
    decreases |dims|
  {
    var n := |dims| - 1;
    if i < n { LimitMapAt(dims[..n], limits[..n], i); }
  }

  lemma {:induction false} LimitMapKeys(dims: seq<Dim>, limits: seq<u64>, dim: Dim)
    requires |dims| == |limits|
    ensures dim in LimitMap(dims, limits) <==> dim in dims
    decreases |dims|
  {
    if dims != [] {
      var n := |dims| - 1;
      LimitMapKeys(dims[..n], limits[..n], dim);
      assert dims == dims[..n] + [dims[n]];
    }
  }

  /** Each listed dimension has the limit at its last position, and no other dimension has one. */
  lemma LimitMapIs(dims: seq<Dim>, limits: seq<u64>)
    requires |dims| == |limits|
    ensures forall dim :: dim in LimitMap(dims, limits) <==> dim in dims
    ensures forall i :: LastListed(dims, i) ==> dims[i] in LimitMap(dims, limits) && LimitMap(dims, limits)[dims[i]] == limits[i]
  {
    forall dim ensures dim in LimitMap(dims, limits) <==> dim in dims { LimitMapKeys(dims, limits, dim); }
    forall i | LastListed(dims, i)
      ensures dims[i] in LimitMap(dims, limits) && LimitMap(dims, limits)[dims[i]] == limits[i]
    {
      LimitMapAt(dims, limits, i);
    }
  }

  /** A budget is created exactly once, with the last limit listed for each dimension and nothing counted. */
  lemma CreateDoes(db: Db, b: BudgetId, dims: seq<Dim>, hard: seq<u64>, soft: seq<u64>)
    ensures var (db', r) := Create(db, b, dims, hard, soft);
      && (r == Finished <==> |dims| == |hard| == |soft| && b !in db.policies)
      && (r == AlreadySatisfied <==> |dims| == |hard| == |soft| && b in db.policies)
      && (r != Finished ==> db' == db)
      && (r == Finished ==>
            && db'.usage == db.usage && db'.ledger == db.ledger && db'.dedup == db.dedup
            && db'.policies.Keys == db.policies.Keys + {b}
            && (forall c :: c in db.policies ==> db'.policies[c] == db.policies[c])
            && var p := db'.policies[b];
               && p.breaches == p.softBreaches == 0 && p.lastBreach.None?
               && (forall dim :: (dim in p.hard <==> dim in dims) && (dim in p.soft <==> dim in dims))
               && forall i :: LastListed(dims, i) ==>
                    dims[i] in p.hard && p.hard[dims[i]] == hard[i] && dims[i] in p.soft && p.soft[dims[i]] == soft[i])
  {
    if |dims| == |hard| == |soft| {
      LimitMapIs(dims, hard);
      LimitMapIs(dims, soft);
    }
  }

  /** A reset zeroes every counter of the budget, forgets its last breach, and touches nothing else. */
  lemma ResetDoes(db: Db, b: BudgetId)
    ensures var (db', r) := Reset(db, b);
      && (r == Finished <==> b in db.policies) && (r != Finished ==> db' == db)
      && (r == Finished ==>
            && (forall s :: Cur(db'.usage, s) == if s.budget == b then 0 else Cur(db.usage, s))
            && db'.ledger == db.ledger && db'.dedup == db.dedup && db'.policies.Keys == db.policies.Keys
            && (forall c :: c in db.policies && c != b ==> db'.policies[c] == db.policies[c])
            && db'.policies[b] == db.policies[b].(lastBreach := None))
  {
  }

  /** On a budget in order, a release never aborts. */
  lemma ReleaseInOrderFinishes(db: Db, b: BudgetId, x: ExecId)
    requires InRange(db) && forall dim :: Orderly(db, Slot(b, dim))
    ensures Release(db, b, x).1 == Finished
  {
    forall e | e in EntriesOf(db, b, x) && Slot(b, e.dim) in db.usage
      ensures InI64(db.usage[Slot(b, e.dim)] - db.ledger[e])
    {
      assert Orderly(db, Slot(b, e.dim));
      OwedAtMostUsed(db, Slot(b, e.dim), e);
    }
  }
}
