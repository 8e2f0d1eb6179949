/** Hard-limit safety, ledger conservation and replay erasure over every run of budget calls. */
module BudgetProofs {
  import opened Common
  import opened BudgetModel

  // ---------------------------------------------------------------------
  // What the deltas add

  lemma RaisedAt(usage: map<Slot, int>, b: BudgetId, ds: seq<Delta>, s: Slot)
    ensures Cur(Raised(usage, b, ds), s) == Cur(usage, s) + if s.budget == b then Added(ds, s.dim) else 0
  {
  }

  lemma BookedAt(ledger: map<Entry, int>, b: BudgetId, x: ExecId, ds: seq<Delta>, e: Entry)
    ensures Owed(Booked(ledger, b, x, ds), e) == Owed(ledger, e) + if e.budget == b && e.exec == x then Added(ds, e.dim) else 0
  {
  }

  // ---------------------------------------------------------------------
  // Hard limits

  /** Admission under limit `h` keeps a counter within it. */
  ghost predicate LimitHolds(h: u64) {
    forall cur: int, amount: u64 :: 0 <= cur <= h && cur < TWO_63 && NewValue(cur, amount) <= h ==>
      0 <= cur + AsI64(amount) <= h
  }

  /**
   The admission test protects a limit exactly when the limit itself fits the signed column:
   from 2^63 on, an admitted amount can be cast to a negative one.
   */
  lemma LimitHoldsExactly(h: u64)
    ensures LimitHolds(h) <==> h < TWO_63
  {
    if h >= TWO_63 {
      assert NewValue(0, h) <= h && 0 + AsI64(h) < 0;
    }
  }

  /** The dimension is limited, within its limit, and no execution owes it a negative amount. */
  ghost predicate Safe(db: Db, s: Slot) {
    && s.budget in db.policies && s.dim in db.policies[s.budget].hard
    && 0 < db.policies[s.budget].hard[s.dim] < TWO_63
    && 0 <= Cur(db.usage, s) <= db.policies[s.budget].hard[s.dim]
    && forall e :: e in db.ledger && e.budget == s.budget && e.dim == s.dim ==> 0 <= db.ledger[e]
  }

  /** An admitted amount on a safe dimension is small, positive and inside the limit. */
  lemma AdmittedAmount(db: Db, b: BudgetId, ds: seq<Delta>, dim: Dim)
    requires InRange(db) && Distinct(ds) && Safe(db, Slot(b, dim))
    requires FirstOver(db, b, PolicyOf(db, b).hard, ds, 0) == |ds|
    ensures 0 <= Added(ds, dim) && Cur(db.usage, Slot(b, dim)) + Added(ds, dim) <= db.policies[b].hard[dim]
  {
  }

  lemma SpendKeepsSafe(db: Db, b: BudgetId, ds: seq<Delta>, key: string, who: Option<ExecId>, s: Slot)
    requires InRange(db) && Distinct(ds) && Safe(db, s)
    ensures Safe(Spend(db, b, ds, key, who).0, s)
  {
    var (db', reply) := Spend(db, b, ds, key, who);
    var h := FirstOver(db, b, PolicyOf(db, b).hard, ds, 0);
    if !Repeats(db, key) && h == |ds| && reply != OutOfRange {
      RaisedAt(db.usage, b, ds, s);
      if s.budget == b { AdmittedAmount(db, b, ds, s.dim); }
      if who.Some? {
        forall e | e in db'.ledger && e.budget == s.budget && e.dim == s.dim ensures 0 <= db'.ledger[e] {
          BookedAt(db.ledger, b, who.value, ds, e);
        }
      }
    }
  }

  lemma StepKeepsSafe(db: Db, c: Call, s: Slot)
    requires InRange(db) && WellFormed(c) && Safe(db, s)
    ensures Safe(Next(db, c).0, s)
  {
    match c
    case DoSpend(b, ds, key, who) => SpendKeepsSafe(db, b, ds, key, who, s);
    case DoRelease(b, x) => assert Entry(s.budget, x, s.dim) in db.ledger ==> 0 <= db.ledger[Entry(s.budget, x, s.dim)];
    case _ =>
  }

  /**
   Hard-limit safety: once a budget's dimension is within a nonzero limit below 2^63, every
   run of reports, spends, releases, resets and creations, with any amounts, keeps it there.
   */
  lemma {:induction false} HardLimitSafety(db: Db, calls: seq<Call>, s: Slot)
    requires InRange(db) && Safe(db, s)
    requires forall i :: 0 <= i < |calls| ==> WellFormed(calls[i])
    ensures Safe(Run(db, calls), s)
    decreases |calls|
  {
    if calls != [] {
      StepKeepsSafe(db, calls[0], s);
      StepInRange(db, calls[0]);
      HardLimitSafety(Next(db, calls[0]).0, calls[1..], s);
    }
  }

  /** An admitted call never overflows a safe dimension's counter. */
  lemma SafeCounterFits(db: Db, b: BudgetId, ds: seq<Delta>, dim: Dim)
    requires InRange(db) && Distinct(ds) && Safe(db, Slot(b, dim))
    requires FirstOver(db, b, PolicyOf(db, b).hard, ds, 0) == |ds|
    ensures InI64(Cur(Raised(db.usage, b, ds), Slot(b, dim)))
  {
  }

  /** Every dimension of the call is safe and within its limit. */
  ghost predicate SafeCall(db: Db, b: BudgetId, ds: seq<Delta>)
    requires InRange(db)
  {
    && Distinct(ds) && FirstOver(db, b, PolicyOf(db, b).hard, ds, 0) == |ds|
    && forall i :: 0 <= i < |ds| ==> Safe(db, Slot(b, ds[i].dim))
  }

  /** The execution's ledger row has no room for the amount. */
  ghost predicate LedgerFull(db: Db, b: BudgetId, x: ExecId, d: Delta) {
    Owed(db.ledger, Entry(b, x, d.dim)) + d.amount >= TWO_63
  }

  lemma SafeCountersFit(db: Db, b: BudgetId, ds: seq<Delta>)
    requires InRange(db) && SafeCall(db, b, ds)
    ensures Fits(Raised(db.usage, b, ds))
  {
    forall s | s in Raised(db.usage, b, ds) ensures InI64(Raised(db.usage, b, ds)[s]) {
      RaisedAt(db.usage, b, ds, s);
      if i :| 0 <= i < |ds| && s == Slot(b, ds[i].dim) { SafeCounterFits(db, b, ds, s.dim); }
    }
  }

  lemma SafeLedgerFits(db: Db, b: BudgetId, ds: seq<Delta>, x: ExecId)
    requires InRange(db) && SafeCall(db, b, ds)
    ensures Fits(Booked(db.ledger, b, x, ds)) <==> forall i :: 0 <= i < |ds| ==> !LedgerFull(db, b, x, ds[i])
  {
    var booked := Booked(db.ledger, b, x, ds);
    forall i | 0 <= i < |ds|
      ensures Entry(b, x, ds[i].dim) in booked && (InI64(booked[Entry(b, x, ds[i].dim)]) <==> !LedgerFull(db, b, x, ds[i]))
    {
      assert Safe(db, Slot(b, ds[i].dim));
      AdmittedAmount(db, b, ds, ds[i].dim);
      AddedAt(ds, i);
      assert Entry(b, x, ds[i].dim) in Entries(b, x, ds);
    }
    forall e | e in booked && !(exists i :: 0 <= i < |ds| && e == Entry(b, x, ds[i].dim)) ensures InI64(booked[e]) {
      BookedAt(db.ledger, b, x, ds, e);
    }
  }

  /**
   A call within the limits of safe dimensions never overflows a counter.  It is aborted
   exactly when it is a spend and some ledger row of the execution has no room left.
   */
  lemma SafeCallAbortsIffLedgerFull(db: Db, b: BudgetId, ds: seq<Delta>, key: string, who: Option<ExecId>)
    requires InRange(db) && SafeCall(db, b, ds) && !Repeats(db, key)
    ensures Spend(db, b, ds, key, who).1 == OutOfRange
      <==> who.Some? && exists i :: 0 <= i < |ds| && LedgerFull(db, b, who.value, ds[i])
  {
    SafeCountersFit(db, b, ds);
    if who.Some? { SafeLedgerFits(db, b, ds, who.value); }
  }

  /** A hard breach on any dimension moves no counter and no ledger entry. */
  lemma HardBreachChangesNoCounter(db: Db, b: BudgetId, ds: seq<Delta>, key: string, who: Option<ExecId>)
    requires InRange(db) && !Repeats(db, key)
    ensures var (db', reply) := Spend(db, b, ds, key, who);
      && ((reply.Reported? && reply.outcome.HardBreach?) <==> exists i :: 0 <= i < |ds| && Exceeds(db, b, PolicyOf(db, b).hard, ds[i]))
      && (reply.Reported? && reply.outcome.HardBreach? ==>
            db'.ledger == db.ledger && forall s :: Cur(db'.usage, s) == Cur(db.usage, s))
  {
  }

  // ---------------------------------------------------------------------
  // Sums over a ledger column

  ghost function Sum<K(!new)>(m: map<K, int>): int
    decreases |m|
  {
    if m == map[] then 0
    else
      var k :| k in m;
      m[k] + Sum(m - {k})
  }

  lemma {:induction false} SumTake<K(!new)>(m: map<K, int>, k: K)
    requires k in m
    ensures Sum(m) == m[k] + Sum(m - {k})
    decreases |m|
  {
    var j :| j in m && Sum(m) == m[j] + Sum(m - {j});
    if j != k {
      SumTake(m - {j}, k);
      SumTake(m - {k}, j);
      assert m - {j} - {k} == m - {k} - {j};
    }
  }

  lemma {:induction false} SumAtLeast<K(!new)>(m: map<K, int>)
    requires forall k :: k in m ==> 0 <= m[k]
    ensures 0 <= Sum(m)
    decreases |m|
  {
    if m != map[] {
      var k :| k in m;
      SumTake(m, k);
      SumAtLeast(m - {k});
    }
  }

  /** What the executions together owe on a slot. */
  ghost function Column(ledger: map<Entry, int>, s: Slot): map<Entry, int> {
    map e | e in ledger && e.budget == s.budget && e.dim == s.dim :: ledger[e]
  }

  lemma SumPut<K(!new)>(m: map<K, int>, k: K, v: int)
    ensures Sum(m[k := v]) == Sum(m) - (if k in m then m[k] else 0) + v
  {
    SumTake(m[k := v], k);
    if k in m {
      SumTake(m, k);
      assert m[k := v] - {k} == m - {k};
    } else {
      assert m[k := v] - {k} == m;
    }
  }

  // ---------------------------------------------------------------------
  // Ledger conservation

  /** Usage not explained by the ledger. */
  ghost function Unattributed(db: Db, s: Slot): int {
    Cur(db.usage, s) - Sum(Column(db.ledger, s))
  }

  /** The slot's ledger is in order: nobody owes a negative amount, and owed slots have a counter row. */
  ghost predicate Orderly(db: Db, s: Slot) {
    && (forall e :: e in db.ledger && e.budget == s.budget && e.dim == s.dim ==> 0 <= db.ledger[e] && s in db.usage)
    && 0 <= Unattributed(db, s)
  }

  predicate SmallAmounts(c: Call) {
    c.DoSpend? ==> forall i :: 0 <= i < |c.ds| ==> c.ds[i].amount < TWO_63
  }

  /** The call is a report that was applied, not refused, aborted or replayed. */
  ghost predicate AppliedReport(db: Db, c: Call)
    requires InRange(db)
  {
    c.DoSpend? && c.who.None? && !Repeats(db, c.key) && Next(db, c).1 != OutOfRange
    && !Next(db, c).1.outcome.HardBreach?
  }

  ghost function ReportedBy(db: Db, c: Call, s: Slot): int
    requires InRange(db)
  {
    if AppliedReport(db, c) && c.b == s.budget then Added(c.ds, s.dim) else 0
  }

  lemma AddedNonNegative(ds: seq<Delta>, dim: Dim)
    requires forall i :: 0 <= i < |ds| ==> ds[i].amount < TWO_63
    ensures 0 <= Added(ds, dim)
  {
  }

  lemma ColumnBooked(ledger: map<Entry, int>, b: BudgetId, x: ExecId, ds: seq<Delta>, s: Slot)
    ensures Sum(Column(Booked(ledger, b, x, ds), s)) == Sum(Column(ledger, s)) + if s.budget == b then Added(ds, s.dim) else 0
  {
    var e, l' := Entry(b, x, s.dim), Booked(ledger, b, x, ds);
    BookedAt(ledger, b, x, ds, e);
    if s.budget == b && e in l' {
      assert Column(l', s) == Column(ledger, s)[e := l'[e]];
      SumPut(Column(ledger, s), e, l'[e]);
    } else {
      assert Column(l', s) == Column(ledger, s);
    }
  }

  lemma BookedRowsInOrder(db: Db, b: BudgetId, x: ExecId, ds: seq<Delta>, s: Slot, e: Entry)
    requires Orderly(db, s) && 0 <= Added(ds, s.dim)
    requires e in Booked(db.ledger, b, x, ds) && e.budget == s.budget && e.dim == s.dim
    ensures 0 <= Booked(db.ledger, b, x, ds)[e] && s in Raised(db.usage, b, ds)
  {
  }

  lemma BookingConserves(db: Db, b: BudgetId, x: ExecId, ds: seq<Delta>, s: Slot, db': Db)
    requires Orderly(db, s) && 0 <= Added(ds, s.dim)
    requires db'.usage == Raised(db.usage, b, ds) && db'.ledger == Booked(db.ledger, b, x, ds)
    ensures Orderly(db', s) && Unattributed(db', s) == Unattributed(db, s)
  {
    RaisedAt(db.usage, b, ds, s);
    ColumnBooked(db.ledger, b, x, ds, s);
    forall e | e in db'.ledger && e.budget == s.budget && e.dim == s.dim ensures 0 <= db'.ledger[e] && s in db'.usage {
      BookedRowsInOrder(db, b, x, ds, s, e);
    }
  }

  lemma ReportConserves(db: Db, b: BudgetId, ds: seq<Delta>, s: Slot, db': Db)
    requires Orderly(db, s) && 0 <= Added(ds, s.dim)
    requires db'.usage == Raised(db.usage, b, ds) && db'.ledger == db.ledger
    ensures Orderly(db', s) && Unattributed(db', s) == Unattributed(db, s) + if b == s.budget then Added(ds, s.dim) else 0
  {
  }

  lemma SpendConserves(db: Db, c: Call, s: Slot)
    requires InRange(db) && c.DoSpend? && SmallAmounts(c) && Orderly(db, s)
    ensures var db' := Next(db, c).0;
      Orderly(db', s) && Unattributed(db', s) == Unattributed(db, s) + ReportedBy(db, c, s)
  {
    var (db', reply) := Next(db, c);
    var h := FirstOver(db, c.b, PolicyOf(db, c.b).hard, c.ds, 0);
    if !Repeats(db, c.key) && h == |c.ds| && reply != OutOfRange {
      AddedNonNegative(c.ds, s.dim);
      match c.who
      case Some(x) => BookingConserves(db, c.b, x, c.ds, s, db');
      case None => ReportConserves(db, c.b, c.ds, s, db');
    }
  }

  /** What a release writes on one dimension. */
  lemma ReleaseWrites(db: Db, b: BudgetId, x: ExecId, dim: Dim)
    requires Release(db, b, x).1 == Finished
    ensures var (db', s, e) := (Release(db, b, x).0, Slot(b, dim), Entry(b, x, dim));
      && Column(db'.ledger, s) == Column(db.ledger, s) - {e}
      && (s in db'.usage <==> s in db.usage)
      && Cur(db'.usage, s) == if s in db.usage && e in db.ledger then AtLeastZero(db.usage[s] - db.ledger[e]) else Cur(db.usage, s)
  {
    assert Entry(b, x, dim) in db.ledger ==> Entry(b, x, dim) in EntriesOf(db, b, x);
  }

  /** Releasing takes back exactly what the execution owes: the clamp at zero never fires. */
  lemma ReleaseUndoesOwnSpends(db: Db, b: BudgetId, x: ExecId, dim: Dim)
    requires InRange(db) && Orderly(db, Slot(b, dim)) && Release(db, b, x).1 == Finished
    ensures var (db', s, e) := (Release(db, b, x).0, Slot(b, dim), Entry(b, x, dim));
      && Cur(db'.usage, s) == Cur(db.usage, s) - Owed(db.ledger, e)
      && Column(db'.ledger, s) == Column(db.ledger, s) - {e}
      && Orderly(db', s) && Unattributed(db', s) == Unattributed(db, s)
  {
    ReleaseWrites(db, b, x, dim);
    OwedAtMostUsed(db, Slot(b, dim), Entry(b, x, dim));
  }

  /** What one execution owes is part of the counter. */
  lemma OwedAtMostUsed(db: Db, s: Slot, e: Entry)
    requires Orderly(db, s) && e.budget == s.budget && e.dim == s.dim
    ensures 0 <= Owed(db.ledger, e) <= Cur(db.usage, s)
    ensures Sum(Column(db.ledger, s) - {e}) == Sum(Column(db.ledger, s)) - Owed(db.ledger, e)
  {
    var column := Column(db.ledger, s);
    if e in db.ledger {
      SumTake(column, e);
      SumAtLeast(column - {e});
    } else {
      assert column - {e} == column;
      SumAtLeast(column);
    }
  }

  /** While the books are in order the ledger has room for whatever the limit admits. */
  lemma InOrderNeverAborts(db: Db, b: BudgetId, ds: seq<Delta>, key: string, who: Option<ExecId>)
    requires InRange(db) && SafeCall(db, b, ds) && !Repeats(db, key)
    requires forall i :: 0 <= i < |ds| ==> Orderly(db, Slot(b, ds[i].dim))
    ensures Spend(db, b, ds, key, who).1 != OutOfRange
  {
    SafeCallAbortsIffLedgerFull(db, b, ds, key, who);
    if who.Some? {
      forall i | 0 <= i < |ds| ensures !LedgerFull(db, b, who.value, ds[i]) {
        OwedAtMostUsed(db, Slot(b, ds[i].dim), Entry(b, who.value, ds[i].dim));
        AdmittedAmount(db, b, ds, ds[i].dim);
        AddedAt(ds, i);
      }
    }
  }

  lemma ReleaseConserves(db: Db, b: BudgetId, x: ExecId, s: Slot)
    requires InRange(db) && Orderly(db, s)
    ensures var db' := Release(db, b, x).0; Orderly(db', s) && Unattributed(db', s) == Unattributed(db, s)
  {
    if s.budget == b {
      if Release(db, b, x).1 == Finished { ReleaseUndoesOwnSpends(db, b, x, s.dim); }
    } else {
      assert Column(Release(db, b, x).0.ledger, s) == Column(db.ledger, s);
    }
  }

  lemma StepConserves(db: Db, c: Call, s: Slot)
    requires InRange(db) && SmallAmounts(c) && Orderly(db, s) && !(c.DoReset? && c.b == s.budget)
    ensures var db' := Next(db, c).0;
      Orderly(db', s) && Unattributed(db', s) == Unattributed(db, s) + ReportedBy(db, c, s)
  {
    match c
    case DoSpend(_, _, _, _) => SpendConserves(db, c, s);
    case DoRelease(b, x) => ReleaseConserves(db, b, x, s);
    case _ =>
  }

  ghost function ReportedIn(db: Db, calls: seq<Call>, s: Slot): int
    requires InRange(db)
    decreases |calls|
  {
    if calls == [] then 0
    else
      StepInRange(db, calls[0]);
      ReportedBy(db, calls[0], s) + ReportedIn(Next(db, calls[0]).0, calls[1..], s)
  }

  /**
   Ledger conservation: over every run without a reset of the budget, a counter is what the
   executions owe on it, plus the reports that were applied, plus what was unattributed at
   the start.
   */
  lemma {:induction false} LedgerConserved(db: Db, calls: seq<Call>, s: Slot)
    requires InRange(db) && Orderly(db, s)
    requires forall i :: 0 <= i < |calls| ==> SmallAmounts(calls[i]) && !(calls[i].DoReset? && calls[i].b == s.budget)
    ensures Orderly(Run(db, calls), s)
    ensures Cur(Run(db, calls).usage, s)
         == Sum(Column(Run(db, calls).ledger, s)) + ReportedIn(db, calls, s) + Unattributed(db, s)
    decreases |calls|
  {
    if calls != [] {
      StepConserves(db, calls[0], s);
      StepInRange(db, calls[0]);
      LedgerConserved(Next(db, calls[0]).0, calls[1..], s);
    }
  }

  /**
   A reset clears the counters and not the ledger.  The books stay in order, so that later
   releases stay exact, exactly when nobody owed anything on the dimension.
   */
  lemma ResetInOrderIffNothingOwed(db: Db, s: Slot)
    requires s.budget in db.policies && Orderly(db, s)
    ensures Orderly(Reset(db, s.budget).0, s) <==> Sum(Column(db.ledger, s)) == 0
  {
    assert Column(Reset(db, s.budget).0.ledger, s) == Column(db.ledger, s);
    SumAtLeast(Column(db.ledger, s));
  }

  // ---------------------------------------------------------------------
  // Runs that lose a property

  /** A budget just created with one dimension and a hard limit only; a limit of zero is none. */
  function NewBudget(dim: Dim, limit: u64): Db {
    Create(Db(map[], map[], map[], map[]), 0, [dim], [limit], [0]).0
  }

  lemma NewBudgetIs(dim: Dim, limit: u64)
    ensures NewBudget(dim, limit) == Db(map[0 := Policy(map[dim := limit], map[dim := 0], 0, 0, None)], map[], map[], map[])
  {
    LimitMapOne(dim, limit);
    LimitMapOne(dim, 0);
  }

  lemma LimitMapOne(dim: Dim, limit: u64)
    ensures LimitMap([dim], [limit]) == map[dim := limit]
  {
    var dims, limits := [dim], [limit];
    assert dims[..0] == [] && limits[..0] == [];
    assert LimitMap(dims, limits) == LimitMap(dims[..0], limits[..0])[dim := limit];
  }

  lemma OneDelta(dim: Dim, amount: u64)
    ensures Added([Delta(dim, amount)], dim) == AsI64(amount)
    ensures forall b :: Slots(b, [Delta(dim, amount)]) == {Slot(b, dim)}
    ensures forall b, x :: Entries(b, x, [Delta(dim, amount)]) == {Entry(b, x, dim)}
  {
    var ds := [Delta(dim, amount)];
    assert ds[0].dim == dim;
    AddedAt(ds, 0);
  }

  function SpendOne(dim: Dim, amount: u64, x: ExecId): Call { DoSpend(0, [Delta(dim, amount)], "", Some(x)) }

  /** One execution's spend on one dimension that its limit admits. */
  lemma OneSpend(db: Db, dim: Dim, amount: u64, x: ExecId)
    requires InRange(db) && !Exceeds(db, 0, PolicyOf(db, 0).hard, Delta(dim, amount))
    requires PolicyOf(db, 0).soft == map[dim := 0]
    ensures var usage := db.usage[Slot(0, dim) := Cur(db.usage, Slot(0, dim)) + AsI64(amount)];
      var ledger := db.ledger[Entry(0, x, dim) := Owed(db.ledger, Entry(0, x, dim)) + AsI64(amount)];
      var (db', reply) := Next(db, SpendOne(dim, amount, x));
      if Fits(usage) && Fits(ledger) then db' == db.(usage := usage, ledger := ledger) && reply != OutOfRange
      else db' == db && reply == OutOfRange
  {
    OneDelta(dim, amount);
    assert Raised(db.usage, 0, [Delta(dim, amount)])
        == db.usage[Slot(0, dim) := Cur(db.usage, Slot(0, dim)) + AsI64(amount)];
    assert Booked(db.ledger, 0, x, [Delta(dim, amount)])
        == db.ledger[Entry(0, x, dim) := Owed(db.ledger, Entry(0, x, dim)) + AsI64(amount)];
  }

  /** A spend that fits both rows. */
  lemma OneSpendFits(db: Db, dim: Dim, amount: u64, x: ExecId)
    requires InRange(db) && !Exceeds(db, 0, PolicyOf(db, 0).hard, Delta(dim, amount)) && PolicyOf(db, 0).soft == map[dim := 0]
    requires amount < TWO_63 && InI64(Cur(db.usage, Slot(0, dim)) + amount) && InI64(Owed(db.ledger, Entry(0, x, dim)) + amount)
    ensures Next(db, SpendOne(dim, amount, x)).0
         == db.(usage := db.usage[Slot(0, dim) := Cur(db.usage, Slot(0, dim)) + amount],
                ledger := db.ledger[Entry(0, x, dim) := Owed(db.ledger, Entry(0, x, dim)) + amount])
  {
    OneSpend(db, dim, amount, x);
  }

  lemma ResetOne(db: Db, dim: Dim, n: int)
    requires 0 in db.policies && db.policies[0].lastBreach.None? && db.usage == map[Slot(0, dim) := n]
    ensures Reset(db, 0).0 == db.(usage := map[Slot(0, dim) := 0])
  {
    assert db.policies[0 := db.policies[0]] == db.policies;
  }

  lemma RunTwo(db: Db, c: Call, d: Call)
    requires InRange(db)
    ensures InRange(Next(db, c).0) && Run(db, [c, d]) == Next(Next(db, c).0, d).0
  {
    StepInRange(db, c);
    var db1 := Next(db, c).0;
    StepInRange(db1, d);
    assert [c, d][1..] == [d] && [d][1..] == [];
    assert Run(db1, [d]) == Run(Next(db1, d).0, []);
  }

  /** A first spend and a reset: the counter is back at zero, the ledger is not. */
  lemma SpendThenReset(dim: Dim, limit: u64, amount: u64, x: ExecId)
    requires amount < TWO_63 && (limit > 0 ==> amount <= limit)
    ensures InRange(NewBudget(dim, limit))
    ensures Run(NewBudget(dim, limit), [SpendOne(dim, amount, x), DoReset(0)])
         == NewBudget(dim, limit).(usage := map[Slot(0, dim) := 0], ledger := map[Entry(0, x, dim) := amount])
  {
    NewBudgetIs(dim, limit);
    var db, c := NewBudget(dim, limit), SpendOne(dim, amount, x);
    OneSpendFits(db, dim, amount, x);
    ResetOne(Next(db, c).0, dim, amount);
    RunTwo(db, c, DoReset(0));
  }

  lemma ReleaseOne(db: Db, dim: Dim, x: ExecId, y: ExecId, early: int, late: int)
    requires x != y && 0 < early < TWO_63 && 0 < late < TWO_63
    requires db.usage == map[Slot(0, dim) := late] && db.ledger == map[Entry(0, x, dim) := early, Entry(0, y, dim) := late]
    ensures Release(db, 0, x).0.usage == map[Slot(0, dim) := AtLeastZero(late - early)]
    ensures Release(db, 0, x).0.ledger == map[Entry(0, y, dim) := late]
  {
    assert EntriesOf(db, 0, x) == {Entry(0, x, dim)};
  }

  /** After a reset, releasing one execution takes away what another has spent since. */
  lemma ReleaseAfterResetTakesFromOthers(dim: Dim, early: u64, late: u64)
    requires 0 < early < TWO_63 && 0 < late < TWO_63
    ensures InRange(NewBudget(dim, 0))
    ensures var db := Run(NewBudget(dim, 0), [SpendOne(dim, early, 1), DoReset(0)]);
      var end := Run(db, [SpendOne(dim, late, 2), DoRelease(0, 1)]);
      Owed(end.ledger, Entry(0, 2, dim)) == late && Cur(end.usage, Slot(0, dim)) == AtLeastZero(late - early) < late
  {
    SpendThenReset(dim, 0, early, 1);
    SpendThenRelease(Run(NewBudget(dim, 0), [SpendOne(dim, early, 1), DoReset(0)]), dim, early, late);
  }

  lemma SpendThenRelease(db: Db, dim: Dim, early: u64, late: u64)
    requires 0 < early < TWO_63 && 0 < late < TWO_63
    requires db == NewBudget(dim, 0).(usage := map[Slot(0, dim) := 0], ledger := map[Entry(0, 1, dim) := early])
    ensures InRange(db)
    ensures var end := Run(db, [SpendOne(dim, late, 2), DoRelease(0, 1)]);
      Owed(end.ledger, Entry(0, 2, dim)) == late && Cur(end.usage, Slot(0, dim)) == AtLeastZero(late - early)
  {
    NewBudgetIs(dim, 0);
    var c := SpendOne(dim, late, 2);
    OneSpendFits(db, dim, late, 2);
    RunTwo(db, c, DoRelease(0, 1));
    ReleaseOne(Next(db, c).0, dim, 1, 2, early, late);
  }

  /** After a reset a spend within its limit can be aborted by the ledger that was left behind. */
  lemma ResetLeavesLedgerFull(dim: Dim, limit: u64, x: ExecId)
    requires TWO_63 <= 2 * limit && limit < TWO_63
    ensures InRange(NewBudget(dim, limit))
    ensures var db := Run(NewBudget(dim, limit), [SpendOne(dim, limit, x), DoReset(0)]);
      && Safe(db, Slot(0, dim)) && Cur(db.usage, Slot(0, dim)) == 0
      && Next(db, SpendOne(dim, limit, x)).1 == OutOfRange
  {
    NewBudgetIs(dim, limit);
    SpendThenReset(dim, limit, limit, x);
    var db := Run(NewBudget(dim, limit), [SpendOne(dim, limit, x), DoReset(0)]);
    OneSpend(db, dim, limit, x);
    assert Entry(0, x, dim) in db.ledger;
  }

  /** From 2^63 on a limit is no protection: a report of just the limit leaves the counter negative. */
  lemma HugeLimitGoesNegative(dim: Dim, limit: u64)
    requires limit >= TWO_63
    ensures InRange(NewBudget(dim, limit))
    ensures var (db, reply) := Next(NewBudget(dim, limit), DoSpend(0, [Delta(dim, limit)], "", None));
      reply == Reported(Ok) && Cur(db.usage, Slot(0, dim)) < 0
  {
    NewBudgetIs(dim, limit);
    OneDelta(dim, limit);
    assert Slot(0, dim) in Raised(map[], 0, [Delta(dim, limit)]);
  }

  // ---------------------------------------------------------------------
  // Idempotency

  ghost predicate Recorded(v: Json) { exists o :: v == OutcomeToJson(o) }

  /** Every stored record is the outcome of a finished call under a nonempty key. */
  ghost predicate DedupInv(db: Db) {
    forall key :: key in db.dedup ==> key != "" && Recorded(db.dedup[key])
  }

  /** No record is ever overwritten or lost. */
  ghost predicate DedupGrows(db: Db, db': Db) {
    forall key :: key in db.dedup ==> key in db'.dedup && db'.dedup[key] == db.dedup[key]
  }

  lemma StepDedup(db: Db, c: Call)
    requires InRange(db) && DedupInv(db)
    ensures DedupInv(Next(db, c).0) && DedupGrows(db, Next(db, c).0)
  {
    if c.DoSpend? {
      var (db', reply) := Next(db, c);
      forall key | key in db'.dedup ensures key != "" && Recorded(db'.dedup[key]) {
        if key !in db.dedup || db'.dedup[key] != db.dedup[key] {
          assert db'.dedup[key] == OutcomeToJson(reply.outcome);
        }
      }
    }
  }

  lemma {:induction false} RunDedup(db: Db, calls: seq<Call>)
    requires InRange(db) && DedupInv(db)
    ensures DedupInv(Run(db, calls)) && DedupGrows(db, Run(db, calls))
    decreases |calls|
  {
    if calls != [] {
      StepDedup(db, calls[0]);
      StepInRange(db, calls[0]);
      RunDedup(Next(db, calls[0]).0, calls[1..]);
    }
  }

  /** The placeholder of an unfinished call is never seen. */
  lemma PlaceholderUnreachable(db: Db, calls: seq<Call>, key: string)
    requires InRange(db) && DedupInv(db) && key in Run(db, calls).dedup
    ensures Run(db, calls).dedup[key] != Object(map[])
  {
    RunDedup(db, calls);
    var o :| Run(db, calls).dedup[key] == OutcomeToJson(o);
    assert "kind" in OutcomeToJson(o).fields;
  }

  /**
   After a call has been applied under a key, every later report under that key returns the
   first call's outcome, every later spend under it returns AlreadyApplied, and neither
   changes anything.
   */
  lemma ReplayReturnsFirst(db: Db, first: Call, between: seq<Call>, again: Call)
    requires InRange(db) && DedupInv(db)
    requires first.DoSpend? && first.key != "" && first.key !in db.dedup && Next(db, first).1 != OutOfRange
    requires again.DoSpend? && again.key == first.key
    ensures InRange(Next(db, first).0)
    ensures var now := Run(Next(db, first).0, between);
      Next(now, again) == (now, if again.who.None? then Next(db, first).1 else Reported(AlreadyApplied))
  {
    StepInRange(db, first);
    StepDedup(db, first);
    var (db', reply) := Next(db, first);
    assert db'.dedup[first.key] == OutcomeToJson(reply.outcome);
    RunDedup(db', between);
    OutcomeRoundTrip(reply.outcome);
  }

  /** The call was carried out under a key, and so uses that key up. */
  ghost predicate UsesKey(db: Db, c: Call)
    requires InRange(db)
  {
    c.DoSpend? && c.key != "" && Next(db, c).1 != OutOfRange
  }

  /** The keys of the calls carried out in a run. */
  ghost function CarriedOut(db: Db, calls: seq<Call>): set<string>
    requires InRange(db)
    decreases |calls|
  {
    if calls == [] then {}
    else
      StepInRange(db, calls[0]);
      (if UsesKey(db, calls[0]) then {calls[0].key} else {}) + CarriedOut(Next(db, calls[0]).0, calls[1..])
  }

  lemma StepRecordsKey(db: Db, c: Call)
    requires InRange(db) && DedupInv(db)
    ensures Next(db, c).0.dedup.Keys == db.dedup.Keys + if UsesKey(db, c) then {c.key} else {}
  {
  }

  /** The recorded keys are those there at the start and those of the calls carried out since. */
  lemma {:induction false} RecordedKeysExact(db: Db, calls: seq<Call>)
    requires InRange(db) && DedupInv(db)
    ensures Run(db, calls).dedup.Keys == db.dedup.Keys + CarriedOut(db, calls)
    decreases |calls|
  {
    if calls != [] {
      StepInRange(db, calls[0]);
      StepDedup(db, calls[0]);
      StepRecordsKey(db, calls[0]);
      RecordedKeysExact(Next(db, calls[0]).0, calls[1..]);
    }
  }

  /** The run without the calls whose key is among the used ones or was used earlier in the run. */
  ghost function WithoutReplays(db: Db, calls: seq<Call>, used: set<string>): seq<Call>
    requires InRange(db)
    decreases |calls|
  {
    if calls == [] then []
    else
      var c := calls[0];
      StepInRange(db, c);
      (if c.DoSpend? && c.key in used then [] else [c])
      + WithoutReplays(Next(db, c).0, calls[1..], used + if UsesKey(db, c) then {c.key} else {})
  }

  /**
   Leaving out every call that repeats a key recorded before the run or used earlier in it
   leaves the final counters, ledger, limits, breach counts and records unchanged.
   */
  lemma {:induction false} ReplaysErasable(db: Db, calls: seq<Call>)
    requires InRange(db) && DedupInv(db)
    ensures Run(db, WithoutReplays(db, calls, db.dedup.Keys)) == Run(db, calls)
    decreases |calls|
  {
    if calls != [] {
      var c, db' := calls[0], Next(db, calls[0]).0;
      StepInRange(db, c);
      StepDedup(db, c);
      StepRecordsKey(db, c);
      ReplaysErasable(db', calls[1..]);
      var rest := WithoutReplays(db', calls[1..], db'.dedup.Keys);
      if c.DoSpend? && c.key in db.dedup.Keys {
        assert WithoutReplays(db, calls, db.dedup.Keys) == rest;
      } else {
        assert WithoutReplays(db, calls, db.dedup.Keys) == [c] + rest;
        assert ([c] + rest)[1..] == rest;
      }
    }
  }
}
