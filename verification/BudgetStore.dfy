/** The budget transactions as they run on mutable tables, each proved against `BudgetModel`. */
module BudgetStore {
  import opened Common
  import BM = BudgetModel
  import BP = BudgetProofs
  import Means = BudgetMeaning

  /** One more delta changes what is added to its own dimension only. */
  lemma AddedSnoc(ds: seq<BM.Delta>, i: nat, dim: BM.Dim)
    requires BM.Distinct(ds) && i < |ds|
    ensures BM.Added(ds[..i + 1], dim)
         == if dim == ds[i].dim then AsI64(ds[i].amount) else BM.Added(ds[..i], dim)
    ensures BM.Added(ds[..i], ds[i].dim) == 0
  {
  }

  lemma EntriesSnoc(b: BM.BudgetId, x: BM.ExecId, ds: seq<BM.Delta>, i: nat)
    requires i < |ds|
    ensures BM.Entries(b, x, ds[..i + 1]) == BM.Entries(b, x, ds[..i]) + {BM.Entry(b, x, ds[i].dim)}
  {
  }

  lemma SeedOne(usage: map<BM.Slot, int>, b: BM.BudgetId, ds: seq<BM.Delta>, i: nat)
    requires i < |ds|
    ensures var s, m := BM.Slot(b, ds[i].dim), BM.Seeded(usage, b, ds[..i]);
      && BM.Seeded(usage, b, ds[..i + 1]) == (if s in m then m else m[s := 0])
      && BM.Cur(m, s) == BM.Cur(usage, s)
  {
  }

  /** The counters after the first `i` deltas have been added. */
  ghost function Risen(usage: map<BM.Slot, int>, b: BM.BudgetId, ds: seq<BM.Delta>, i: nat): map<BM.Slot, int>
    requires i <= |ds|
  {
    map s | s in usage.Keys + BM.Slots(b, ds) :: BM.Cur(usage, s) + if s.budget == b then BM.Added(ds[..i], s.dim) else 0
  }

  lemma RiseOne(usage: map<BM.Slot, int>, b: BM.BudgetId, ds: seq<BM.Delta>, i: nat)
    requires BM.Distinct(ds) && i < |ds|
    ensures var s, m := BM.Slot(b, ds[i].dim), Risen(usage, b, ds, i);
      && s in m && m[s] == BM.Cur(usage, s)
      && Risen(usage, b, ds, i + 1) == m[s := m[s] + AsI64(ds[i].amount)]
      && Risen(usage, b, ds, i + 1)[s] == BM.Raised(usage, b, ds)[s]
  {
    var s, m, m' := BM.Slot(b, ds[i].dim), Risen(usage, b, ds, i), Risen(usage, b, ds, i + 1);
    assert s in BM.Slots(b, ds);
    AddedSnoc(ds, i, s.dim);
    BM.AddedAt(ds, i);
    forall t | t in m ensures m'[t] == if t == s then m[s] + AsI64(ds[i].amount) else m[t] {
      AddedSnoc(ds, i, t.dim);
    }
  }

  lemma PutIs<K>(m: map<K, int>, k: K, n: int, m': map<K, int>)
    requires m'.Keys == m.Keys + {k} && m'[k] == n && forall j :: j in m && j != k ==> m'[j] == m[j]
    ensures m' == m[k := n]
  {
  }

  lemma BookedRow(ledger: map<BM.Entry, int>, b: BM.BudgetId, x: BM.ExecId, ds: seq<BM.Delta>, i: nat, f: BM.Entry)
    requires BM.Distinct(ds) && i < |ds|
    ensures var m, m' := BM.Booked(ledger, b, x, ds[..i]), BM.Booked(ledger, b, x, ds[..i + 1]);
      if f == BM.Entry(b, x, ds[i].dim)
      then f in m' && m'[f] == BM.Owed(ledger, f) + AsI64(ds[i].amount) && BM.Owed(m, f) == BM.Owed(ledger, f)
      else (f in m' <==> f in m) && (f in m ==> m'[f] == m[f])
  {
    EntriesSnoc(b, x, ds, i);
    AddedSnoc(ds, i, f.dim);
  }

  lemma BookOne(ledger: map<BM.Entry, int>, b: BM.BudgetId, x: BM.ExecId, ds: seq<BM.Delta>, i: nat)
    requires BM.Distinct(ds) && i < |ds|
    ensures var e, m, full := BM.Entry(b, x, ds[i].dim), BM.Booked(ledger, b, x, ds[..i]), BM.Booked(ledger, b, x, ds);
      && BM.Booked(ledger, b, x, ds[..i + 1]) == m[e := BM.Owed(m, e) + AsI64(ds[i].amount)]
      && e in full && full[e] == BM.Owed(m, e) + AsI64(ds[i].amount)
  {
    var e := BM.Entry(b, x, ds[i].dim);
    var m, m' := BM.Booked(ledger, b, x, ds[..i]), BM.Booked(ledger, b, x, ds[..i + 1]);
    EntriesSnoc(b, x, ds, i);
    BookedRow(ledger, b, x, ds, i, e);
    forall f | f in m && f != e ensures m'[f] == m[f] { BookedRow(ledger, b, x, ds, i, f); }
    PutIs(m, e, BM.Owed(m, e) + AsI64(ds[i].amount), m');
    BM.AddedAt(ds, i);
    assert e in BM.Entries(b, x, ds);
  }

  ghost function BookedBy(ledger: map<BM.Entry, int>, b: BM.BudgetId, who: Option<BM.ExecId>, ds: seq<BM.Delta>): map<BM.Entry, int> {
    if who.Some? then BM.Booked(ledger, b, who.value, ds) else ledger
  }

  ghost predicate AllFit(db: BM.Db, b: BM.BudgetId, ds: seq<BM.Delta>, who: Option<BM.ExecId>) {
    BM.Fits(BM.Raised(db.usage, b, ds)) && BM.Fits(BookedBy(db.ledger, b, who, ds))
  }

  /** The working tables after `i` deltas, none of which overflowed its column. */
  ghost predicate Applied(db: BM.Db, b: BM.BudgetId, ds: seq<BM.Delta>, who: Option<BM.ExecId>, i: nat,
                          raised: map<BM.Slot, int>, booked: map<BM.Entry, int>)
    requires i <= |ds|
  {
    && RaisedTo(db.usage, b, ds, i, raised)
    && (if who.Some? then BookedTo(db.ledger, b, who.value, ds, i, booked) else booked == db.ledger && BM.Fits(booked))
  }

  /** Writing one more row keeps a table in range exactly when the new value is. */
  lemma FitsPut<K>(m: map<K, int>, k: K, n: int, m': map<K, int>, full: map<K, int>)
    requires BM.Fits(m) && m' == m[k := n] && k in full && full[k] == n
    ensures if BM.InI64(n) then BM.Fits(m') else !BM.Fits(full)
  {
  }

  ghost predicate RaisedTo(usage: map<BM.Slot, int>, b: BM.BudgetId, ds: seq<BM.Delta>, i: nat, raised: map<BM.Slot, int>)
    requires i <= |ds|
  {
    raised == Risen(usage, b, ds, i) && BM.Fits(raised)
  }

  ghost predicate BookedTo(ledger: map<BM.Entry, int>, b: BM.BudgetId, x: BM.ExecId, ds: seq<BM.Delta>, i: nat, booked: map<BM.Entry, int>)
    requires i <= |ds|
  {
    booked == BM.Booked(ledger, b, x, ds[..i]) && BM.Fits(booked)
  }

  /** Raises one counter; false when it overflows its column. */
  method RaiseRow(ghost usage: map<BM.Slot, int>, b: BM.BudgetId, ds: seq<BM.Delta>, i: nat, raised: map<BM.Slot, int>)
    returns (fits: bool, raised': map<BM.Slot, int>)
    requires BM.Distinct(ds) && i < |ds| && RaisedTo(usage, b, ds, i, raised)
    ensures if fits then RaisedTo(usage, b, ds, i + 1, raised') else !BM.Fits(BM.Raised(usage, b, ds))
  {
    var s := BM.Slot(b, ds[i].dim);
    RiseOne(usage, b, ds, i);
    var n := raised[s] + AsI64(ds[i].amount);
    fits, raised' := BM.InI64(n), raised[s := n];
    FitsPut(raised, s, n, raised', BM.Raised(usage, b, ds));
  }

  /** Adds to one ledger row, inserting it when missing; false when it overflows its column. */
  method BookRow(ghost ledger: map<BM.Entry, int>, b: BM.BudgetId, x: BM.ExecId, ds: seq<BM.Delta>, i: nat, booked: map<BM.Entry, int>)
    returns (fits: bool, booked': map<BM.Entry, int>)
    requires BM.Distinct(ds) && i < |ds| && BookedTo(ledger, b, x, ds, i, booked)
    ensures if fits then BookedTo(ledger, b, x, ds, i + 1, booked') else !BM.Fits(BM.Booked(ledger, b, x, ds))
  {
    var e := BM.Entry(b, x, ds[i].dim);
    BookOne(ledger, b, x, ds, i);
    var n := BM.Owed(booked, e) + AsI64(ds[i].amount);
    fits, booked' := BM.InI64(n), booked[e := n];
    FitsPut(booked, e, n, booked', BM.Booked(ledger, b, x, ds));
  }

  lemma AppliedAll(db: BM.Db, b: BM.BudgetId, ds: seq<BM.Delta>, who: Option<BM.ExecId>,
                   raised: map<BM.Slot, int>, booked: map<BM.Entry, int>)
    requires Applied(db, b, ds, who, |ds|, raised, booked)
    ensures raised == BM.Raised(db.usage, b, ds) && booked == BookedBy(db.ledger, b, who, ds) && AllFit(db, b, ds, who)
  {
    assert ds[..|ds|] == ds;
  }

  lemma AppliedNone(db: BM.Db, b: BM.BudgetId, ds: seq<BM.Delta>, who: Option<BM.ExecId>)
    requires BM.InRange(db)
    ensures Applied(db, b, ds, who, 0, BM.Seeded(db.usage, b, ds), db.ledger)
  {
  }

  /** The projected values of the first `n` dimensions. */
  ghost predicate Projects(usage: map<BM.Slot, int>, b: BM.BudgetId, ds: seq<BM.Delta>, n: nat, projected: map<BM.Dim, u64>)
    requires BM.Fits(usage) && n <= |ds|
  {
    forall k :: 0 <= k < n ==>
      && ds[k].dim in projected
      && projected[ds[k].dim] == BM.NewValue(BM.Cur(usage, BM.Slot(b, ds[k].dim)), ds[k].amount)
  }

  /** Some dimension of the report is over its limit, the first of them at `first`. */
  ghost predicate FirstAt(ds: seq<BM.Delta>, soft: map<BM.Dim, u64>, projected: map<BM.Dim, u64>, first: nat) {
    && first <= |ds|
    && (forall k :: 0 <= k < |ds| ==> ds[k].dim in projected)
    && (forall k :: 0 <= k < first ==> !BM.Passes(soft, ds[k].dim, projected[ds[k].dim]))
    && (first < |ds| ==> BM.Passes(soft, ds[first].dim, projected[ds[first].dim]))
  }

  /** Position `i` is the first whose projected value is above a soft limit other than zero. */
  ghost predicate SoftFirst(ds: seq<BM.Delta>, soft: map<BM.Dim, u64>, projected: map<BM.Dim, u64>, i: int) {
    && 0 <= i < |ds| && OverSoft(soft, projected, ds[i].dim)
    && forall j :: 0 <= j < i ==> !OverSoft(soft, projected, ds[j].dim)
  }

  ghost predicate OverSoft(soft: map<BM.Dim, u64>, projected: map<BM.Dim, u64>, dim: BM.Dim) {
    dim in soft && dim in projected && soft[dim] != 0 && projected[dim] > soft[dim]
  }

  /** The soft breach noted after `i` rounds. */
  ghost function BreachAt(ds: seq<BM.Delta>, soft: map<BM.Dim, u64>, projected: map<BM.Dim, u64>, first: nat, i: nat): Option<BM.Outcome>
    requires i <= |ds| && FirstAt(ds, soft, projected, first)
  {
    if first < i then Some(BM.SoftBreach(ds[first].dim, projected[ds[first].dim], soft[ds[first].dim])) else None
  }

  /** Only the first soft breach is kept. */
  function NextBreach(breach: Option<BM.Outcome>, soft: map<BM.Dim, u64>, dim: BM.Dim, value: u64): Option<BM.Outcome> {
    if breach.None? && BM.Passes(soft, dim, value) then Some(BM.SoftBreach(dim, value, soft[dim])) else breach
  }

  lemma BreachStep(ds: seq<BM.Delta>, soft: map<BM.Dim, u64>, projected: map<BM.Dim, u64>, first: nat, i: nat)
    requires i < |ds| && FirstAt(ds, soft, projected, first)
    ensures ds[i].dim in projected
    ensures BreachAt(ds, soft, projected, first, i + 1)
         == NextBreach(BreachAt(ds, soft, projected, first, i), soft, ds[i].dim, projected[ds[i].dim])
  {
  }

  lemma FirstOverIsFirst(db: BM.Db, b: BM.BudgetId, ds: seq<BM.Delta>, soft: map<BM.Dim, u64>, projected: map<BM.Dim, u64>)
    requires BM.InRange(db) && Projects(db.usage, b, ds, |ds|, projected)
    ensures FirstAt(ds, soft, projected, BM.FirstOver(db, b, soft, ds, 0))
  {
  }

  /** One round of the apply loop: the counter, then the ledger mirror. */
  method ApplyOne(ghost db: BM.Db, b: BM.BudgetId, ds: seq<BM.Delta>, who: Option<BM.ExecId>, i: nat,
                  raised: map<BM.Slot, int>, booked: map<BM.Entry, int>)
    returns (fits: bool, raised': map<BM.Slot, int>, booked': map<BM.Entry, int>)
    requires BM.Distinct(ds) && i < |ds| && Applied(db, b, ds, who, i, raised, booked)
    ensures if fits then Applied(db, b, ds, who, i + 1, raised', booked') else !AllFit(db, b, ds, who)
  {
    fits, raised' := RaiseRow(db.usage, b, ds, i, raised);
    booked' := booked;
    if fits && who.Some? { fits, booked' := BookRow(db.ledger, b, who.value, ds, i, booked); }
  }

  /** The apply loop: all increments, the ledger mirror, and the first soft breach. */
  method ApplyAll(ghost db: BM.Db, ghost first: nat, b: BM.BudgetId, ds: seq<BM.Delta>, soft: map<BM.Dim, u64>,
                  who: Option<BM.ExecId>, seeded: map<BM.Slot, int>, ledger: map<BM.Entry, int>, projected: map<BM.Dim, u64>)
    returns (fits: bool, raised: map<BM.Slot, int>, booked: map<BM.Entry, int>, breach: Option<BM.Outcome>)
    requires BM.Distinct(ds) && Applied(db, b, ds, who, 0, seeded, ledger) && FirstAt(ds, soft, projected, first)
    ensures fits == AllFit(db, b, ds, who)
    ensures fits ==> raised == BM.Raised(db.usage, b, ds) && booked == BookedBy(db.ledger, b, who, ds)
    ensures fits ==> breach == BreachAt(ds, soft, projected, first, |ds|)
    ensures fits && breach.None? ==> forall k :: 0 <= k < |ds| ==> !OverSoft(soft, projected, ds[k].dim)
    ensures fits && breach.Some? ==> SoftFirst(ds, soft, projected, first)
    ensures fits && breach.Some? ==>
      breach.value == BM.SoftBreach(ds[first].dim, projected[ds[first].dim], soft[ds[first].dim])
  {
    raised, booked, breach := seeded, ledger, None;
    var i := 0;
    while i < |ds|
      invariant i <= |ds| && Applied(db, b, ds, who, i, raised, booked)
      invariant breach == BreachAt(ds, soft, projected, first, i)
    {
      fits, raised, booked := ApplyOne(db, b, ds, who, i, raised, booked);
      if !fits { return; }
      BreachStep(ds, soft, projected, first, i);
      breach := NextBreach(breach, soft, ds[i].dim, projected[ds[i].dim]);
      i := i + 1;
    }
    AppliedAll(db, b, ds, who, raised, booked);
    fits := true;
  }

  /** The counters after the given ledger rows of an execution have been subtracted. */
  ghost function LoweredBy(db: BM.Db, b: BM.BudgetId, x: BM.ExecId, done: set<BM.Entry>): map<BM.Slot, int>
    requires done <= BM.EntriesOf(db, b, x)
  {
    map s | s in db.usage ::
      if s.budget == b && BM.Entry(b, x, s.dim) in done then BM.AtLeastZero(db.usage[s] - db.ledger[BM.Entry(b, x, s.dim)])
      else db.usage[s]
  }

  lemma LowerOne(db: BM.Db, b: BM.BudgetId, x: BM.ExecId, done: set<BM.Entry>, e: BM.Entry)
    requires done <= BM.EntriesOf(db, b, x) && e in BM.EntriesOf(db, b, x) - done
    ensures var s, m, m' := BM.Slot(b, e.dim), LoweredBy(db, b, x, done), LoweredBy(db, b, x, done + {e});
      && (s in m <==> s in db.usage)
      && (s in m ==> m[s] == db.usage[s])
      && m' == if s in m then m[s := BM.AtLeastZero(m[s] - db.ledger[e])] else m
  {
  }

  ghost predicate RowFits(db: BM.Db, b: BM.BudgetId, e: BM.Entry)
    requires e in db.ledger
  {
    BM.Slot(b, e.dim) in db.usage ==> BM.InI64(db.usage[BM.Slot(b, e.dim)] - db.ledger[e])
  }

  ghost predicate AllDone(db: BM.Db, b: BM.BudgetId, x: BM.ExecId, done: set<BM.Entry>, lowered: map<BM.Slot, int>) {
    && done <= BM.EntriesOf(db, b, x)
    && lowered == LoweredBy(db, b, x, done)
    && forall e :: e in done ==> RowFits(db, b, e)
  }

  /** Subtracts one ledger row; false when the difference overflows. */
  method LowerRow(db: BM.Db, b: BM.BudgetId, x: BM.ExecId, e: BM.Entry, lowered: map<BM.Slot, int>, ghost done: set<BM.Entry>)
    returns (fits: bool, lowered': map<BM.Slot, int>)
    requires e in BM.EntriesOf(db, b, x) - done && AllDone(db, b, x, done, lowered)
    ensures fits == RowFits(db, b, e)
    ensures fits ==> AllDone(db, b, x, done + {e}, lowered')
  {
    var s := BM.Slot(b, e.dim);
    LowerOne(db, b, x, done, e);
    fits, lowered' := true, lowered;
    if s in lowered {
      if !BM.InI64(lowered[s] - db.ledger[e]) { return false, lowered; }
      lowered' := lowered[s := BM.AtLeastZero(lowered[s] - db.ledger[e])];
    }
  }

  /** Subtracts every ledger row of the execution from its counter, clamped at zero. */
  method LowerAll(db: BM.Db, b: BM.BudgetId, x: BM.ExecId) returns (fits: bool, lowered: map<BM.Slot, int>)
    ensures fits == BM.ReleaseFits(db, b, x)
    ensures fits ==> lowered == BM.Lowered(db, b, x)
  {
    var rest := BM.EntriesOf(db, b, x);
    ghost var done: set<BM.Entry> := {};
    fits, lowered := true, db.usage;
    while rest != {}
      invariant fits && done + rest == BM.EntriesOf(db, b, x) && done !! rest && AllDone(db, b, x, done, lowered)
      decreases rest
    {
      var e :| e in rest;
      fits, lowered := LowerRow(db, b, x, e, lowered, done);
      if !fits { return; }
      rest, done := rest - {e}, done + {e};
    }
    assert forall e :: e in BM.EntriesOf(db, b, x) ==> RowFits(db, b, e);
  }

  ghost predicate NoneOver(db: BM.Db, b: BM.BudgetId, limits: map<BM.Dim, u64>, ds: seq<BM.Delta>, h: nat)
    requires BM.InRange(db) && h <= |ds|
  {
    forall k :: 0 <= k < h ==> !BM.Exceeds(db, b, limits, ds[k])
  }

  lemma FirstOverIs(db: BM.Db, b: BM.BudgetId, limits: map<BM.Dim, u64>, ds: seq<BM.Delta>, h: nat)
    requires BM.InRange(db) && h <= |ds| && NoneOver(db, b, limits, ds, h)
    requires h < |ds| ==> BM.Exceeds(db, b, limits, ds[h])
    ensures BM.FirstOver(db, b, limits, ds, 0) == h
  {
  }

  /** The model's answer when a hard limit would be passed. */
  lemma SpendRefused(db: BM.Db, b: BM.BudgetId, ds: seq<BM.Delta>, key: string, who: Option<BM.ExecId>, h: nat)
    requires BM.InRange(db) && !BM.Repeats(db, key) && h == BM.FirstOver(db, b, BM.PolicyOf(db, b).hard, ds, 0) < |ds|
    ensures var s := BM.Slot(b, ds[h].dim);
      var o := BM.HardBreach(s.dim, AsU64(BM.Cur(db.usage, s)), BM.PolicyOf(db, b).hard[s.dim]);
      && BM.Spend(db, b, ds, key, who)
         == (db.(usage := BM.Seeded(db.usage, b, ds[..h + 1]), policies := BM.NoteBreach(db, b, s.dim),
                 dedup := BM.Remember(db, key, o)), BM.Reported(o))
      && s in BM.Seeded(db.usage, b, ds[..h + 1]) && BM.Seeded(db.usage, b, ds[..h + 1])[s] == BM.Cur(db.usage, s)
  {
  }

  /** Nothing recorded is lost, and no dimension within its limit leaves it. */
  ghost predicate Keeps(db: BM.Db, db': BM.Db) {
    BP.DedupGrows(db, db') && forall s :: BP.Safe(db, s) ==> BP.Safe(db', s)
  }

  lemma StepKeeps(db: BM.Db, c: BM.Call)
    requires BM.InRange(db) && BP.DedupInv(db) && BM.WellFormed(c)
    ensures var db' := BM.Next(db, c).0; BM.InRange(db') && BP.DedupInv(db') && Keeps(db, db')
  {
    BM.StepInRange(db, c);
    BP.StepDedup(db, c);
    forall s | BP.Safe(db, s) ensures BP.Safe(BM.Next(db, c).0, s) { BP.StepKeepsSafe(db, c, s); }
  }

  /** A record of a finished call always decodes. */
  lemma ReplayDecodes(db: BM.Db, key: string)
    requires BP.DedupInv(db)
    ensures key in db.dedup ==> BM.Replay(db.dedup[key]) != BM.Corrupt
  {
    if key in db.dedup {
      var o :| db.dedup[key] == BM.OutcomeToJson(o);
      BM.OutcomeRoundTrip(o);
    }
  }

  /** What every answer of a spend means for the caller. */
  lemma SpendKeeps(db: BM.Db, b: BM.BudgetId, ds: seq<BM.Delta>, key: string, who: Option<BM.ExecId>)
    requires BM.InRange(db) && BP.DedupInv(db) && BM.Distinct(ds)
    ensures var (db', r) := BM.Spend(db, b, ds, key, who);
      && BM.InRange(db') && BP.DedupInv(db') && Keeps(db, db') && r != BM.Corrupt
      && (key != "" && r != BM.OutOfRange ==> key in db'.dedup)
      && (if BM.Repeats(db, key) then db' == db else Means.SpendMeans(db, db', b, ds, who, r))
  {
    if !BM.Repeats(db, key) { Means.SpendDoes(db, b, ds, key, who); }
    StepKeeps(db, BM.DoSpend(b, ds, key, who));
    ReplayDecodes(db, key);
  }

  lemma ReleaseExact(db: BM.Db, b: BM.BudgetId, x: BM.ExecId)
    requires BM.InRange(db) && BM.Release(db, b, x).1 == BM.Finished
    ensures BM.EntriesOf(BM.Release(db, b, x).0, b, x) == {}
    ensures forall dim :: BP.Orderly(db, BM.Slot(b, dim)) ==>
      BM.Cur(BM.Release(db, b, x).0.usage, BM.Slot(b, dim))
      == BM.Cur(db.usage, BM.Slot(b, dim)) - BM.Owed(db.ledger, BM.Entry(b, x, dim))
  {
    forall dim | BP.Orderly(db, BM.Slot(b, dim))
      ensures BM.Cur(BM.Release(db, b, x).0.usage, BM.Slot(b, dim))
           == BM.Cur(db.usage, BM.Slot(b, dim)) - BM.Owed(db.ledger, BM.Entry(b, x, dim))
    {
      BP.ReleaseUndoesOwnSpends(db, b, x, dim);
    }
  }

  class Store {
    var policies: map<BM.BudgetId, BM.Policy>
    var usage: map<BM.Slot, int>
    var ledger: map<BM.Entry, int>
    var dedup: map<string, Json>

    constructor ()
      ensures Valid() && State() == BM.Db(map[], map[], map[], map[])
    {
      policies, usage, ledger, dedup := map[], map[], map[], map[];
    }

    function State(): BM.Db
      reads this
    {
      BM.Db(policies, usage, ledger, dedup)
    }

    /** Counters fit their columns and every record is a finished call's outcome. */
    ghost predicate Valid()
      reads this
    {
      BM.InRange(State()) && BP.DedupInv(State())
    }

    /**
     The admission loop: seeds missing counter rows and projects each value, up to and
     including the first dimension that passes its hard limit.
     */
    method CheckHard(b: BM.BudgetId, ds: seq<BM.Delta>, hard: map<BM.Dim, u64>)
      returns (h: nat, seeded: map<BM.Slot, int>, projected: map<BM.Dim, u64>)
      requires BM.InRange(State()) && BM.Distinct(ds)
      ensures h == BM.FirstOver(State(), b, hard, ds, 0)
      ensures seeded == BM.Seeded(usage, b, if h < |ds| then ds[..h + 1] else ds)
      ensures Projects(usage, b, ds, h, projected)
    {
      h, seeded, projected := 0, usage, map[];
      assert ds[..0] == [] && seeded == BM.Seeded(usage, b, ds[..0]);
      while h < |ds|
        invariant h <= |ds| && NoneOver(State(), b, hard, ds, h)
        invariant seeded == BM.Seeded(usage, b, ds[..h])
        invariant Projects(usage, b, ds, h, projected)
      {
        var s := BM.Slot(b, ds[h].dim);
        SeedOne(usage, b, ds, h);
        if s !in seeded { seeded := seeded[s := 0]; }
        var value := BM.NewValue(seeded[s], ds[h].amount);
        if BM.Passes(hard, ds[h].dim, value) {
          FirstOverIs(State(), b, hard, ds, h);
          return;
        }
        projected := projected[ds[h].dim := value];
        h := h + 1;
      }
      assert ds[..h] == ds;
      FirstOverIs(State(), b, hard, ds, h);
    }

    /** A hard breach: counts it, stores the outcome, keeps the seeded rows, adds nothing. */
    method Refuse(b: BM.BudgetId, key: string, outcome: BM.Outcome, seeded: map<BM.Slot, int>) returns (r: BM.Reply)
      requires outcome.HardBreach?
      modifies this
      ensures State() == old(State()).(usage := seeded, policies := BM.NoteBreach(old(State()), b, outcome.dim),
                                       dedup := BM.Remember(old(State()), key, outcome))
      ensures r == BM.Reported(outcome)
    {
      policies := BM.NoteBreach(State(), b, outcome.dim);
      dedup := BM.Remember(State(), key, outcome);
      usage := seeded;
      r := BM.Reported(outcome);
    }

    /** An admitted call: counts a soft breach, stores the outcome, keeps the new totals. */
    method Commit(b: BM.BudgetId, key: string, breach: Option<BM.Outcome>, raised: map<BM.Slot, int>, booked: map<BM.Entry, int>)
      returns (r: BM.Reply)
      modifies this
      ensures var outcome := if breach.Some? then breach.value else BM.Ok;
        && r == BM.Reported(outcome)
        && State() == BM.Db(if breach.Some? then BM.NoteSoftBreach(old(State()), b) else old(policies),
                            raised, booked, BM.Remember(old(State()), key, outcome))
    {
      if breach.Some? { policies := BM.NoteSoftBreach(State(), b); }
      var outcome := if breach.Some? then breach.value else BM.Ok;
      dedup := BM.Remember(State(), key, outcome);
      usage, ledger := raised, booked;
      r := BM.Reported(outcome);
    }

    /** The transaction itself: dedup, admission, application, outcome. */
    method SpendCore(b: BM.BudgetId, ds: seq<BM.Delta>, key: string, who: Option<BM.ExecId>) returns (r: BM.Reply)
      requires BM.InRange(State()) && BM.Distinct(ds)
      modifies this
      ensures (State(), r) == BM.Spend(old(State()), b, ds, key, who)
    {
      if key != "" && key in dedup {
        return if who.None? then BM.Replay(dedup[key]) else BM.Reported(BM.AlreadyApplied);
      }
      var policy := BM.PolicyOf(State(), b);
      var h, seeded, projected := CheckHard(b, ds, policy.hard);
      if h < |ds| {
        var s := BM.Slot(b, ds[h].dim);
        SpendRefused(State(), b, ds, key, who, h);
        r := Refuse(b, key, BM.HardBreach(s.dim, AsU64(seeded[s]), policy.hard[s.dim]), seeded);
        return;
      }
      ghost var first := BM.FirstOver(State(), b, policy.soft, ds, 0);
      AppliedNone(State(), b, ds, who);
      FirstOverIsFirst(State(), b, ds, policy.soft, projected);
      var fits, raised, booked, breach := ApplyAll(State(), first, b, ds, policy.soft, who, seeded, ledger, projected);
      if !fits { return BM.OutOfRange; }
      r := Commit(b, key, breach, raised, booked);
    }

    /**
     report_usage, and record_spend when `who` names the execution.  A finished call leaves its
     key recorded for good, and no dimension within its limit leaves it.
     */
    method Spend(b: BM.BudgetId, ds: seq<BM.Delta>, key: string, who: Option<BM.ExecId>) returns (r: BM.Reply)
      requires Valid() && BM.Distinct(ds)
      modifies this
      ensures (State(), r) == BM.Spend(old(State()), b, ds, key, who)
      ensures Valid() && Keeps(old(State()), State()) && r != BM.Corrupt
      ensures key != "" && r != BM.OutOfRange ==> key in dedup
      ensures if BM.Repeats(old(State()), key) then State() == old(State())
        else Means.SpendMeans(old(State()), State(), b, ds, who, r)
    {
      SpendKeeps(State(), b, ds, key, who);
      r := SpendCore(b, ds, key, who);
    }

    /**
     Subtracts every ledger row of the execution, clamped at zero, then deletes the rows.  On
     books in order the clamp is idle: the counter falls by what the execution owed.
     */
    method ReleaseBudget(b: BM.BudgetId, x: BM.ExecId) returns (r: BM.Reply)
      requires Valid()
      modifies this
      ensures (State(), r) == BM.Release(old(State()), b, x)
      ensures Valid() && Keeps(old(State()), State())
      ensures r == BM.Finished ==> BM.EntriesOf(State(), b, x) == {}
      ensures r == BM.Finished ==> forall dim :: BP.Orderly(old(State()), BM.Slot(b, dim)) ==>
        BM.Cur(usage, BM.Slot(b, dim)) == old(BM.Cur(usage, BM.Slot(b, dim))) - old(BM.Owed(ledger, BM.Entry(b, x, dim)))
    {
      ghost var db := State();
      StepKeeps(db, BM.DoRelease(b, x));
      if BM.Release(db, b, x).1 == BM.Finished { ReleaseExact(db, b, x); }
      var rows := BM.EntriesOf(State(), b, x);
      if rows == {} { return BM.Finished; }
      var fits, lowered := LowerAll(State(), b, x);
      if !fits { return BM.OutOfRange; }
      usage, ledger := lowered, ledger - rows;
      r := BM.Finished;
    }

    /** Clears the budget's counters; its books stay in order exactly where nobody owed anything. */
    method ResetBudget(b: BM.BudgetId) returns (r: BM.Reply)
      requires Valid()
      modifies this
      ensures (State(), r) == BM.Reset(old(State()), b)
      ensures Valid() && Keeps(old(State()), State())
      ensures r == BM.Finished ==> forall dim :: BP.Orderly(old(State()), BM.Slot(b, dim)) ==>
        (BP.Orderly(State(), BM.Slot(b, dim)) <==> BP.Sum(BP.Column(old(ledger), BM.Slot(b, dim))) == 0)
    {
      if b !in policies { return BM.NotFound; }
      ghost var db := State();
      StepKeeps(db, BM.DoReset(b));
      usage := map s | s in usage :: if s.budget == b then 0 else usage[s];
      policies := policies[b := policies[b].(lastBreach := None)];
      r := BM.Finished;
      forall dim | BP.Orderly(db, BM.Slot(b, dim))
        ensures BP.Orderly(State(), BM.Slot(b, dim)) <==> BP.Sum(BP.Column(db.ledger, BM.Slot(b, dim))) == 0
      {
        BP.ResetInOrderIffNothingOwed(db, BM.Slot(b, dim));
      }
    }

    /** An existing budget keeps its limits. */
    method CreateBudget(b: BM.BudgetId, dims: seq<BM.Dim>, hard: seq<u64>, soft: seq<u64>) returns (r: BM.Reply)
      requires Valid()
      modifies this
      ensures (State(), r) == BM.Create(old(State()), b, dims, hard, soft)
      ensures Valid() && Keeps(old(State()), State())
      ensures forall c :: c in old(policies) ==> c in policies && policies[c] == old(policies)[c]
    {
      StepKeeps(State(), BM.DoCreate(b, dims, hard, soft));
      if |dims| != |hard| || |dims| != |soft| { return BM.LengthMismatch; }
      var hards, softs := BuildLimits(dims, hard, soft);
      if b in policies { return BM.AlreadySatisfied; }
      policies := policies[b := BM.Policy(hards, softs, 0, 0, None)];
      r := BM.Finished;
    }
  }

  /** Both limit objects, filled dimension by dimension. */
  method BuildLimits(dims: seq<BM.Dim>, hard: seq<u64>, soft: seq<u64>)
    returns (hards: map<BM.Dim, u64>, softs: map<BM.Dim, u64>)
    requires |dims| == |hard| == |soft|
    ensures hards == BM.LimitMap(dims, hard) && softs == BM.LimitMap(dims, soft)
  {
    hards, softs := map[], map[];
    for i := 0 to |dims|
      invariant hards == BM.LimitMap(dims[..i], hard[..i]) && softs == BM.LimitMap(dims[..i], soft[..i])
    {
      assert dims[..i + 1][..i] == dims[..i] && hard[..i + 1][..i] == hard[..i] && soft[..i + 1][..i] == soft[..i];
      hards, softs := hards[dims[i] := hard[i]], softs[dims[i] := soft[i]];
    }
    assert dims[..|dims|] == dims && hard[..|dims|] == hard && soft[..|dims|] == soft;
  }
}
