/**
 Budgets of one partition: limits, usage counters, the per-execution ledger and the
 idempotency table.  Counters are 64-bit signed columns; amounts are 64-bit unsigned.
 */
module BudgetModel {
  import opened Common

  type BudgetId = nat
  type ExecId = nat
  type Dim = string

  datatype Slot = Slot(budget: BudgetId, dim: Dim)
  datatype Entry = Entry(budget: BudgetId, exec: ExecId, dim: Dim)

  /** Amounts to add, in the ascending order of their dimension names, each name once. */
  datatype Delta = Delta(dim: Dim, amount: u64)

  datatype Policy = Policy(hard: map<Dim, u64>, soft: map<Dim, u64>, breaches: nat, softBreaches: nat, lastBreach: Option<Dim>)

  datatype Db = Db(
    policies: map<BudgetId, Policy>,
    usage: map<Slot, int>,
    ledger: map<Entry, int>,
    dedup: map<string, Json>)

  datatype Outcome =
    | Ok
    | AlreadyApplied
    | SoftBreach(dim: Dim, current: u64, limit: u64)
    | HardBreach(dim: Dim, current: u64, limit: u64)

  datatype Reply =
    | Reported(outcome: Outcome)
    | Finished
    | AlreadySatisfied
    | OutOfRange
    | Corrupt
    | NotFound
    | LengthMismatch

  predicate InI64(n: int) { -TWO_63 <= n < TWO_63 }

  predicate Distinct(ds: seq<Delta>) {
    forall i, j :: 0 <= i < j < |ds| ==> ds[i].dim != ds[j].dim
  }

  /** Every stored counter fits its column. */
  predicate InRange(db: Db) {
    && (forall s :: s in db.usage ==> InI64(db.usage[s]))
    && (forall e :: e in db.ledger ==> InI64(db.ledger[e]))
  }

  function Cur(usage: map<Slot, int>, s: Slot): int { if s in usage then usage[s] else 0 }

  function Owed(ledger: map<Entry, int>, e: Entry): int { if e in ledger then ledger[e] else 0 }

  // ---------------------------------------------------------------------
  // Idempotency record

  function OutcomeToJson(o: Outcome): Json {
    match o
    case Ok => Object(map["kind" := Text("Ok")])
    case AlreadyApplied => Object(map["kind" := Text("AlreadyApplied")])
    case SoftBreach(dim, current, limit) =>
      Object(map["kind" := Text("SoftBreach"), "dimension" := Text(dim),
                 "current_usage" := Number(current), "soft_limit" := Number(limit)])
    case HardBreach(dim, current, limit) =>
      Object(map["kind" := Text("HardBreach"), "dimension" := Text(dim),
                 "current_usage" := Number(current), "hard_limit" := Number(limit)])
  }

  function Or<T>(o: Option<T>, default: T): T { if o.Some? then o.value else default }

  function OutcomeFromJson(v: Json): Reply {
    match v.GetText("kind")
    case Some("Ok") => Reported(Ok)
    case Some("AlreadyApplied") => Reported(AlreadyApplied)
    case Some("SoftBreach") =>
      Reported(SoftBreach(Or(v.GetText("dimension"), ""), Or(v.GetU64("current_usage"), 0), Or(v.GetU64("soft_limit"), 0)))
    case Some("HardBreach") =>
      Reported(HardBreach(Or(v.GetText("dimension"), ""), Or(v.GetU64("current_usage"), 0), Or(v.GetU64("hard_limit"), 0)))
    case _ => Corrupt
  }

  /** What a repeated report answers; the empty object is the placeholder of an unfinished call. */
  function Replay(v: Json): Reply {
    if v == Object(map[]) then Reported(AlreadyApplied) else OutcomeFromJson(v)
  }

  lemma OutcomeRoundTrip(o: Outcome)
    ensures OutcomeFromJson(OutcomeToJson(o)) == Reported(o)
    ensures Replay(OutcomeToJson(o)) == Reported(o)
  {
  }

  /** Any JSON is read: an unknown kind is corrupt, and a missing field reads as empty or zero. */
  lemma OutcomeReadTolerant(v: Json)
    ensures OutcomeFromJson(v) == Corrupt <==>
      v.GetText("kind") !in {Some("Ok"), Some("AlreadyApplied"), Some("SoftBreach"), Some("HardBreach")}
    ensures forall o :: OutcomeFromJson(v) == Reported(o) && (o.SoftBreach? || o.HardBreach?) ==>
      && o.dim == (match v.GetText("dimension") case Some(d) => d case None => "")
      && o.current == (match v.GetU64("current_usage") case Some(n) => n case None => 0)
      && o.limit == match v.GetU64(if o.SoftBreach? then "soft_limit" else "hard_limit") case Some(n) => n case None => 0
  {
  }

  // ---------------------------------------------------------------------
  // Check, then apply

  /** The counter read as unsigned, plus the amount, stopping at the largest 64-bit number. */
  function NewValue(cur: int, amount: u64): u64
    requires InI64(cur)
  {
    if AsU64(cur) + amount < TWO_64 then AsU64(cur) + amount else TWO_64 - 1
  }

  /** The projected value passes a limit that is set and not zero. */
  predicate Passes(limits: map<Dim, u64>, dim: Dim, value: u64) {
    dim in limits && limits[dim] > 0 && value > limits[dim]
  }

  predicate Exceeds(db: Db, b: BudgetId, limits: map<Dim, u64>, d: Delta)
    requires InRange(db)
  {
    Passes(limits, d.dim, NewValue(Cur(db.usage, Slot(b, d.dim)), d.amount))
  }

  /** The first position at or after `i` whose projected value passes its limit, or the end. */
  function FirstOver(db: Db, b: BudgetId, limits: map<Dim, u64>, ds: seq<Delta>, i: nat): (j: nat)
    requires InRange(db) && i <= |ds|
    ensures i <= j <= |ds|
    ensures j < |ds| ==> Exceeds(db, b, limits, ds[j])
    ensures forall k :: i <= k < j ==> !Exceeds(db, b, limits, ds[k])
    decreases |ds| - i
  {
    if i == |ds| || Exceeds(db, b, limits, ds[i]) then i else FirstOver(db, b, limits, ds, i + 1)
  }

  ghost function Slots(b: BudgetId, ds: seq<Delta>): set<Slot> {
    set i | 0 <= i < |ds| :: Slot(b, ds[i].dim)
  }

  ghost function Entries(b: BudgetId, x: ExecId, ds: seq<Delta>): set<Entry> {
    set i | 0 <= i < |ds| :: Entry(b, x, ds[i].dim)
  }

  /** The signed amount the deltas add to a dimension. */
  ghost function Added(ds: seq<Delta>, dim: Dim): int {
    if i :| 0 <= i < |ds| && ds[i].dim == dim then AsI64(ds[i].amount) else 0
  }

  lemma AddedAt(ds: seq<Delta>, i: nat)
    requires Distinct(ds) && i < |ds|
    ensures Added(ds, ds[i].dim) == AsI64(ds[i].amount)
  {
  }

  /** Missing counter rows appear with value 0. */
  ghost function Seeded(usage: map<Slot, int>, b: BudgetId, ds: seq<Delta>): map<Slot, int> {
    map s | s in usage.Keys + Slots(b, ds) :: Cur(usage, s)
  }

  ghost function Raised(usage: map<Slot, int>, b: BudgetId, ds: seq<Delta>): map<Slot, int> {
    map s | s in usage.Keys + Slots(b, ds) :: Cur(usage, s) + if s.budget == b then Added(ds, s.dim) else 0
  }

  ghost function Booked(ledger: map<Entry, int>, b: BudgetId, x: ExecId, ds: seq<Delta>): map<Entry, int> {
    map e | e in ledger.Keys + Entries(b, x, ds) ::
      Owed(ledger, e) + if e.budget == b && e.exec == x then Added(ds, e.dim) else 0
  }

  ghost predicate Fits<K>(m: map<K, int>) {
    forall k :: k in m ==> InI64(m[k])
  }

  const NO_LIMITS := Policy(map[], map[], 0, 0, None)

  function PolicyOf(db: Db, b: BudgetId): Policy { if b in db.policies then db.policies[b] else NO_LIMITS }

  function Remember(db: Db, key: string, o: Outcome): map<string, Json> {
    if key == "" then db.dedup else db.dedup[key := OutcomeToJson(o)]
  }

  function NoteBreach(db: Db, b: BudgetId, dim: Dim): map<BudgetId, Policy> {
    if b in db.policies then
      db.policies[b := db.policies[b].(breaches := db.policies[b].breaches + 1, lastBreach := Some(dim))]
    else db.policies
  }

  function NoteSoftBreach(db: Db, b: BudgetId): map<BudgetId, Policy> {
    if b in db.policies then db.policies[b := db.policies[b].(softBreaches := db.policies[b].softBreaches + 1)]
    else db.policies
  }

  predicate Repeats(db: Db, key: string) { key != "" && key in db.dedup }

  /**
   report_usage (`who` is None) and record_spend (`who` is the execution): a hard breach on
   any dimension applies nothing, otherwise all amounts land, in the ledger too for a spend.
   An amount that overflows a column aborts the whole transaction.
   */
  ghost function Spend(db: Db, b: BudgetId, ds: seq<Delta>, key: string, who: Option<ExecId>): (Db, Reply)
    requires InRange(db)
  {
    if Repeats(db, key) then (db, if who.None? then Replay(db.dedup[key]) else Reported(AlreadyApplied))
    else
      var policy := PolicyOf(db, b);
      var h := FirstOver(db, b, policy.hard, ds, 0);
      if h < |ds| then
        var o := HardBreach(ds[h].dim, AsU64(Cur(db.usage, Slot(b, ds[h].dim))), policy.hard[ds[h].dim]);
        (db.(usage := Seeded(db.usage, b, ds[..h + 1]), policies := NoteBreach(db, b, ds[h].dim),
             dedup := Remember(db, key, o)),
         Reported(o))
      else
        var usage := Raised(db.usage, b, ds);
        var ledger := if who.Some? then Booked(db.ledger, b, who.value, ds) else db.ledger;
        if !Fits(usage) || !Fits(ledger) then (db, OutOfRange)
        else
          var i := FirstOver(db, b, policy.soft, ds, 0);
          var o := if i == |ds| then Ok
                   else SoftBreach(ds[i].dim, NewValue(Cur(db.usage, Slot(b, ds[i].dim)), ds[i].amount), policy.soft[ds[i].dim]);
          (Db(if i == |ds| then db.policies else NoteSoftBreach(db, b), usage, ledger, Remember(db, key, o)),
           Reported(o))
  }

  // ---------------------------------------------------------------------
  // Release, reset, create

  function AtLeastZero(n: int): int { if n > 0 then n else 0 }

  ghost function Lowered(db: Db, b: BudgetId, x: ExecId): map<Slot, int> {
    map s | s in db.usage ::
      if s.budget == b && Entry(b, x, s.dim) in db.ledger then AtLeastZero(db.usage[s] - db.ledger[Entry(b, x, s.dim)])
      else db.usage[s]
  }

  function EntriesOf(db: Db, b: BudgetId, x: ExecId): set<Entry> {
    set e | e in db.ledger && e.budget == b && e.exec == x
  }

  /** The subtraction itself must fit the column. */
  predicate ReleaseFits(db: Db, b: BudgetId, x: ExecId) {
    forall e :: e in EntriesOf(db, b, x) && Slot(b, e.dim) in db.usage ==> InI64(db.usage[Slot(b, e.dim)] - db.ledger[e])
  }

  ghost function Release(db: Db, b: BudgetId, x: ExecId): (Db, Reply) {
    if EntriesOf(db, b, x) == {} then (db, Finished)
    else if !ReleaseFits(db, b, x) then (db, OutOfRange)
    else (db.(usage := Lowered(db, b, x), ledger := db.ledger - EntriesOf(db, b, x)), Finished)
  }

  ghost function Reset(db: Db, b: BudgetId): (Db, Reply) {
    if b !in db.policies then (db, NotFound)
    else (db.(usage := map s | s in db.usage :: if s.budget == b then 0 else db.usage[s],
              policies := db.policies[b := db.policies[b].(lastBreach := None)]),
          Finished)
  }

  /** Later duplicates of a dimension win, as in building the JSON object. */
  function LimitMap(dims: seq<Dim>, limits: seq<u64>): map<Dim, u64>
    requires |dims| == |limits|
  {
    if dims == [] then map[]
    else LimitMap(dims[..|dims| - 1], limits[..|limits| - 1])[dims[|dims| - 1] := limits[|limits| - 1]]
  }

  function Create(db: Db, b: BudgetId, dims: seq<Dim>, hard: seq<u64>, soft: seq<u64>): (Db, Reply) {
    if |dims| != |hard| || |dims| != |soft| then (db, LengthMismatch)
    else if b in db.policies then (db, AlreadySatisfied)
    else (db.(policies := db.policies[b := Policy(LimitMap(dims, hard), LimitMap(dims, soft), 0, 0, None)]), Finished)
  }

  // ---------------------------------------------------------------------
  // Runs

  datatype Call =
    | DoSpend(b: BudgetId, ds: seq<Delta>, key: string, who: Option<ExecId>)
    | DoRelease(b: BudgetId, x: ExecId)
    | DoReset(b: BudgetId)
    | DoCreate(b: BudgetId, dims: seq<Dim>, hard: seq<u64>, soft: seq<u64>)

  predicate WellFormed(c: Call) { c.DoSpend? ==> Distinct(c.ds) }

  ghost function Next(db: Db, c: Call): (Db, Reply)
    requires InRange(db)
  {
    match c
    case DoSpend(b, ds, key, who) => Spend(db, b, ds, key, who)
    case DoRelease(b, x) => Release(db, b, x)
    case DoReset(b) => Reset(db, b)
    case DoCreate(b, dims, hard, soft) => Create(db, b, dims, hard, soft)
  }

  /** Counters never leave their columns. */
  lemma StepInRange(db: Db, c: Call)
    requires InRange(db)
    ensures InRange(Next(db, c).0)
  {
  }

  ghost function Run(db: Db, calls: seq<Call>): (db': Db)
    requires InRange(db)
    ensures InRange(db')
    decreases |calls|
  {
    if calls == [] then db
    else
      StepInRange(db, calls[0]);
      Run(Next(db, calls[0]).0, calls[1..])
  }
}
