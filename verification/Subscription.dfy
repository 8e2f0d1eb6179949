/**
 Outbox subscribers: the completion stream and the lease-history stream.  The outbox is the
 sequence of all rows ever written, in event-id order; a query sees some prefix of it.
 */
module Subscription {
  import opened Common

  datatype Row = Row(id: int, exec: string, namespace: Option<string>, tag: Option<string>, kind: string, parses: bool)

  datatype Filter = Filter(namespace: Option<string>, tag: Option<(string, string)>)

  /** What the consumer receives: a row, or the notice that the connection was lost. */
  datatype Message = Event(row: Row) | Disconnected(cursor: int)

  const REPLAY_BATCH := 256

  const LEASE_KINDS := {"acquired", "renewed", "expired", "reclaimed", "revoked"}

  predicate NamespaceMatches(f: Filter, r: Row) { f.namespace.Some? ==> r.namespace == f.namespace }

  /** Completion rows store the tag as `key=value`. */
  predicate CompletionPasses(f: Filter, r: Row) {
    NamespaceMatches(f, r) && (f.tag.Some? ==> r.tag == Some(f.tag.value.0 + "=" + f.tag.value.1))
  }

  /** Lease rows store the tag's value only; rows of unknown kind or with no usable id are passed over. */
  predicate LeasePasses(f: Filter, r: Row) {
    NamespaceMatches(f, r) && (f.tag.Some? ==> r.tag == Some(f.tag.value.1)) && r.parses && r.kind in LEASE_KINDS
  }

  /** Without a filter every completion row passes, and every lease row that can be read. */
  lemma NoFilterPasses(r: Row)
    ensures CompletionPasses(Filter(None, None), r)
    ensures LeasePasses(Filter(None, None), r) <==> r.parses && r.kind in LEASE_KINDS
  {
  }

  /**
   With a tag filter the two streams want different rows: one the whole `key=value`, the
   other the bare value, so no row passes both.
   */
  lemma TagsReadDifferently(f: Filter, r: Row)
    requires f.tag.Some?
    ensures CompletionPasses(f, r) ==> r.tag.Some? && |r.tag.value| == |f.tag.value.0| + 1 + |f.tag.value.1|
    ensures CompletionPasses(f, r) ==> f.tag.value.0 + "=" <= r.tag.value && r.tag.value[|f.tag.value.0| + 1..] == f.tag.value.1
    ensures LeasePasses(f, r) ==> r.tag == Some(f.tag.value.1)
    ensures !(CompletionPasses(f, r) && LeasePasses(f, r))
  {
    var head := f.tag.value.0 + "=";
    assert (head + f.tag.value.1)[|head|..] == f.tag.value.1;
  }

  /** A row of another namespace, or of none, passes no filter that names one. */
  lemma OtherNamespace(f: Filter, r: Row)
    requires f.namespace.Some?
    ensures CompletionPasses(f, r) || LeasePasses(f, r) ==> r.namespace == f.namespace
    ensures f.tag.None? && r.namespace == f.namespace ==>
      CompletionPasses(f, r) && (LeasePasses(f, r) <==> r.parses && r.kind in LEASE_KINDS)
  {
  }

  // ---------------------------------------------------------------------
  // The outbox

  /** Event ids rise along the outbox. */
  ghost predicate Ordered(log: seq<Row>) {
    |log| >= 2 ==> log[|log| - 2].id < log[|log| - 1].id && Ordered(log[..|log| - 1])
  }

  lemma {:induction false} IdsRise(log: seq<Row>, i: nat, j: nat)
    requires Ordered(log) && i < j < |log|
    ensures log[i].id < log[j].id
    decreases |log|
  {
    var init := log[..|log| - 1];
    if j < |log| - 1 { IdsRise(init, i, j); } else if i < j - 1 { IdsRise(init, i, j - 1); }
  }

  lemma {:induction false} PrefixOrdered(log: seq<Row>, n: nat)
    requires Ordered(log) && n <= |log|
    ensures Ordered(log[..n])
    decreases |log|
  {
    if n < |log| {
      var init := log[..|log| - 1];
      PrefixOrdered(init, n);
      assert init[..n] == log[..n];
    } else {
      assert log[..n] == log;
    }
  }

  /** How many leading rows have an id up to the cursor. */
  function Cut(log: seq<Row>, cursor: int): (k: nat)
    ensures k <= |log| && (k < |log| ==> log[k].id > cursor)
    ensures forall i :: 0 <= i < k ==> log[i].id <= cursor
  {
    if log == [] || log[0].id > cursor then 0
    else
      var k := Cut(log[1..], cursor);
      assert forall i :: 1 <= i < k + 1 ==> log[i] == log[1..][i - 1];
      k + 1
  }

  /** Position `k` separates the ids up to the cursor from those above it. */
  ghost predicate IsCut(log: seq<Row>, cursor: int, k: nat) {
    k <= |log| && (k < |log| ==> log[k].id > cursor) && (k > 0 ==> log[k - 1].id <= cursor)
  }

  lemma CutIs(log: seq<Row>, cursor: int, k: nat)
    requires Ordered(log) && IsCut(log, cursor, k)
    ensures Cut(log, cursor) == k
  {
    if Cut(log, cursor) < k - 1 { IdsRise(log, Cut(log, cursor), k - 1); }
  }

  lemma CutAfter(log: seq<Row>, k: nat)
    requires Ordered(log) && k < |log|
    ensures IsCut(log, log[k].id, k + 1)
  {
  }

  lemma CutOfPrefix(log: seq<Row>, cursor: int, n: nat)
    requires Ordered(log) && n <= |log|
    ensures Cut(log[..n], cursor) == if Cut(log, cursor) < n then Cut(log, cursor) else n
  {
    PrefixOrdered(log, n);
    CutIs(log[..n], cursor, if Cut(log, cursor) < n then Cut(log, cursor) else n);
  }

  /** One query: the rows above the cursor in id order, at most a batch of them. */
  function Page(visible: seq<Row>, cursor: int): seq<Row> { Capped(visible[Cut(visible, cursor)..]) }

  function Capped(rows: seq<Row>): seq<Row> { if |rows| > REPLAY_BATCH then rows[..REPLAY_BATCH] else rows }

  /** The largest visible event id, or 0 when there is none. */
  function Newest(log: seq<Row>, visible: nat): int
    requires visible <= |log|
  {
    if visible == 0 then 0 else log[visible - 1].id
  }

  /** Tailing starts right after the rows visible at subscribe time. */
  lemma TailStart(log: seq<Row>, visible: nat)
    requires Ordered(log) && visible <= |log| && (log != [] ==> log[0].id > 0)
    ensures IsCut(log, Newest(log, visible), visible)
  {
  }

  /** The wanted rows, in order. */
  function Select(rows: seq<Row>, wanted: Row -> bool): seq<Row> {
    if rows == [] then []
    else (if wanted(rows[0]) then [rows[0]] else []) + Select(rows[1..], wanted)
  }

  lemma {:induction false} SelectJoin(a: seq<Row>, b: seq<Row>, wanted: Row -> bool)
    ensures Select(a + b, wanted) == Select(a, wanted) + Select(b, wanted)
    decreases |a|
  {
    if a == [] {
      assert a + b == b;
    } else {
      var head := if wanted(a[0]) then [a[0]] else [];
      assert (a + b)[0] == a[0] && (a + b)[1..] == a[1..] + b;
      SelectJoin(a[1..], b, wanted);
      Regroup(head, Select(a[1..], wanted), Select(b, wanted));
    }
  }

  lemma SelectOne(row: Row, wanted: Row -> bool)
    ensures Select([row], wanted) == if wanted(row) then [row] else []
  {
  }

  // ---------------------------------------------------------------------
  // The subscriber

  /** What one query meets: a failure, or the first `upto` rows of the outbox. */
  datatype Look = Failed | Sees(upto: nat)

  /** What the loop meets: each replay comes with the queries it will make. */
  datatype Signal = ConnectFails | Connects(looks: seq<Look>) | Notified(looks: seq<Look>) | ReceiveFails | Dropped

  datatype Config = Config(log: seq<Row>, wanted: Row -> bool, notices: bool)

  /** `room` is the number of messages the consumer will still take before it drops the stream. */
  datatype State = State(lastSeen: int, sent: seq<Message>, room: nat, listening: bool, ended: bool)

  function View(log: seq<Row>, look: Look): seq<Row>
    requires look.Sees?
  {
    if look.upto <= |log| then log[..look.upto] else log
  }

  function Push(s: State, m: Message): State { s.(sent := s.sent + [m], room := if s.room > 0 then s.room - 1 else 0) }

  /** The cursor moves first; then a wanted row is sent, unless the consumer is gone. */
  function Forward(c: Config, s: State, row: Row): State {
    var next := s.(lastSeen := row.id);
    if !c.wanted(row) then next
    else if s.room == 0 then next.(ended := true)
    else Push(next, Event(row))
  }

  function ForwardFrom(c: Config, s: State, rows: seq<Row>, i: nat): State
    requires i <= |rows|
    decreases |rows| - i
  {
    if i == |rows| || s.ended then s else ForwardFrom(c, Forward(c, s, rows[i]), rows, i + 1)
  }

  /** Page by page until a page is empty, a query fails or the consumer is gone. */
  function ReplayFrom(c: Config, s: State, looks: seq<Look>, n: nat): State
    requires n <= |looks|
    decreases |looks| - n
  {
    if s.ended || n == |looks| || looks[n].Failed? then s
    else
      var page := Page(View(c.log, looks[n]), s.lastSeen);
      if page == [] then s else ReplayFrom(c, ForwardFrom(c, s, page, 0), looks, n + 1)
  }

  /** The lease stream tells the consumer where it stood; a failed send is ignored. */
  function Disconnect(c: Config, s: State): State {
    (if c.notices && s.room > 0 then Push(s, Disconnected(s.lastSeen)) else s).(listening := false)
  }

  function Turn(c: Config, s: State, signal: Signal): State {
    if s.ended then s
    else
      match signal
      case Dropped => s.(ended := true)
      case ConnectFails => s
      case Connects(looks) => if s.listening then s else ReplayFrom(c, s, looks, 0).(listening := true)
      case Notified(looks) => if s.listening then ReplayFrom(c, s, looks, 0) else s
      case ReceiveFails => if s.listening then Disconnect(c, s) else s
  }

  /** The loop over a finite run of signals. */
  function RunFrom(c: Config, s: State, script: seq<Signal>, i: nat): State
    requires i <= |script|
    decreases |script| - i
  {
    if i == |script| then s else RunFrom(c, Turn(c, s, script[i]), script, i + 1)
  }

  // ---------------------------------------------------------------------
  // The same, in place

  class Subscriber {
    const config: Config
    var lastSeen: int
    var sent: seq<Message>
    var room: nat
    var listening: bool
    var ended: bool

    function Value(): State
      reads this
    {
      State(lastSeen, sent, room, listening, ended)
    }

    /** Completions tail from the newest row visible at subscribe time. */
    constructor Completions(log: seq<Row>, visible: nat, filter: Filter, room: nat)
      requires visible <= |log|
      ensures Value() == State(Newest(log, visible), [], room, false, false) && config.log == log && !config.notices
      ensures forall r :: config.wanted(r) == CompletionPasses(filter, r)
    {
      config := Config(log, r => CompletionPasses(filter, r), false);
      lastSeen, sent, this.room, listening, ended := Newest(log, visible), [], room, false, false;
    }

    /** Lease history starts strictly after the caller's cursor, or without one at the newest visible row. */
    constructor Leases(log: seq<Row>, visible: nat, cursor: Option<int>, filter: Filter, room: nat)
      requires visible <= |log|
      ensures Value() == State(if cursor.Some? then cursor.value else Newest(log, visible), [], room, false, false)
      ensures config.log == log && config.notices && forall r :: config.wanted(r) == LeasePasses(filter, r)
    {
      config := Config(log, r => LeasePasses(filter, r), true);
      lastSeen := if cursor.Some? then cursor.value else Newest(log, visible);
      sent, this.room, listening, ended := [], room, false, false;
    }

    method Send(m: Message) returns (ok: bool)
      modifies this`sent, this`room
      ensures ok == (old(room) > 0)
      ensures Value() == if ok then Push(old(Value()), m) else old(Value())
    {
      ok := room > 0;
      if ok { sent, room := sent + [m], room - 1; }
    }

    method ForwardPage(rows: seq<Row>)
      requires !ended
      modifies this
      ensures Value() == ForwardFrom(config, old(Value()), rows, 0)
    {
      for i := 0 to |rows|
        invariant !ended && ForwardFrom(config, old(Value()), rows, 0) == ForwardFrom(config, Value(), rows, i)
      {
        lastSeen := rows[i].id;
        if config.wanted(rows[i]) {
          var ok := Send(Event(rows[i]));
          if !ok {
            ended := true;
            return;
          }
        }
      }
    }

    method Replay(looks: seq<Look>)
      requires !ended
      modifies this
      ensures Value() == ReplayFrom(config, old(Value()), looks, 0)
    {
      var n := 0;
      while n < |looks| && looks[n].Sees?
        invariant n <= |looks| && !ended && ReplayFrom(config, old(Value()), looks, 0) == ReplayFrom(config, Value(), looks, n)
      {
        var rows := Page(View(config.log, looks[n]), lastSeen);
        if rows == [] { return; }
        ForwardPage(rows);
        if ended { return; }
        n := n + 1;
      }
    }

    method OnSignal(signal: Signal)
      requires !ended
      modifies this
      ensures Value() == Turn(config, old(Value()), signal)
    {
      match signal
      case Dropped => ended := true;
      case ConnectFails =>
      case Connects(looks) =>
        if !listening {
          Replay(looks);
          listening := true;
        }
      case Notified(looks) =>
        if listening { Replay(looks); }
      case ReceiveFails =>
        if listening {
          if config.notices { var _ := Send(Disconnected(lastSeen)); }
          listening := false;
        }
    }

    method SubscriberLoop(script: seq<Signal>)
      requires !ended
      modifies this
      ensures Value() == RunFrom(config, old(Value()), script, 0)
    {
      for i := 0 to |script|
        invariant !ended && RunFrom(config, old(Value()), script, 0) == RunFrom(config, Value(), script, i)
      {
        OnSignal(script[i]);
        if ended {
          EndedStays(config, Value(), script, i + 1);
          return;
        }
      }
    }
  }

  lemma {:induction false} EndedStays(c: Config, s: State, script: seq<Signal>, i: nat)
    requires s.ended && i <= |script|
    ensures RunFrom(c, s, script, i) == s
    decreases |script| - i
  {
    if i < |script| { EndedStays(c, s, script, i + 1); }
  }
}
