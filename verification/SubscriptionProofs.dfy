/** In-order delivery without repeat or gap, exact resumption, and catching up. */
module SubscriptionProofs {
  import opened Subscription

  /** Everything a subscriber that starts at a position should ever receive. */
  function Expected(c: Config, from: nat): seq<Row>
    requires from <= |c.log|
  {
    Select(c.log[from..], c.wanted)
  }

  /** The rows among the messages. */
  function Rows(sent: seq<Message>): seq<Row> {
    if sent == [] then []
    else Rows(sent[..|sent| - 1]) + if sent[|sent| - 1].Event? then [sent[|sent| - 1].row] else []
  }

  function NoticeCount(sent: seq<Message>): nat {
    if sent == [] then 0
    else NoticeCount(sent[..|sent| - 1]) + if sent[|sent| - 1].Disconnected? then 1 else 0
  }

  /** Exactly the wanted rows between two positions were sent. */
  ghost predicate Exact(c: Config, from: nat, sent: seq<Message>, at: nat) {
    from <= at <= |c.log| && Rows(sent) == Select(c.log[from..at], c.wanted)
  }

  /** Every notice carries the cursor of exactly what was sent before it. */
  ghost predicate NoticesExact(c: Config, from: nat, sent: seq<Message>) {
    sent != [] ==>
      var before, last := sent[..|sent| - 1], sent[|sent| - 1];
      NoticesExact(c, from, before) && (last.Disconnected? ==> Exact(c, from, before, Cut(c.log, last.cursor)))
  }

  /** The subscriber stands at a position: a running one knows it by its cursor. */
  ghost predicate Tracks(c: Config, from: nat, s: State, at: nat) {
    && Ordered(c.log) && Exact(c, from, s.sent, at) && NoticesExact(c, from, s.sent)
    && (!s.ended ==> IsCut(c.log, s.lastSeen, at))
  }

  /** Nothing sent is taken back. */
  ghost predicate Extends(a: seq<Message>, b: seq<Message>) { |a| <= |b| && b[..|a|] == a }

  lemma ExtendsMore(a: seq<Message>, b: seq<Message>, c: seq<Message>)
    requires Extends(a, b) && Extends(b, c)
    ensures Extends(a, c)
  {
  }

  /** A replay only adds rows, and only a departed consumer ends it. */
  ghost predicate Replays(s: State, s': State) {
    && Extends(s.sent, s'.sent) && NoticeCount(s'.sent) == NoticeCount(s.sent)
    && s'.room <= s.room && s'.listening == s.listening && (s'.ended ==> s.ended || s'.room == 0)
  }

  lemma ReplaysMore(s: State, t: State, u: State)
    requires Replays(s, t) && Replays(t, u)
    ensures Replays(s, u)
  {
  }

  // ---------------------------------------------------------------------
  // One message

  lemma PushedRow(c: Config, from: nat, sent: seq<Message>, row: Row)
    requires NoticesExact(c, from, sent)
    ensures NoticesExact(c, from, sent + [Event(row)]) && Extends(sent, sent + [Event(row)])
    ensures Rows(sent + [Event(row)]) == Rows(sent) + [row] && NoticeCount(sent + [Event(row)]) == NoticeCount(sent)
  {
  }

  lemma PushedNotice(c: Config, from: nat, sent: seq<Message>, cursor: int)
    requires NoticesExact(c, from, sent) && Exact(c, from, sent, Cut(c.log, cursor))
    ensures NoticesExact(c, from, sent + [Disconnected(cursor)]) && Extends(sent, sent + [Disconnected(cursor)])
    ensures Rows(sent + [Disconnected(cursor)]) == Rows(sent)
    ensures NoticeCount(sent + [Disconnected(cursor)]) == NoticeCount(sent) + 1
  {
  }

  /** The row at a position is the next one due. */
  lemma RowDue(c: Config, from: nat, at: nat)
    requires from <= at < |c.log|
    ensures Select(c.log[from..at + 1], c.wanted)
         == Select(c.log[from..at], c.wanted) + if c.wanted(c.log[at]) then [c.log[at]] else []
  {
    assert c.log[from..at + 1] == c.log[from..at] + [c.log[at]];
    SelectJoin(c.log[from..at], [c.log[at]], c.wanted);
    SelectOne(c.log[at], c.wanted);
  }

  lemma ForwardTracks(c: Config, from: nat, s: State, at: nat)
    requires Tracks(c, from, s, at) && !s.ended && at < |c.log|
    ensures var s' := Forward(c, s, c.log[at]);
      Replays(s, s') && Tracks(c, from, s', if s'.ended then at else at + 1)
  {
    var row := c.log[at];
    CutAfter(c.log, at);
    RowDue(c, from, at);
    if c.wanted(row) && s.room > 0 { PushedRow(c, from, s.sent, row); }
  }

  // ---------------------------------------------------------------------
  // One page

  lemma {:induction false} PageTracks(c: Config, from: nat, s: State, at: nat, rows: seq<Row>, i: nat) returns (end: nat)
    requires at + |rows| <= |c.log| && rows == c.log[at..at + |rows|] && i <= |rows|
    requires Tracks(c, from, s, at + i) && !s.ended
    ensures var s' := ForwardFrom(c, s, rows, i);
      Replays(s, s') && Tracks(c, from, s', end) && (!s'.ended ==> end == at + |rows|)
    decreases |rows| - i
  {
    end := at + i;
    if i < |rows| {
      var next := Forward(c, s, rows[i]);
      assert rows[i] == c.log[at + i];
      ForwardTracks(c, from, s, at + i);
      if !next.ended {
        end := PageTracks(c, from, next, at, rows, i + 1);
        ReplaysMore(s, next, ForwardFrom(c, next, rows, i + 1));
      }
    }
  }

  function Batch(at: nat, n: nat): (end: nat)
    ensures at <= end <= at + 256 && (at <= n ==> end <= n)
  {
    if n <= at then at else if n - at > REPLAY_BATCH then at + REPLAY_BATCH else n
  }

  /** The position after one page from position `at`. */
  function PageEnd(log: seq<Row>, at: nat, look: Look): (end: nat)
    requires look.Sees?
    ensures at <= end && (at <= |log| ==> end <= |log|)
  {
    Batch(at, |View(log, look)|)
  }

  lemma CappedSlice(log: seq<Row>, k: nat, n: nat)
    requires k <= n <= |log|
    ensures Capped(log[..n][k..]) == log[k..Batch(k, n)]
  {
  }

  /** A page is the stretch of the outbox right after the cursor, cut at the batch size. */
  lemma PageIsNext(log: seq<Row>, look: Look, cursor: int, at: nat)
    requires Ordered(log) && look.Sees? && IsCut(log, cursor, at)
    ensures var page := Page(View(log, look), cursor);
      at + |page| == PageEnd(log, at, look) && page == log[at..at + |page|]
  {
    CutIs(log, cursor, at);
    PageAt(log, |View(log, look)|, cursor);
    assert View(log, look) == log[..|View(log, look)|];
  }

  lemma PageAt(log: seq<Row>, n: nat, cursor: int)
    requires Ordered(log) && n <= |log|
    ensures var at := Cut(log, cursor); Page(log[..n], cursor) == log[at..Batch(at, n)]
  {
    var at := Cut(log, cursor);
    CutOfPrefix(log, cursor, n);
    if at < n { CappedSlice(log, at, n); } else { CappedSlice(log, n, n); }
  }

  // ---------------------------------------------------------------------
  // One replay

  /** How far the queries from the `n`th on bring a replay at position `at`, with a consumer that stays. */
  ghost function Drain(log: seq<Row>, at: nat, looks: seq<Look>, n: nat): (end: nat)
    requires n <= |looks|
    ensures at <= end
    decreases |looks| - n
  {
    if n == |looks| || looks[n].Failed? then at
    else
      var end := PageEnd(log, at, looks[n]);
      if end == at then at else Drain(log, end, looks, n + 1)
  }

  /** Enough successful queries that see the first `m` rows bring the replay past all of them. */
  lemma {:induction false} DrainCatchesUp(log: seq<Row>, at: nat, looks: seq<Look>, n: nat, m: nat)
    requires n <= |looks| && m <= |log| && m <= at + 256 * (|looks| - n)
    requires forall i :: n <= i < |looks| ==> looks[i].Sees? && m <= looks[i].upto
    ensures m <= Drain(log, at, looks, n)
    decreases |looks| - n
  {
    if n < |looks| && at < m { DrainCatchesUp(log, PageEnd(log, at, looks[n]), looks, n + 1, m); }
  }

  /** One page: nothing when no row above the cursor is visible, else one batch further on. */
  lemma LookTracks(c: Config, from: nat, s: State, at: nat, look: Look) returns (end: nat)
    requires Tracks(c, from, s, at) && !s.ended && look.Sees?
    ensures var page := Page(View(c.log, look), s.lastSeen);
      var s' := ForwardFrom(c, s, page, 0);
      && (page == [] <==> PageEnd(c.log, at, look) == at)
      && Replays(s, s') && Tracks(c, from, s', end) && (!s'.ended ==> end == PageEnd(c.log, at, look))
  {
    PageIsNext(c.log, look, s.lastSeen, at);
    end := PageTracks(c, from, s, at, Page(View(c.log, look), s.lastSeen), 0);
  }

  lemma {:induction false} ReplayTracks(c: Config, from: nat, s: State, at: nat, looks: seq<Look>, n: nat) returns (end: nat)
    requires Tracks(c, from, s, at) && !s.ended && n <= |looks|
    ensures var s' := ReplayFrom(c, s, looks, n);
      Replays(s, s') && Tracks(c, from, s', end) && (!s'.ended ==> end == Drain(c.log, at, looks, n))
    decreases |looks| - n
  {
    end := at;
    if n < |looks| && looks[n].Sees? {
      var page := Page(View(c.log, looks[n]), s.lastSeen);
      end := LookTracks(c, from, s, at, looks[n]);
      if page != [] {
        var next := ForwardFrom(c, s, page, 0);
        if !next.ended {
          end := ReplayTracks(c, from, next, end, looks, n + 1);
          ReplaysMore(s, next, ReplayFrom(c, next, looks, n + 1));
        }
      }
    }
  }

  // ---------------------------------------------------------------------
  // Whole runs

  /** Where a run of signals leaves a subscriber whose consumer stays. */
  datatype Progress = Progress(at: nat, listening: bool, lost: nat)

  ghost function Step(log: seq<Row>, p: Progress, signal: Signal): Progress {
    match signal
    case Dropped => p
    case ConnectFails => p
    case Connects(looks) => if p.listening then p else p.(at := Drain(log, p.at, looks, 0), listening := true)
    case Notified(looks) => if p.listening then p.(at := Drain(log, p.at, looks, 0)) else p
    case ReceiveFails => if p.listening then p.(listening := false, lost := p.lost + 1) else p
  }

  ghost function Steps(log: seq<Row>, p: Progress, script: seq<Signal>, i: nat): Progress
    requires i <= |script|
    decreases |script| - i
  {
    if i == |script| then p else Steps(log, Step(log, p, script[i]), script, i + 1)
  }

  /** A running subscriber is where the run should have brought it, notices included. */
  ghost predicate OnCourse(c: Config, s: State, p: Progress, at: nat) {
    !s.ended ==>
      && at == p.at && s.listening == p.listening
      && (c.notices && s.room > 0 ==> NoticeCount(s.sent) == p.lost)
  }

  lemma DisconnectTracks(c: Config, from: nat, s: State, at: nat)
    requires Tracks(c, from, s, at) && !s.ended
    ensures var s' := Disconnect(c, s);
      && Tracks(c, from, s', at) && !s'.ended && !s'.listening && Extends(s.sent, s'.sent) && s'.room <= s.room
      && (c.notices && s.room > 0 ==> NoticeCount(s'.sent) == NoticeCount(s.sent) + 1)
  {
    CutIs(c.log, s.lastSeen, at);
    PushedNotice(c, from, s.sent, s.lastSeen);
  }

  /** Replaying as one turn of the loop. */
  lemma WakeTracks(c: Config, from: nat, s: State, at: nat, p: Progress, looks: seq<Look>) returns (end: nat)
    requires Tracks(c, from, s, at) && OnCourse(c, s, p, at) && !s.ended
    ensures var s' := ReplayFrom(c, s, looks, 0).(listening := true);
      && Tracks(c, from, s', end) && Extends(s.sent, s'.sent) && (s'.ended ==> s'.room == 0)
      && OnCourse(c, s', p.(at := Drain(c.log, p.at, looks, 0), listening := true), end)
      && ReplayFrom(c, s, looks, 0).listening == s.listening
  {
    end := ReplayTracks(c, from, s, at, looks, 0);
  }

  lemma TurnTracks(c: Config, from: nat, s: State, at: nat, p: Progress, signal: Signal) returns (end: nat)
    requires Tracks(c, from, s, at) && OnCourse(c, s, p, at) && !s.ended
    ensures var s' := Turn(c, s, signal);
      && Tracks(c, from, s', end) && OnCourse(c, s', Step(c.log, p, signal), end)
      && Extends(s.sent, s'.sent) && (s'.ended ==> s'.room == 0 || signal.Dropped?) && (signal.Dropped? ==> s' == s.(ended := true))
  {
    end := at;
    match signal
    case Connects(looks) =>
      if !s.listening { end := WakeTracks(c, from, s, at, p, looks); }
    case Notified(looks) =>
      if s.listening { end := WakeTracks(c, from, s, at, p, looks); }
    case ReceiveFails => DisconnectTracks(c, from, s, at);
    case _ =>
  }

  lemma {:induction false} RunTracks(c: Config, from: nat, s: State, at: nat, p: Progress, script: seq<Signal>, i: nat)
    returns (end: nat)
    requires Tracks(c, from, s, at) && OnCourse(c, s, p, at) && i <= |script|
    requires s.ended ==> s.room == 0 || Dropped in script
    ensures var s' := RunFrom(c, s, script, i);
      && Tracks(c, from, s', end) && OnCourse(c, s', Steps(c.log, p, script, i), end)
      && Extends(s.sent, s'.sent) && (s'.ended ==> s'.room == 0 || Dropped in script)
      && (s.ended || Dropped in script[i..] ==> s'.ended)
    decreases |script| - i
  {
    end := at;
    if i < |script| {
      if s.ended {
        EndedStays(c, s, script, i);
      } else {
        var next := Turn(c, s, script[i]);
        end := TurnTracks(c, from, s, at, p, script[i]);
        end := RunTracks(c, from, next, end, Step(c.log, p, script[i]), script, i + 1);
        ExtendsMore(s.sent, next.sent, RunFrom(c, next, script, i + 1).sent);
      }
    }
  }

  lemma ExactIsPrefix(c: Config, from: nat, sent: seq<Message>, at: nat)
    requires Exact(c, from, sent, at)
    ensures Rows(sent) <= Expected(c, from)
  {
    assert c.log[from..] == c.log[from..at] + c.log[at..];
    SelectJoin(c.log[from..at], c.log[at..], c.wanted);
  }

  ghost function Fresh(cursor: int, room: nat): State { State(cursor, [], room, false, false) }

  /**
   Delivery: over any run of connection failures, wake-ups, query failures, lost connections
   and reconnects, what a new subscriber has received is a prefix of the wanted rows above its
   cursor, in order, without repeat or gap.  A consumer that left ends it, and nothing else does.  Until then the
   rows received are exactly those up to the position the queries have reached, with one notice
   per lost connection, and every notice's cursor is exact.
   */
  lemma SubscriberDelivers(c: Config, cursor: int, from: nat, room: nat, script: seq<Signal>)
    requires Ordered(c.log) && IsCut(c.log, cursor, from)
    ensures var s, p := RunFrom(c, Fresh(cursor, room), script, 0), Steps(c.log, Progress(from, false, 0), script, 0);
      && Rows(s.sent) <= Expected(c, from) && NoticesExact(c, from, s.sent)
      && (s.ended ==> s.room == 0 || Dropped in script) && (Dropped in script ==> s.ended)
      && (!s.ended ==> Exact(c, from, s.sent, p.at) && IsCut(c.log, s.lastSeen, p.at))
      && (!s.ended && c.notices && s.room > 0 ==> NoticeCount(s.sent) == p.lost)
  {
    var s := Fresh(cursor, room);
    assert c.log[from..from] == [] && script[0..] == script;
    var end := RunTracks(c, from, s, from, Progress(from, false, 0), script, 0);
    ExactIsPrefix(c, from, RunFrom(c, s, script, 0).sent, end);
  }

  lemma {:induction false} NoticeAt(c: Config, from: nat, sent: seq<Message>, j: nat)
    requires NoticesExact(c, from, sent) && j < |sent| && sent[j].Disconnected?
    ensures Exact(c, from, sent[..j], Cut(c.log, sent[j].cursor))
    decreases |sent|
  {
    if j < |sent| - 1 {
      var before := sent[..|sent| - 1];
      NoticeAt(c, from, before, j);
      assert before[..j] == sent[..j];
    }
  }

  lemma JoinAt(c: Config, from: nat, sent: seq<Message>, j: nat, more: seq<Row>)
    requires NoticesExact(c, from, sent) && j < |sent| && sent[j].Disconnected?
    requires more <= Expected(c, Cut(c.log, sent[j].cursor))
    ensures from <= |c.log| && Rows(sent[..j]) + more <= Expected(c, from)
    ensures more == Expected(c, Cut(c.log, sent[j].cursor)) ==> Rows(sent[..j]) + more == Expected(c, from)
  {
    NoticeAt(c, from, sent, j);
    var k := Cut(c.log, sent[j].cursor);
    assert c.log[from..] == c.log[from..k] + c.log[k..];
    SelectJoin(c.log[from..k], c.log[k..], c.wanted);
  }

  lemma CutCuts(log: seq<Row>, cursor: int)
    requires Ordered(log)
    ensures IsCut(log, cursor, Cut(log, cursor))
  {
  }

  /**
   Resuming at a notice: the rows a first subscriber delivered before the notice, followed by
   the rows a second one started at its cursor delivers in any run of its own, are again a
   prefix of what was due from the first start, without repeat or gap, and all of it once the
   second has delivered all that was due from its own start.
   */
  lemma ResumeExact(c: Config, cursor: int, room: nat, script: seq<Signal>, j: nat, room2: nat, script2: seq<Signal>)
    requires Ordered(c.log) && j < |RunFrom(c, Fresh(cursor, room), script, 0).sent|
    requires RunFrom(c, Fresh(cursor, room), script, 0).sent[j].Disconnected?
    ensures var first := RunFrom(c, Fresh(cursor, room), script, 0).sent;
      var second := RunFrom(c, Fresh(first[j].cursor, room2), script2, 0).sent;
      && Rows(first[..j]) + Rows(second) <= Expected(c, Cut(c.log, cursor))
      && (Rows(second) == Expected(c, Cut(c.log, first[j].cursor)) ==>
            Rows(first[..j]) + Rows(second) == Expected(c, Cut(c.log, cursor)))
  {
    var first := RunFrom(c, Fresh(cursor, room), script, 0).sent;
    var second := RunFrom(c, Fresh(first[j].cursor, room2), script2, 0).sent;
    CutCuts(c.log, cursor);
    CutCuts(c.log, first[j].cursor);
    SubscriberDelivers(c, cursor, Cut(c.log, cursor), room, script);
    SubscriberDelivers(c, first[j].cursor, Cut(c.log, first[j].cursor), room2, script2);
    JoinAt(c, Cut(c.log, cursor), first, j, Rows(second));
  }
}
