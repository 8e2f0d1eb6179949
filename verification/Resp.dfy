/**
 Commands on the wire, as arrays of bulk strings in the RESP protocol: the printer's
 specification, an independent reader, and the proof that reading undoes printing.
 */
module Resp {
  import opened Common
  import opened Decimal

  type Bytes = seq<byte>

  const CRLF: Bytes := [13, 10]
  const STAR: Bytes := [42]
  const DOLLAR: Bytes := [36]
  const PING: Bytes := [80, 73, 78, 71]
  const MULTI: Bytes := [77, 85, 76, 84, 73]
  const EXEC: Bytes := [69, 88, 69, 67]

  /** The fence: one PING, spelled out byte by byte. */
  const FENCE: Bytes := [42, 49, 13, 10, 36, 52, 13, 10, 80, 73, 78, 71, 13, 10]

  // ---------------------------------------------------------------------
  // Printing

  function Bulk(b: Bytes): Bytes { DOLLAR + Digits(|b|) + CRLF + b + CRLF }

  function Bulks(bs: seq<Bytes>): Bytes { if bs == [] then [] else Bulk(bs[0]) + Bulks(bs[1..]) }

  function Header(n: nat): Bytes { STAR + Digits(n) + CRLF }

  function Print(words: seq<Bytes>): Bytes { Header(|words|) + Bulks(words) }

  lemma FenceIsPing()
    ensures FENCE == Print([PING])
  {
    assert Digits(1) == [49] && Digits(4) == [52];
    assert Bulks([PING]) == Bulk(PING);
  }

  // ---------------------------------------------------------------------
  // Reading

  /** A run of digits closed by CRLF, and what follows. */
  function ReadNumber(s: Bytes): Option<(nat, Bytes)> {
    var k := DigitRun(s);
    if k == 0 || |s| < k + 2 || s[k..k + 2] != CRLF then None else Some((Value(s[..k]), s[k + 2..]))
  }

  function ReadBulk(s: Bytes): Option<(Bytes, Bytes)> {
    if s == [] || s[..1] != DOLLAR then None
    else
      match ReadNumber(s[1..])
      case None => None
      case Some((n, t)) =>
        if |t| < n + 2 || t[n..n + 2] != CRLF then None else Some((t[..n], t[n + 2..]))
  }

  function ReadBulks(s: Bytes, n: nat): Option<(seq<Bytes>, Bytes)>
    decreases n
  {
    if n == 0 then Some(([], s))
    else
      match ReadBulk(s)
      case None => None
      case Some((b, t)) =>
        match ReadBulks(t, n - 1)
        case None => None
        case Some((bs, u)) => Some(([b] + bs, u))
  }

  /** One command: an array header and as many bulk strings as it announces. */
  function ReadCommand(s: Bytes): Option<(seq<Bytes>, Bytes)> {
    if s == [] || s[..1] != STAR then None
    else
      match ReadNumber(s[1..])
      case None => None
      case Some((n, t)) => ReadBulks(t, n)
  }

  lemma {:induction false} ReadBulksShrinks(s: Bytes, n: nat)
    ensures ReadBulks(s, n).Some? ==> |ReadBulks(s, n).value.1| <= |s|
    decreases n
  {
    if n > 0 && ReadBulk(s).Some? { ReadBulksShrinks(ReadBulk(s).value.1, n - 1); }
  }

  lemma ReadCommandShrinks(s: Bytes)
    ensures ReadCommand(s).Some? ==> |ReadCommand(s).value.1| < |s|
  {
    if s != [] && ReadNumber(s[1..]).Some? {
      var (n, t) := ReadNumber(s[1..]).value;
      ReadBulksShrinks(t, n);
    }
  }

  /** A whole stream of commands, with nothing left over. */
  function ReadAll(s: Bytes): Option<seq<seq<Bytes>>>
    decreases |s|
  {
    if s == [] then Some([])
    else
      match ReadCommand(s)
      case None => None
      case Some((words, t)) =>
        ReadCommandShrinks(s);
        match ReadAll(t)
        case None => None
        case Some(rest) => Some([words] + rest)
  }

  // ---------------------------------------------------------------------
  // Reading undoes printing

  lemma ReadNumberOfDigits(n: nat, t: Bytes)
    ensures ReadNumber(Digits(n) + CRLF + t) == Some((n, t))
  {
    var d, s := Digits(n), Digits(n) + CRLF + t;
    assert s[..|d|] == d && s[|d|] == 13 && s[|d|..|d| + 2] == CRLF && s[|d| + 2..] == t;
    DigitRunUnique(s, |d|);
    ValueOfDigits(n);
  }

  lemma ReadBulkOfBulk(b: Bytes, t: Bytes)
    ensures ReadBulk(Bulk(b) + t) == Some((b, t))
  {
    var s, u := Bulk(b) + t, b + CRLF + t;
    assert s[..1] == DOLLAR && s[1..] == Digits(|b|) + CRLF + u;
    ReadNumberOfDigits(|b|, u);
    assert u[..|b|] == b && u[|b|..|b| + 2] == CRLF && u[|b| + 2..] == t;
  }

  lemma {:induction false} ReadBulksOfBulks(bs: seq<Bytes>, t: Bytes)
    ensures ReadBulks(Bulks(bs) + t, |bs|) == Some((bs, t))
    decreases |bs|
  {
    if bs == [] {
      assert Bulks(bs) + t == t;
    } else {
      var u := Bulks(bs[1..]) + t;
      assert Bulks(bs) + t == Bulk(bs[0]) + u;
      ReadBulkOfBulk(bs[0], u);
      ReadBulksOfBulks(bs[1..], t);
      assert [bs[0]] + bs[1..] == bs;
    }
  }

  lemma ReadCommandOfPrint(words: seq<Bytes>, t: Bytes)
    ensures ReadCommand(Print(words) + t) == Some((words, t))
  {
    var s, u := Print(words) + t, Bulks(words) + t;
    assert s[..1] == STAR && s[1..] == Digits(|words|) + CRLF + u;
    ReadNumberOfDigits(|words|, u);
    ReadBulksOfBulks(words, t);
  }

  // ---------------------------------------------------------------------
  // What has been read is not changed by what follows

  lemma ReadNumberExtends(s: Bytes, t: Bytes)
    requires ReadNumber(s).Some?
    ensures ReadNumber(s + t) == Some((ReadNumber(s).value.0, ReadNumber(s).value.1 + t))
  {
    var k := DigitRun(s);
    assert (s + t)[..k] == s[..k] && (s + t)[k] == s[k] && s[k..k + 2][0] == 13;
    DigitRunUnique(s + t, k);
    assert (s + t)[k..k + 2] == s[k..k + 2] && (s + t)[k + 2..] == s[k + 2..] + t;
  }

  lemma ReadBulkExtends(s: Bytes, t: Bytes)
    requires ReadBulk(s).Some?
    ensures ReadBulk(s + t) == Some((ReadBulk(s).value.0, ReadBulk(s).value.1 + t))
  {
    assert (s + t)[..1] == s[..1] && (s + t)[1..] == s[1..] + t;
    ReadNumberExtends(s[1..], t);
    var (n, u) := ReadNumber(s[1..]).value;
    assert (u + t)[n..n + 2] == u[n..n + 2] && (u + t)[..n] == u[..n] && (u + t)[n + 2..] == u[n + 2..] + t;
  }

  lemma {:induction false} ReadBulksExtends(s: Bytes, n: nat, t: Bytes)
    requires ReadBulks(s, n).Some?
    ensures ReadBulks(s + t, n) == Some((ReadBulks(s, n).value.0, ReadBulks(s, n).value.1 + t))
    decreases n
  {
    if n > 0 {
      ReadBulkExtends(s, t);
      ReadBulksExtends(ReadBulk(s).value.1, n - 1, t);
    }
  }

  lemma ReadCommandExtends(s: Bytes, t: Bytes)
    requires ReadCommand(s).Some?
    ensures ReadCommand(s + t) == Some((ReadCommand(s).value.0, ReadCommand(s).value.1 + t))
  {
    assert (s + t)[..1] == s[..1] && (s + t)[1..] == s[1..] + t;
    ReadNumberExtends(s[1..], t);
    var (n, u) := ReadNumber(s[1..]).value;
    ReadBulksExtends(u, n, t);
  }

  lemma ReadAllFirst(s: Bytes, words: seq<Bytes>, rest: Bytes)
    requires ReadCommand(s) == Some((words, rest))
    ensures ReadAll(s) == if ReadAll(rest).None? then None else Some([words] + ReadAll(rest).value)
  {
  }

  /** Streams that read in full can be joined. */
  lemma {:induction false} ReadAllJoin(s: Bytes, t: Bytes)
    requires ReadAll(s).Some? && ReadAll(t).Some?
    ensures ReadAll(s + t) == Some(ReadAll(s).value + ReadAll(t).value)
    decreases |s|
  {
    if s == [] {
      assert s + t == t && [] + ReadAll(t).value == ReadAll(t).value;
    } else {
      var (words, u) := ReadCommand(s).value;
      ReadCommandShrinks(s);
      ReadCommandExtends(s, t);
      ReadAllFirst(s, words, u);
      ReadAllFirst(s + t, words, u + t);
      ReadAllJoin(u, t);
      Regroup([words], ReadAll(u).value, ReadAll(t).value);
    }
  }

  lemma ReadAllOfPrint(words: seq<Bytes>)
    ensures ReadAll(Print(words)) == Some([words])
  {
    assert Print(words) + [] == Print(words);
    ReadCommandOfPrint(words, []);
    assert ReadAll([]) == Some([]) && [words] + [] == [words];
  }

  // ---------------------------------------------------------------------
  // Commands and pipelines

  /** A normal argument by the offset at which it ends, or the scan-cursor marker. */
  datatype Arg = Simple(end: nat) | Cursor

  datatype Item = Plain(bytes: Bytes) | CursorMark

  datatype Command = Command(data: Bytes, args: seq<Arg>, cursor: Option<u64>, fenced: bool, prePacked: bool)

  /** The offset at which argument `i` starts: the end of the nearest simple argument before it. */
  function EndBefore(args: seq<Arg>, i: nat): nat
    requires i <= |args|
  {
    if i == 0 then 0
    else if args[i - 1].Simple? then args[i - 1].end
    else EndBefore(args, i - 1)
  }

  /** Offsets run forward inside the buffer and use all of it. */
  ghost predicate Valid(c: Command) {
    && (forall i :: 0 <= i < |c.args| && c.args[i].Simple? ==> EndBefore(c.args, i) <= c.args[i].end <= |c.data|)
    && (!c.prePacked ==> EndBefore(c.args, |c.args|) == |c.data|)
  }

  function ItemAt(c: Command, i: nat): Item
    requires Valid(c) && i < |c.args|
  {
    if c.args[i].Cursor? then CursorMark else Plain(c.data[EndBefore(c.args, i)..c.args[i].end])
  }

  function Items(c: Command): (items: seq<Item>)
    requires Valid(c)
  {
    seq(|c.args|, i requires 0 <= i < |c.args| => ItemAt(c, i))
  }

  function CursorOf(c: Command): u64 { if c.cursor.Some? then c.cursor.value else 0 }

  function Word(item: Item, cursor: u64): Bytes { if item.Plain? then item.bytes else Digits(cursor) }

  function Words(items: seq<Item>, cursor: u64): seq<Bytes> { seq(|items|, i requires 0 <= i < |items| => Word(items[i], cursor)) }

  function Packed(c: Command): Bytes
    requires Valid(c)
  {
    if c.prePacked then c.data
    else Print(Words(Items(c), CursorOf(c))) + if c.fenced then FENCE else []
  }

  function PackedAll(cs: seq<Command>): Bytes
    requires forall i :: 0 <= i < |cs| ==> Valid(cs[i])
  {
    if cs == [] then [] else Packed(cs[0]) + PackedAll(cs[1..])
  }

  function Pipeline(cs: seq<Command>, atomic: bool): Bytes
    requires forall i :: 0 <= i < |cs| ==> Valid(cs[i])
  {
    if atomic then Print([MULTI]) + PackedAll(cs) + Print([EXEC]) else PackedAll(cs)
  }

  /** What a server should receive for a command; None when its pre-packed bytes are not a stream. */
  function Meaning(c: Command): Option<seq<seq<Bytes>>>
    requires Valid(c)
  {
    if c.prePacked then ReadAll(c.data)
    else Some([Words(Items(c), CursorOf(c))] + if c.fenced then [[PING]] else [])
  }

  ghost predicate Meaningful(cs: seq<Command>) {
    forall i :: 0 <= i < |cs| ==> Valid(cs[i]) && Meaning(cs[i]).Some?
  }

  ghost function Meanings(cs: seq<Command>): seq<seq<Bytes>>
    requires Meaningful(cs)
  {
    if cs == [] then [] else Meaning(cs[0]).value + Meanings(cs[1..])
  }

  /**
   A command means one array with a word per argument: the argument's own bytes, or the scan
   cursor (0 when unset) in decimal; a fence adds one PING.
   */
  lemma MeaningIs(c: Command)
    requires Valid(c) && !c.prePacked
    ensures Meaning(c).Some? && |Meaning(c).value| == (if c.fenced then 2 else 1)
    ensures c.fenced ==> Meaning(c).value[1] == [PING]
    ensures var words := Meaning(c).value[0];
      && |words| == |c.args|
      && forall i :: 0 <= i < |c.args| ==>
           match c.args[i]
           case Simple(end) => words[i] == c.data[EndBefore(c.args, i)..end]
           case Cursor => AllDigits(words[i]) && Value(words[i]) == if c.cursor.Some? then c.cursor.value else 0
  {
    ValueOfDigits(CursorOf(c));
  }

  lemma ReadAllOfFenced(words: seq<Bytes>)
    ensures ReadAll(Print(words) + FENCE) == Some([words] + [[PING]])
  {
    FenceIsPing();
    ReadAllOfPrint(words);
    ReadAllOfPrint([PING]);
    ReadAllJoin(Print(words), FENCE);
  }

  lemma ReadAllOfPacked(c: Command)
    requires Valid(c) && Meaning(c).Some?
    ensures ReadAll(Packed(c)) == Meaning(c)
  {
    if !c.prePacked {
      var words := Words(Items(c), CursorOf(c));
      if c.fenced {
        ReadAllOfFenced(words);
      } else {
        assert Print(words) + [] == Print(words) && [words] + [] == [words];
        ReadAllOfPrint(words);
      }
    }
  }

  lemma {:induction false} ReadAllOfPackedAll(cs: seq<Command>)
    requires Meaningful(cs)
    ensures ReadAll(PackedAll(cs)) == Some(Meanings(cs))
    decreases |cs|
  {
    if cs != [] {
      ReadAllOfPacked(cs[0]);
      ReadAllOfPackedAll(cs[1..]);
      ReadAllJoin(Packed(cs[0]), PackedAll(cs[1..]));
    }
  }

  /**
   Reading undoes printing: the bytes of any pipeline, fenced or atomic included, read back to
   exactly the commands that went in, in order and with nothing left over.
   */
  lemma PipelineRoundTrip(cs: seq<Command>, atomic: bool)
    requires Meaningful(cs)
    ensures ReadAll(Pipeline(cs, atomic))
         == Some(if atomic then [[MULTI]] + Meanings(cs) + [[EXEC]] else Meanings(cs))
  {
    ReadAllOfPackedAll(cs);
    if atomic {
      ReadAllOfPrint([MULTI]);
      ReadAllOfPrint([EXEC]);
      ReadAllJoin(Print([MULTI]), PackedAll(cs));
      ReadAllJoin(Print([MULTI]) + PackedAll(cs), Print([EXEC]));
    }
  }

  /** Two pipelines with the same bytes carry the same commands. */
  lemma PipelineInjective(cs: seq<Command>, ds: seq<Command>, atomic: bool)
    requires Meaningful(cs) && Meaningful(ds) && Pipeline(cs, atomic) == Pipeline(ds, atomic)
    ensures Meanings(cs) == Meanings(ds)
  {
    PipelineRoundTrip(cs, atomic);
    PipelineRoundTrip(ds, atomic);
    if atomic {
      var a, b := [[MULTI]] + Meanings(cs) + [[EXEC]], [[MULTI]] + Meanings(ds) + [[EXEC]];
      assert Meanings(cs) == a[1..|a| - 1] && Meanings(ds) == b[1..|b| - 1];
    }
  }
}
