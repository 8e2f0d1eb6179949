/** The command builder and printer as they work on growing buffers, proved against `Resp`. */
module RespWriter {
  import opened Common
  import opened Decimal
  import R = Resp

  lemma {:induction false} EndBeforeSnoc(args: seq<R.Arg>, arg: R.Arg, i: nat)
    requires i <= |args|
    ensures R.EndBefore(args + [arg], i) == R.EndBefore(args, i)
    decreases i
  {
    if i > 0 { EndBeforeSnoc(args, arg, i - 1); }
  }

  lemma {:induction false} EndBeforeInside(c: R.Command, i: nat)
    requires R.Valid(c) && i <= |c.args|
    ensures R.EndBefore(c.args, i) <= |c.data|
    decreases i
  {
    if i > 0 { EndBeforeInside(c, i - 1); }
  }

  function WithArg(c: R.Command, arg: R.Bytes): R.Command {
    c.(data := c.data + arg, args := c.args + [R.Simple(|c.data| + |arg|)])
  }

  lemma ArgKeepsValid(c: R.Command, arg: R.Bytes)
    requires R.Valid(c)
    ensures R.Valid(WithArg(c, arg))
  {
    var c' := WithArg(c, arg);
    forall i | 0 <= i < |c'.args| && c'.args[i].Simple?
      ensures R.EndBefore(c'.args, i) <= c'.args[i].end <= |c'.data|
    {
      EndBeforeSnoc(c.args, c'.args[|c.args|], i);
      EndBeforeInside(c, i);
    }
  }

  lemma ItemAfterArg(c: R.Command, arg: R.Bytes, i: nat)
    requires R.Valid(c) && R.Valid(WithArg(c, arg)) && !c.prePacked && i <= |c.args|
    ensures R.ItemAt(WithArg(c, arg), i) == if i < |c.args| then R.ItemAt(c, i) else R.Plain(arg)
  {
    EndBeforeSnoc(c.args, R.Simple(|c.data| + |arg|), i);
    if i == |c.args| {
      assert (c.data + arg)[|c.data|..] == arg;
    } else if c.args[i].Simple? {
      assert (c.data + arg)[R.EndBefore(c.args, i)..c.args[i].end] == c.data[R.EndBefore(c.args, i)..c.args[i].end];
    }
  }

  /** Appending bytes and an end offset appends one argument and leaves the others alone. */
  lemma ArgAppends(c: R.Command, arg: R.Bytes)
    requires R.Valid(c) && R.Valid(WithArg(c, arg)) && !c.prePacked
    ensures R.Items(WithArg(c, arg)) == R.Items(c) + [R.Plain(arg)]
  {
    var want, got := R.Items(c) + [R.Plain(arg)], R.Items(WithArg(c, arg));
    forall i | 0 <= i < |got| ensures got[i] == want[i] { ItemAfterArg(c, arg, i); }
  }

  lemma ItemIsSlice(c: R.Command, i: nat)
    requires R.Valid(c) && i < |c.args| && c.args[i].Simple?
    ensures R.EndBefore(c.args, i) <= c.args[i].end <= |c.data|
    ensures R.Items(c)[i] == R.Plain(c.data[R.EndBefore(c.args, i)..c.args[i].end])
  {
  }

  /** A fresh command with the arguments written one after another. */
  function Built(args: seq<R.Bytes>): R.Command {
    if args == [] then R.Command([], [], None, false, false) else WithArg(Built(args[..|args| - 1]), args[|args| - 1])
  }

  lemma {:induction false} BuiltItems(args: seq<R.Bytes>)
    ensures R.Valid(Built(args)) && !Built(args).prePacked && !Built(args).fenced
    ensures |R.Items(Built(args))| == |args|
    decreases |args|
  {
    if args != [] {
      var init, last := args[..|args| - 1], args[|args| - 1];
      BuiltItems(init);
      ArgKeepsValid(Built(init), last);
      ArgAppends(Built(init), last);
    }
  }

  lemma {:induction false} BuiltItemAt(args: seq<R.Bytes>, i: nat)
    requires i < |args| && R.Valid(Built(args)) && |R.Items(Built(args))| == |args|
    ensures R.Items(Built(args))[i] == R.Plain(args[i])
    decreases |args|
  {
    var init, last := args[..|args| - 1], args[|args| - 1];
    BuiltItems(init);
    ArgAppends(Built(init), last);
    if i < |init| { BuiltItemAt(init, i); }
  }

  /** Arguments written one by one arrive as exactly those words. */
  lemma BuiltReadsBack(args: seq<R.Bytes>)
    ensures R.Valid(Built(args)) && R.ReadAll(R.Packed(Built(args))) == Some([args])
  {
    var c := Built(args);
    BuiltItems(args);
    R.ReadAllOfPacked(c);
    var words := R.Words(R.Items(c), R.CursorOf(c));
    forall i | 0 <= i < |args| ensures words[i] == args[i] { BuiltItemAt(args, i); }
    assert words == args && [words] + [] == [words];
  }

  class Buffer {
    var bytes: R.Bytes

    constructor ()
      ensures bytes == []
    {
      bytes := [];
    }

    method WriteAll(s: R.Bytes)
      modifies this
      ensures bytes == old(bytes) + s
    {
      bytes := bytes + s;
    }
  }

  /** Exact size of an unfenced command. */
  method ArgsLen(items: seq<R.Item>, cursor: u64) returns (total: nat)
    ensures total == |R.Print(R.Words(items, cursor))|
  {
    ghost var words := R.Words(items, cursor);
    total := CountDigits(|items|);
    total := total + 3;
    assert words[0..] == words;
    for i := 0 to |items|
      invariant total + |R.Bulks(words[i..])| == |R.Print(words)|
    {
      var len := if items[i].CursorMark? then |Digits(cursor)| else |items[i].bytes|;
      var digits := CountDigits(len);
      assert words[i..][0] == words[i] && words[i..][1..] == words[i + 1..];
      total := total + (1 + digits + 2 + len + 2);
    }
  }

  method WriteBulk(out: Buffer, bytes: R.Bytes)
    modifies out
    ensures out.bytes == old(out.bytes) + R.Bulk(bytes)
  {
    out.WriteAll(R.DOLLAR);
    out.WriteAll(Digits(|bytes|));
    out.WriteAll(R.CRLF);
    out.WriteAll(bytes);
    out.WriteAll(R.CRLF);
  }

  method WriteItems(out: Buffer, items: seq<R.Item>, cursor: u64)
    modifies out
    ensures out.bytes == old(out.bytes) + R.Bulks(R.Words(items, cursor))
  {
    ghost var words := R.Words(items, cursor);
    ghost var goal := out.bytes + R.Bulks(words);
    assert words[0..] == words;
    for i := 0 to |items|
      invariant out.bytes + R.Bulks(words[i..]) == goal
    {
      ghost var before := out.bytes;
      var bytes := if items[i].CursorMark? then Digits(cursor) else items[i].bytes;
      WriteBulk(out, bytes);
      assert words[i..][0] == bytes && words[i..][1..] == words[i + 1..];
      Regroup(before, R.Bulk(bytes), R.Bulks(words[i + 1..]));
    }
  }

  method WriteCommand(out: Buffer, items: seq<R.Item>, cursor: u64, fenced: bool)
    modifies out
    ensures out.bytes == old(out.bytes) + (R.Print(R.Words(items, cursor)) + if fenced then R.FENCE else [])
  {
    out.WriteAll(R.STAR);
    out.WriteAll(Digits(|items|));
    out.WriteAll(R.CRLF);
    assert out.bytes == old(out.bytes) + R.Header(|items|);
    WriteItems(out, items, cursor);
    Regroup(old(out.bytes), R.Header(|items|), R.Bulks(R.Words(items, cursor)));
    assert out.bytes == old(out.bytes) + R.Print(R.Words(items, cursor));
    if fenced {
      out.WriteAll(R.FENCE);
      Regroup(old(out.bytes), R.Print(R.Words(items, cursor)), R.FENCE);
    }
  }

  class Cmd {
    var data: R.Bytes
    var args: seq<R.Arg>
    var cursor: Option<u64>
    var fenced: bool
    var prePacked: bool

    function Value(): R.Command
      reads this
    {
      R.Command(data, args, cursor, fenced, prePacked)
    }

    ghost predicate Valid()
      reads this
    {
      R.Valid(Value())
    }

    constructor ()
      ensures Valid() && Value() == R.Command([], [], None, false, false)
    {
      data, args, cursor, fenced, prePacked := [], [], None, false, false;
    }

    constructor FromPackedCommand(packed: R.Bytes)
      ensures Valid() && Value() == R.Command(packed, [], None, false, true)
    {
      data, args, cursor, fenced, prePacked := packed, [], None, false, true;
    }

    method WriteArg(arg: R.Bytes)
      requires Valid()
      modifies this
      ensures Valid() && Value() == WithArg(old(Value()), arg)
      ensures !prePacked ==> R.Items(Value()) == old(R.Items(Value())) + [R.Plain(arg)]
    {
      ArgKeepsValid(Value(), arg);
      if !prePacked { ArgAppends(Value(), arg); }
      data := data + arg;
      args := args + [R.Simple(|data|)];
    }

    method SetFenced(on: bool)
      requires Valid()
      modifies this`fenced
      ensures Valid() && fenced == on && R.Items(Value()) == old(R.Items(Value()))
    {
      fenced := on;
      assert R.Items(Value()) == old(R.Items(Value()));
    }

    /** Walks the offsets forward, each argument starting where the last simple one ended. */
    method ArgsIter() returns (items: seq<R.Item>)
      requires Valid()
      ensures items == R.Items(Value())
    {
      items := [];
      var prev := 0;
      for i := 0 to |args|
        invariant prev == R.EndBefore(args, i)
        invariant items == R.Items(Value())[..i]
      {
        if args[i].Simple? {
          items := items + [R.Plain(data[prev..args[i].end])];
          prev := args[i].end;
        } else {
          items := items + [R.CursorMark];
        }
      }
    }

    /** Walks the offsets backward from one argument; agrees with the forward walk. */
    method ArgIdx(idx: nat) returns (r: Option<R.Bytes>)
      requires Valid()
      ensures r == if idx < |args| && R.Items(Value())[idx].Plain? then Some(R.Items(Value())[idx].bytes) else None
    {
      if idx >= |args| { return None; }
      if args[idx].Cursor? { return None; }
      var start := 0;
      if idx > 0 {
        var i := idx - 1;
        while true
          invariant i < idx && R.EndBefore(args, idx) == R.EndBefore(args, i + 1)
          decreases i
        {
          if args[i].Simple? {
            start := args[i].end;
            break;
          }
          if i == 0 { break; }
          i := i - 1;
        }
      }
      ItemIsSlice(Value(), idx);
      r := Some(data[start..args[idx].end]);
    }

    /** The size used to reserve the output buffer is exact unless a fence will follow. */
    method CmdLen() returns (n: nat)
      requires Valid()
      ensures n == |R.Packed(Value())| <==> prePacked || !fenced
      ensures n <= |R.Packed(Value())|
    {
      if prePacked { return |data|; }
      var items := ArgsIter();
      n := ArgsLen(items, R.CursorOf(Value()));
    }

    method WritePackedCommand(out: Buffer)
      requires Valid()
      modifies out
      ensures out.bytes == old(out.bytes) + R.Packed(Value())
    {
      if prePacked {
        out.WriteAll(data);
        return;
      }
      var items := ArgsIter();
      WriteCommand(out, items, R.CursorOf(Value()), fenced);
    }
  }

  ghost function Values(cmds: seq<Cmd>): seq<R.Command>
    reads cmds
  {
    seq(|cmds|, i requires 0 <= i < |cmds| reads cmds => cmds[i].Value())
  }

  ghost predicate AllValid(cmds: seq<Cmd>)
    reads cmds
  {
    forall i :: 0 <= i < |cmds| ==> cmds[i].Valid()
  }

  lemma PackedAllRound(cs: seq<R.Command>, i: nat, before: R.Bytes)
    requires i < |cs| && forall k :: 0 <= k < |cs| ==> R.Valid(cs[k])
    ensures before + R.PackedAll(cs[i..]) == before + R.Packed(cs[i]) + R.PackedAll(cs[i + 1..])
  {
  }

  lemma AtomicParts(start: R.Bytes, cs: seq<R.Command>)
    requires forall k :: 0 <= k < |cs| ==> R.Valid(cs[k])
    ensures start + R.Print([R.MULTI]) + R.PackedAll(cs) + R.Print([R.EXEC]) == start + R.Pipeline(cs, true)
  {
    Regroup(start, R.Print([R.MULTI]), R.PackedAll(cs));
    Regroup(start, R.Print([R.MULTI]) + R.PackedAll(cs), R.Print([R.EXEC]));
  }

  /** A one-word command. */
  method Simple(word: R.Bytes) returns (c: Cmd)
    ensures fresh(c) && c.Valid() && R.Packed(c.Value()) == R.Print([word])
  {
    c := new Cmd();
    c.WriteArg(word);
    assert R.Words(R.Items(c.Value()), 0) == [word];
    assert R.Packed(c.Value()) == R.Print([word]) + [];
  }

  method WriteEach(rv: Buffer, cmds: seq<Cmd>)
    requires AllValid(cmds)
    modifies rv
    ensures rv.bytes == old(rv.bytes) + old(R.PackedAll(Values(cmds)))
  {
    ghost var cs := Values(cmds);
    ghost var goal := rv.bytes + R.PackedAll(cs);
    assert cs[0..] == cs;
    for i := 0 to |cmds|
      invariant forall k :: 0 <= k < |cmds| ==> cmds[k].Value() == cs[k]
      invariant rv.bytes + R.PackedAll(cs[i..]) == goal
    {
      ghost var before := rv.bytes;
      cmds[i].WritePackedCommand(rv);
      PackedAllRound(cs, i, before);
    }
  }

  method WritePipeline(rv: Buffer, cmds: seq<Cmd>, atomic: bool)
    requires AllValid(cmds)
    modifies rv
    ensures rv.bytes == old(rv.bytes) + old(R.Pipeline(Values(cmds), atomic))
  {
    if atomic {
      ghost var cs := Values(cmds);
      var multi := Simple(R.MULTI);
      var exec := Simple(R.EXEC);
      multi.WritePackedCommand(rv);
      assert Values(cmds) == cs;
      WriteEach(rv, cmds);
      exec.WritePackedCommand(rv);
      AtomicParts(old(rv.bytes), cs);
    } else {
      WriteEach(rv, cmds);
    }
  }

  method EncodePipeline(cmds: seq<Cmd>, atomic: bool) returns (bytes: R.Bytes)
    requires AllValid(cmds)
    ensures bytes == R.Pipeline(Values(cmds), atomic)
  {
    var rv := new Buffer();
    WritePipeline(rv, cmds, atomic);
    bytes := rv.bytes;
  }
}
