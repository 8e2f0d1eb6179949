/** Small shared vocabulary: optional values, JSON documents and finite-set facts. */
module Common {

  datatype Option<+T> = None | Some(value: T)

  const TWO_31: int := 0x8000_0000
  const TWO_32: int := 0x1_0000_0000
  const TWO_63: int := 0x8000_0000_0000_0000
  const TWO_64: int := 0x1_0000_0000_0000_0000

  type u32 = n: int | 0 <= n < TWO_32
  type u64 = n: int | 0 <= n < TWO_64

  /** Rust's `k as i32` on a `u32`. */
  function AsI32(k: u32): int {
    if k < TWO_31 then k else k - TWO_32
  }

  /** Rust's `n as i64` on a `u64`. */
  function AsI64(n: u64): int {
    if n < TWO_63 then n else n - TWO_64
  }

  /** Rust's `n as u64` on an `i64`. */
  function AsU64(n: int): (r: u64)
    requires -TWO_63 <= n < TWO_63
  {
    if n >= 0 then n else n + TWO_64
  }

  /** The part of JSON the backend stores: scalars and objects. */
  datatype Json =
    | Number(n: int)
    | Text(s: string)
    | Object(fields: map<string, Json>)
  {
    /** `v.get(key)` */
    function Get(key: string): Option<Json> {
      if Object? && key in fields then Some(fields[key]) else None
    }
    /** `v.get(key).and_then(as_str)` */
    function GetText(key: string): Option<string> {
      match Get(key)
      case Some(Text(s)) => Some(s)
      case _ => None
    }
    /** `v.get(key).and_then(as_u64)` */
    function GetU64(key: string): Option<u64> {
      match Get(key)
      case Some(Number(n)) => if 0 <= n < TWO_64 then Some(n) else None
      case _ => None
    }
  }

  lemma Regroup<T>(a: seq<T>, b: seq<T>, c: seq<T>)
    ensures a + (b + c) == a + b + c
  {
  }

  lemma {:induction false} SubsetSize<T>(a: set<T>, b: set<T>)
    requires a <= b
    ensures |a| <= |b|
    ensures |a| == |b| ==> a == b
  {
    assert |b| == |a| + |b - a| by { assert b == a + (b - a); }
    if |a| == |b| { assert b - a == {}; }
  }
}
