/** Bytes, 32-bit words and the outcome type shared by the other modules. */
module Bytes {

  type byte = x: int | 0 <= x < 0x100

  type u32 = x: int | 0 <= x < 0x1_0000_0000

  datatype Option<+T> = None | Some(value: T) {
    predicate IsFailure() {
      None?
    }

    function PropagateFailure<U>(): Option<U>
      requires None?
    {
      None
    }

    function Extract(): T
      requires Some?
    {
      value
    }
  }

  /** Big-endian encoding of one 32-bit word. */
  function PutU32(v: u32): (b: seq<byte>)
    ensures |b| == 4
  {
    var high, low := v / 0x1_0000, v % 0x1_0000;
    [high / 0x100, high % 0x100, low / 0x100, low % 0x100]
  }

  function GetU32(b: seq<byte>): (v: u32)
    requires |b| == 4
  {
    var high: int := b[0] as int * 0x100 + b[1];
    var low: int := b[2] as int * 0x100 + b[3];
    high * 0x1_0000 + low
  }

  lemma GetPut(v: u32)
    ensures GetU32(PutU32(v)) == v
  {
    var high, low := v / 0x1_0000, v % 0x1_0000;
    assert high == high / 0x100 * 0x100 + high % 0x100;
    assert low == low / 0x100 * 0x100 + low % 0x100;
  }

  lemma PutGet(b: seq<byte>)
    requires |b| == 4
    ensures PutU32(GetU32(b)) == b
  {
    var high: int := b[0] as int * 0x100 + b[1];
    var low: int := b[2] as int * 0x100 + b[3];
    assert GetU32(b) / 0x1_0000 == high && GetU32(b) % 0x1_0000 == low;
  }

  /** The word stored at an offset of a byte string. */
  function WordAt(b: seq<byte>, offset: nat): (v: u32)
    requires offset + 4 <= |b|
  {
    GetU32(b[offset..offset + 4])
  }

  /** Words read one after another are the words at their offsets. */
  lemma SkipWords(b: seq<byte>)
    ensures |b| >= 8 ==> WordAt(b[4..], 0) == WordAt(b, 4) && b[4..][4..] == b[8..]
    ensures |b| >= 12 ==> WordAt(b[4..][4..], 0) == WordAt(b, 8)
    ensures |b| >= 16 ==> WordAt(b[4..][4..][4..], 0) == WordAt(b, 12)
    ensures |b| >= 20 ==> WordAt(b[4..][4..][4..][4..], 0) == WordAt(b, 16)
    ensures |b| >= 24 ==> WordAt(b[4..][4..][4..][4..][4..], 0) == WordAt(b, 20)
  {
    hide GetU32;
    if |b| >= 8 { assert b[4..][0..4] == b[4..8]; }
    if |b| >= 12 { assert b[4..][4..][0..4] == b[8..12]; }
    if |b| >= 16 { assert b[4..][4..][4..][0..4] == b[12..16]; }
    if |b| >= 20 { assert b[4..][4..][4..][4..][0..4] == b[16..20]; }
    if |b| >= 24 { assert b[4..][4..][4..][4..][4..][0..4] == b[20..24]; }
  }

  /** The next word of a byte string and what follows it. */
  function Word(b: seq<byte>): (r: Option<(u32, seq<byte>)>) {
    if |b| < 4 then None else Some((WordAt(b, 0), b[4..]))
  }

  lemma WordOf(v: u32, rest: seq<byte>)
    ensures Word(PutU32(v) + rest) == Some((v, rest))
  {
    var b := PutU32(v) + rest;
    assert b[0..4] == PutU32(v) && b[4..] == rest;
    GetPut(v);
  }

  lemma OfWord(b: seq<byte>)
    requires Word(b).Some?
    ensures b == PutU32(Word(b).value.0) + Word(b).value.1
  {
    PutGet(b[0..4]);
    assert b == b[0..4] + b[4..];
  }

  /** A stored string ends at its first NUL, as a C string would. */
  function UpToNul(s: seq<byte>): (r: seq<byte>)
    ensures r <= s && 0 !in r
    ensures 0 !in s ==> r == s
  {
    if s == [] || s[0] == 0 then [] else [s[0]] + UpToNul(s[1..])
  }

  /** Consecutive big-endian words. */
  function PutWords(vs: seq<u32>): (b: seq<byte>)
    ensures |b| == 4 * |vs|
  {
    if vs == [] then [] else PutU32(vs[0]) + PutWords(vs[1..])
  }

  lemma WordAtPutWords(vs: seq<u32>, k: nat, rest: seq<byte>)
    requires k < |vs|
    ensures WordAt(PutWords(vs) + rest, 4 * k) == vs[k]
    decreases k
  {
    var b := PutWords(vs) + rest;
    var tail := PutWords(vs[1..]) + rest;
    assert b == PutU32(vs[0]) + tail;
    if k == 0 {
      assert b[0..4] == PutU32(vs[0]);
      GetPut(vs[0]);
    } else {
      WordAtPutWords(vs[1..], k - 1, rest);
      assert b[4 * k..4 * k + 4] == tail[4 * (k - 1)..4 * (k - 1) + 4];
    }
  }

  function Min(a: int, b: int): int {
    if a < b then a else b
  }

  function Max(a: int, b: int): int {
    if a < b then b else a
  }
}
