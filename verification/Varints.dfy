/** LEB128 (section 7.6 of DWARF 5): the length prefixes of the header, as read by hand and as printed. */
module Varints {
  import opened Prelude

  datatype CryptoError = Truncated | BadMagic | AuthFailed

  function Pow2(k: nat): (r: nat)
    ensures r > 0
  {
    if k == 0 then 1 else 2 * Pow2(k - 1)
  }

  lemma {:induction false} Pow2Adds(a: nat, b: nat)
    ensures Pow2(a + b) == Pow2(a) * Pow2(b)
  {
    if b > 0 {
      Pow2Adds(a, b - 1);
      assert Pow2(a + b) == 2 * Pow2(a + b - 1);
    }
  }

  lemma Pow2Seven(k: nat)
    ensures Pow2(k + 7) == 128 * Pow2(k)
  {
    Pow2Adds(k, 7);
    assert Pow2(7) == 128;
  }

  // ---- bitwise or -----------------------------------------------------------------------------------

  function BitOr(a: nat, b: nat): nat {
    if a == 0 && b == 0 then 0
    else (if a % 2 == 1 || b % 2 == 1 then 1 else 0) + 2 * BitOr(a / 2, b / 2)
  }

  lemma {:induction false} OrWithZero(b: nat)
    ensures BitOr(0, b) == b
  {
    if b > 0 { OrWithZero(b / 2); }
  }

  /** Bits that do not overlap add up. */
  lemma {:induction false} OrAdds(a: nat, m: nat, k: nat)
    requires a < Pow2(k)
    ensures BitOr(a, m * Pow2(k)) == a + m * Pow2(k)
  {
    if k == 0 {
      OrWithZero(m);
    } else {
      var p := m * Pow2(k - 1);
      assert m * Pow2(k) == 2 * p by { assert Pow2(k) == 2 * Pow2(k - 1); Doubles(m, Pow2(k - 1)); }
      OrAdds(a / 2, m, k - 1);
      OrOfDouble(a, p);
    }
  }

  lemma Doubles(m: nat, p: nat)
    ensures m * (2 * p) == 2 * (m * p)
  {}

  lemma OrOfDouble(a: nat, p: nat)
    ensures BitOr(a, 2 * p) == a % 2 + 2 * BitOr(a / 2, p)
  {
    assert (2 * p) / 2 == p;
  }

  // ---- reading ----------------------------------------------------------------------------------------

  /** The bits one byte contributes: shifted within 64 bits, the rest falls off. */
  function Shifted(b: u8, shift: nat): nat {
    (b % 128 * Pow2(shift)) % 0x1_0000_0000_0000_0000
  }

  /** The bits of a byte that survive the shift. */
  function Kept(b: u8, shift: nat): nat {
    if shift < 63 then b % 128 else b % 2
  }

  lemma ShiftedIsKept(b: u8, shift: nat)
    requires shift < 64 && shift % 7 == 0
    ensures Shifted(b, shift) == Kept(b, shift) * Pow2(shift)
  {
    PowersOf64();
    hide Pow2;
    if shift < 63 {
      Room(shift);
      NoWrap(b, Pow2(shift), Pow2(56 - shift));
    } else {
      HighBit(b);
    }
  }

  lemma Room(shift: nat)
    requires shift <= 56
    ensures 128 * Pow2(shift) * Pow2(56 - shift) == 0x8000_0000_0000_0000
  {
    PowersOf64();
    Pow2Seven(shift);
    Pow2Adds(shift + 7, 56 - shift);
    hide Pow2;
    assert shift + 7 + (56 - shift) == 63;
  }

  lemma NoWrap(b: u8, p: nat, q: nat)
    requires p > 0 && q > 0 && 128 * p * q == 0x8000_0000_0000_0000
    ensures (b % 128 * p) % 0x1_0000_0000_0000_0000 == b % 128 * p
  {
    var d := b % 128;
    Small(d, p, q);
    Remainder(d * p);
  }

  lemma Remainder(x: nat)
    requires x < 0x1_0000_0000_0000_0000
    ensures x % 0x1_0000_0000_0000_0000 == x
  {}

  lemma Small(d: nat, p: nat, q: nat)
    requires d < 128 && p > 0 && q > 0 && 128 * p * q == 0x8000_0000_0000_0000
    ensures d * p < 0x1_0000_0000_0000_0000
  {
    assert d * p <= 128 * p by { Times(d, 128, p); }
    assert 128 * p <= 128 * p * q by { Times(1, q, 128 * p); }
  }

  lemma Times(a: nat, b: nat, p: nat)
    requires a <= b
    ensures a * p <= b * p && p * a <= p * b
  {}

  lemma HighBit(b: u8)
    ensures (b % 128 * 0x8000_0000_0000_0000) % 0x1_0000_0000_0000_0000 == b % 2 * 0x8000_0000_0000_0000
  {
    assert b % 128 % 2 == b % 2;
  }

  lemma PowersOf64()
    ensures Pow2(63) == 0x8000_0000_0000_0000 && Pow2(64) == 0x1_0000_0000_0000_0000
  {
    assert Pow2(7) == 128;
    Pow2Seven(7);
    Pow2Seven(14);
    Pow2Seven(21);
    Pow2Seven(28);
    Pow2Seven(35);
    Pow2Seven(42);
    Pow2Seven(49);
    Pow2Seven(56);
    assert Pow2(64) == 2 * Pow2(63);
  }
  /** The number the groups from the k-th on spell out, and how many bytes they take. */
  function Groups(bs: Bytes, k: nat): (r: Option<(nat, nat)>)
    ensures r.Some? ==> 1 <= r.value.1 <= |bs| && k + r.value.1 <= 10
    decreases |bs|
  {
    if bs == [] || 7 * k >= 64 then None
    else if bs[0] < 128 then Some((Kept(bs[0], 7 * k), 1))
    else match Groups(bs[1..], k + 1)
      case None => None
      case Some((v, n)) => Some((bs[0] % 128 + 128 * v, 1 + n))
  }

  /** A length prefix at the start of `bs`: its value and its length, within both limits. */
  function Varint(bs: Bytes, max: nat): Option<(nat, nat)> {
    match Groups(bs, 0)
    case None => None
    case Some((v, n)) => if v > max || v > |bs| - n then None else Some((v, n))
  }

  /** `count` bytes have been read into `value`, and `rest` follows. */
  function Onto(value: nat, count: nat, rest: Option<(nat, nat)>): Option<(nat, nat)> {
    if rest.None? then None else Some((value + rest.value.0 * Pow2(7 * count), count + rest.value.1))
  }

  /** Reads a length prefix at `start`, in at most ten bytes. */
  method ReadVarint(buf: Bytes, start: nat, max: nat) returns (r: Result<nat, CryptoError>, pos: nat)
    requires start <= |buf|
    ensures start <= pos <= |buf| && pos - start <= 10
    ensures r == if Varint(buf[start..], max).Some? then Ok(Varint(buf[start..], max).value.0) else Err(Truncated)
    ensures r.Ok? ==> pos == start + Varint(buf[start..], max).value.1
  {
    hide Pow2, BitOr, Kept, Shifted, Groups, Onto;
    var value: nat, shift: nat := 0, 0;
    pos := start;
    OntoStarts(buf[start..]);
    while true
      invariant start <= pos <= |buf| && shift == 7 * (pos - start) <= 70
      invariant shift <= 63 ==> value < Pow2(shift)
      invariant Groups(buf[start..], 0) == Onto(value, pos - start, Groups(buf[pos..], pos - start))
      decreases |buf| - pos
    {
      if pos >= |buf| || shift >= 64 { OntoStops(value, pos - start, buf[pos..]); }
      if pos >= |buf| { return Err(Truncated), pos; }
      if shift >= 64 { return Err(Truncated), pos; }
      var b := buf[pos];
      assert buf[pos..][0] == b && buf[pos..][1..] == buf[pos + 1..];
      OneGroup(value, b, shift);
      OntoNext(value, pos - start, b, buf[pos..]);
      pos := pos + 1;
      value := BitOr(value, Shifted(b, shift));
      if b < 128 { break; }
      shift := shift + 7;
    }
    if value > max || value > |buf| - pos { return Err(Truncated), pos; }
    return Ok(value), pos;
  }

  lemma OntoStarts(bs: Bytes)
    ensures Pow2(0) == 1 && Onto(0, 0, Groups(bs, 0)) == Groups(bs, 0)
  {
    hide Groups;
  }

  lemma OntoStops(value: nat, count: nat, bs: Bytes)
    requires bs == [] || 7 * count >= 64
    ensures Onto(value, count, Groups(bs, count)) == None
  {}

  lemma OneGroup(value: nat, b: u8, shift: nat)
    requires shift < 64 && shift % 7 == 0 && value < Pow2(shift)
    ensures BitOr(value, Shifted(b, shift)) == value + Kept(b, shift) * Pow2(shift)
    ensures shift < 63 ==> value + Kept(b, shift) * Pow2(shift) < Pow2(shift + 7)
  {
    ShiftedIsKept(b, shift);
    OrAdds(value, Kept(b, shift), shift);
    if shift < 63 {
      Pow2Seven(shift);
      Times(b % 128, 127, Pow2(shift));
    }
  }

  lemma OntoNext(value: nat, count: nat, b: u8, bs: Bytes)
    requires 7 * count < 64 && bs != [] && bs[0] == b
    ensures b < 128 ==> Onto(value, count, Groups(bs, count)) == Some((value + Kept(b, 7 * count) * Pow2(7 * count), count + 1))
    ensures b >= 128 ==> Kept(b, 7 * count) == b % 128 || Groups(bs, count).None?
    ensures b >= 128 ==> var more := Groups(bs[1..], count + 1);
      Onto(value, count, Groups(bs, count)) == Onto(value + Kept(b, 7 * count) * Pow2(7 * count), count + 1, more)
  {
    if b >= 128 && Groups(bs[1..], count + 1).Some? {
      var v := Groups(bs[1..], count + 1).value.0;
      Pow2Seven(7 * count);
      Distribute(b % 128, v, Pow2(7 * count));
    }
  }

  lemma Distribute(d: nat, v: nat, p: nat)
    ensures (d + 128 * v) * p == d * p + v * (128 * p)
  {}

  // ---- printing ------------------------------------------------------------------------------------------

  /** The shortest encoding, as the serializer prints it. */
  function Leb(n: nat): (bs: Bytes)
    ensures |bs| >= 1
  {
    if n < 128 then [n] else [128 + n % 128] + Leb(n / 128)
  }

  /** Reading inverts printing on every 64-bit length, whatever follows. */
  lemma {:induction false} GroupsInvertLeb(n: nat, k: nat, rest: Bytes)
    requires k <= 9 && n < Pow2(64 - 7 * k)
    ensures Groups(Leb(n) + rest, k) == Some((n, |Leb(n)|))
  {
    var bs := Leb(n) + rest;
    assert bs[0] == Leb(n)[0];
    if k == 9 { assert Pow2(1) == 2; }
    if n >= 128 {
      Pow2Seven(57 - 7 * k);
      assert 57 - 7 * k == 64 - 7 * (k + 1);
      assert n / 128 < Pow2(57 - 7 * k);
      GroupsInvertLeb(n / 128, k + 1, rest);
      assert bs[1..] == Leb(n / 128) + rest;
    }
  }

  lemma VarintInvertsLeb(n: u64, max: nat, rest: Bytes)
    requires n <= |rest|
    ensures Varint(Leb(n) + rest, max) == if n <= max then Some((n, |Leb(n)|)) else None
    ensures |Leb(n)| <= 10
  {
    PowersOf64();
    GroupsInvertLeb(n, 0, rest);
  }

  /** Only the bytes that are taken matter. */
  lemma {:induction false} GroupsOfPrefix(bs: Bytes, k: nat)
    requires Groups(bs, k).Some?
    ensures Groups(bs[..Groups(bs, k).value.1], k) == Groups(bs, k)
  {
    var n := Groups(bs, k).value.1;
    if bs[0] >= 128 {
      GroupsOfPrefix(bs[1..], k + 1);
      assert bs[..n][1..] == bs[1..][..n - 1];
    }
  }

  lemma {:induction false} LebIsShortest(bs: Bytes, k: nat)
    requires Groups(bs, k).Some?
    ensures |Leb(Groups(bs, k).value.0)| <= Groups(bs, k).value.1
  {
    if bs[0] >= 128 { LebIsShortest(bs[1..], k + 1); }
  }

  predicate Shortest(bs: Bytes, k: nat, c: nat)
    requires 1 <= c <= |bs|
  {
    (c > 1 ==> bs[c - 1] != 0) && (k + c == 10 ==> bs[c - 1] < 2)
  }

  /**
   Reading accepts more than printing produces: what was read is what would be printed exactly
   when the last byte is not an empty group and no bit fell off the end.
   */
  lemma {:induction false} CanonicalIff(bs: Bytes, k: nat)
    requires Groups(bs, k).Some?
    ensures var (m, c) := Groups(bs, k).value; bs[..c] == Leb(m) <==> Shortest(bs, k, c)
  {
    if bs[0] >= 128 {
      CanonicalIff(bs[1..], k + 1);
      var (v, n) := Groups(bs[1..], k + 1).value;
      if n == 1 { OneGroupValue(bs[1..], k + 1); }
      LebOfGroups(bs[0], v);
      LebShort(v);
      hide Leb, Groups;
      assert bs[..1 + n] == [bs[0]] + bs[1..][..n];
      assert bs[1..][n - 1] == bs[n];
      SameAfterFirst(bs[0], bs[1..][..n], Leb(v));
    }
  }

  lemma OneGroupValue(bs: Bytes, k: nat)
    requires Groups(bs, k).Some? && Groups(bs, k).value.1 == 1
    ensures bs[0] < 128 && Groups(bs, k).value.0 == Kept(bs[0], 7 * k)
  {}

  lemma LebOfGroups(b: u8, v: nat)
    requires b >= 128
    ensures var m := b % 128 + 128 * v; Leb(m) == if v == 0 then [b % 128] else [b] + Leb(v)
  {
    var m := b % 128 + 128 * v;
    assert m % 128 == b % 128 && m / 128 == v;
  }

  lemma LebShort(v: nat)
    ensures |Leb(v)| == 1 <==> v < 128
    ensures v < 128 ==> Leb(v) == [v]
  {}

  lemma SameAfterFirst(b: u8, x: Bytes, y: Bytes)
    ensures [b] + x == [b] + y <==> x == y
  {
    assert ([b] + x)[1..] == x && ([b] + y)[1..] == y;
  }

  /** So two texts can be read as one number. */
  lemma OverlongIsAccepted(max: nat)
    ensures Varint([0x00], max) == Some((0, 1)) && Varint([0x80, 0x00], max) == Some((0, 2))
  {
    assert [0x80, 0x00][1..] == [0x00];
    assert Groups([0x00], 1) == Some((0, 1));
  }
}
