/** Time-ordered ids (sidecar/orca_core/schema/_base.py); layout and monotonicity as in
    RFC 9562, sections 5.7 and 6.2. */
module UuidV7 {
  const MS_LIMIT: nat := 0x1_0000_0000_0000          // 48 bits
  const MAX_COUNTER: nat := 4095                     // 12 bits
  const P60: nat := 0x1000_0000_0000_0000
  const P62: nat := 0x4000_0000_0000_0000
  const P64: nat := 0x1_0000_0000_0000_0000
  const P76: nat := 0x1000_0000_0000_0000_0000
  const P80: nat := 0x1_0000_0000_0000_0000_0000
  const P128: nat := 0x1_0000_0000_0000_0000_0000_0000_0000_0000

  datatype State = State(lastMs: nat, lastCounter: nat)

  /** A clock reading in milliseconds and the random bits drawn. */
  datatype Reading = Reading(clock: int, rand12: nat, rand62: nat)

  predicate ReadingOk(r: Reading) {
    r.rand12 <= MAX_COUNTER && r.rand62 < P62
  }

  predicate StateOk(s: State) {
    s.lastCounter <= MAX_COUNTER
  }

  predicate Later(s: State, t: State) {
    s.lastMs < t.lastMs || (s.lastMs == t.lastMs && s.lastCounter < t.lastCounter)
  }

  // ---- Bits ----

  function BitOr(a: nat, b: nat): nat {
    if a == 0 then b
    else if b == 0 then a
    else 2 * BitOr(a / 2, b / 2) + if a % 2 == 1 || b % 2 == 1 then 1 else 0
  }

  function Pow2(k: nat): (r: nat)
    ensures r > 0
  {
    if k == 0 then 1 else 2 * Pow2(k - 1)
  }

  function Shl(a: nat, k: nat): nat {
    a * Pow2(k)
  }

  /** Where the high part ends in `k` zero bits and the low part has at most `k` bits,
      or adds up. */
  lemma {:induction false} OrAdds(a: nat, b: nat, k: nat)
    requires b < Pow2(k)
    ensures BitOr(a * Pow2(k), b) == a * Pow2(k) + b
  {
    if k > 0 && a > 0 && b > 0 {
      var h := a * Pow2(k - 1);
      assert a * Pow2(k) == 2 * h by { Reorder(a, Pow2(k - 1)); }
      OrAdds(a, b / 2, k - 1);
      assert (2 * h) / 2 == h && (2 * h) % 2 == 0;
    }
  }

  lemma Reorder(a: nat, p: nat)
    ensures a * (2 * p) == 2 * (a * p)
  {
  }

  lemma Powers()
    ensures Pow2(62) == P62 && Pow2(64) == P64 && Pow2(76) == P76 && Pow2(80) == P80
  {
    assert Pow2(10) == 1024;
    assert Pow2(20) == 0x10_0000;
    assert Pow2(30) == 0x4000_0000;
    assert Pow2(40) == 0x100_0000_0000;
    assert Pow2(50) == 0x4_0000_0000_0000;
    assert Pow2(60) == 0x1000_0000_0000_0000;
    assert Pow2(70) == 0x40_0000_0000_0000_0000;
  }

  /** The 128-bit number: time, version 7, counter, variant 2, random bits. */
  function Layout(s: State, rand62: nat): nat {
    s.lastMs * P80 + 7 * P76 + s.lastCounter * P64 + 2 * P62 + rand62
  }

  /** The source's shifts and ors give that layout. */
  lemma {:induction false} Assembled(s: State, rand62: nat)
    requires StateOk(s) && rand62 < P62
    ensures BitOr(BitOr(BitOr(BitOr(Shl(s.lastMs, 80), Shl(7, 76)), Shl(s.lastCounter, 64)), Shl(2, 62)), rand62) == Layout(s, rand62)
  {
    Powers();
    hide Pow2, BitOr;
    OrAdds(s.lastMs, 7 * P76, 80);
    var v1 := s.lastMs * 16 + 7;
    assert s.lastMs * P80 + 7 * P76 == v1 * P76;
    OrAdds(v1, s.lastCounter * P64, 76);
    var v2 := v1 * 4096 + s.lastCounter;
    assert v1 * P76 + s.lastCounter * P64 == v2 * P64;
    OrAdds(v2, 2 * P62, 64);
    var v3 := v2 * 4 + 2;
    assert v2 * P64 + 2 * P62 == v3 * P62;
    OrAdds(v3, rand62, 62);
  }

  // ---- The generator ----

  function NextState(s: State, r: Reading): State {
    var now := r.clock % MS_LIMIT;
    if now > s.lastMs then State(now, r.rand12 / 16)
    else if s.lastCounter + 1 > MAX_COUNTER then State(s.lastMs + 1, 0)
    else State(s.lastMs, s.lastCounter + 1)
  }

  class IdGenerator {
    var lastMs: nat
    var lastCounter: nat

    ghost function Now(): State
      reads this
    {
      State(lastMs, lastCounter)
    }

    constructor ()
      ensures Now() == State(0, 0)
    {
      lastMs, lastCounter := 0, 0;
    }

    /** `generate_uuid_v7` */
    method Generate(r: Reading) returns (value: nat, text: string)
      requires StateOk(Now()) && ReadingOk(r)
      modifies this
      ensures StateOk(Now()) && Later(old(Now()), Now()) && Now() == NextState(old(Now()), r)
      ensures value == Layout(Now(), r.rand62) && text == Text(value)
      ensures var time, counter := value / P80, value / P64 % 4096;
        if r.clock % MS_LIMIT > old(lastMs) then time == r.clock % MS_LIMIT && counter == r.rand12 / 16
        else if old(lastCounter) < 4095 then time == old(lastMs) && counter == old(lastCounter) + 1
        else time == old(lastMs) + 1 && counter == 0
      ensures value % P62 == r.rand62
    {
      hide Layout, Text;
      TimeOfNext(Now(), r);
      Advance(r);
      Fields(Now(), r.rand62);
      value, text := Assemble(r.rand62);
    }

    /** The part under the lock. */
    method Advance(r: Reading)
      requires StateOk(Now()) && ReadingOk(r)
      modifies this
      ensures StateOk(Now()) && Later(old(Now()), Now()) && Now() == NextState(old(Now()), r)
    {
      var nowMs := r.clock % MS_LIMIT;
      if nowMs > lastMs {
        lastMs := nowMs;
        lastCounter := r.rand12 / 16;
      } else {
        lastCounter := lastCounter + 1;
        if lastCounter > MAX_COUNTER {
          lastMs := lastMs + 1;
          lastCounter := 0;
        }
      }
    }

    /** The number from its fields, and its text. */
    method Assemble(rand62: nat) returns (value: nat, text: string)
      requires StateOk(Now()) && rand62 < P62
      ensures value == Layout(Now(), rand62) && text == Text(value)
    {
      hide Layout, BitOr;
      Assembled(Now(), rand62);
      value := Shl(lastMs, 80);
      value := BitOr(value, Shl(7, 76));
      value := BitOr(value, Shl(lastCounter, 64));
      value := BitOr(value, Shl(2, 62));
      value := BitOr(value, rand62);
      var hex := Hex(value, 32);
      HexAtLeast(value, 32);
      text := hex[0..8] + "-" + hex[8..12] + "-" + hex[12..16] + "-" + hex[16..20] + "-" + hex[20..32];
    }
  }

  /** The fields of the number can be read back from it. */
  lemma Fields(s: State, rand62: nat)
    requires StateOk(s) && rand62 < P62
    ensures var v := Layout(s, rand62);
      && v / P80 == s.lastMs && v / P76 % 16 == 7 && v / P64 % 4096 == s.lastCounter
      && v / P62 % 4 == 2 && v % P62 == rand62
  {
    var v, m, c := Layout(s, rand62), s.lastMs, s.lastCounter;
    assert v == m * P80 + (7 * P76 + c * P64 + 2 * P62 + rand62);
    assert v == (16 * m + 7) * P76 + (c * P64 + 2 * P62 + rand62);
    assert v == (4096 * (16 * m + 7) + c) * P64 + (2 * P62 + rand62);
    assert v == (4 * (4096 * (16 * m + 7) + c) + 2) * P62 + rand62;
  }

  /** The next id carries the clock's time if that is later than the last one; otherwise
      it counts on, and a full counter goes over into the next millisecond. */
  lemma TimeOfNext(s: State, r: Reading)
    requires StateOk(s) && ReadingOk(r)
    ensures var v := Layout(NextState(s, r), r.rand62);
      var time, counter := v / P80, v / P64 % 4096;
      if r.clock % MS_LIMIT > s.lastMs then time == r.clock % MS_LIMIT && counter == r.rand12 / 16
      else if s.lastCounter < 4095 then time == s.lastMs && counter == s.lastCounter + 1
      else time == s.lastMs + 1 && counter == 0
  {
    Fields(NextState(s, r), r.rand62);
    hide Layout;
  }

  // ---- Hexadecimal text ----

  function HexChar(d: nat): (c: char)
    requires d < 16
  {
    if d < 10 then '0' + d as char else 'a' + (d - 10) as char
  }

  /** Lower-case hexadecimal with at least `width` digits. */
  function Hex(v: nat, width: nat): string
    decreases v + width
  {
    if v == 0 && width == 0 then "" else Hex(v / 16, if width > 0 then width - 1 else 0) + [HexChar(v % 16)]
  }

  lemma {:induction false} HexAtLeast(v: nat, width: nat)
    ensures |Hex(v, width)| >= width
    decreases v + width
  {
    if v > 0 || width > 0 { HexAtLeast(v / 16, if width > 0 then width - 1 else 0); }
  }

  function Text(value: nat): string {
    var hex := Hex(value, 32);
    HexAtLeast(value, 32);
    hex[0..8] + "-" + hex[8..12] + "-" + hex[12..16] + "-" + hex[16..20] + "-" + hex[20..32]
  }

  function Pow16(k: nat): (r: nat)
    ensures r > 0
  {
    if k == 0 then 1 else 16 * Pow16(k - 1)
  }

  lemma {:induction false} HexLength(v: nat, width: nat)
    requires v < Pow16(width)
    ensures |Hex(v, width)| == width
  {
    if width > 0 {
      assert v / 16 < Pow16(width - 1);
      HexLength(v / 16, width - 1);
    }
  }

  /** Order of strings character by character. */
  predicate LexLess(s: string, t: string) {
    exists k :: 0 <= k <= |s| && k < |t| && s[..k] == t[..k] && (k == |s| || s[k] < t[k])
  }

  lemma {:induction false} HexOrder(a: nat, b: nat, width: nat)
    requires a < b < Pow16(width)
    ensures LexLess(Hex(a, width), Hex(b, width))
  {
    HexLength(a, width);
    HexLength(b, width);
    var s, t := Hex(a, width), Hex(b, width);
    assert width > 0;
    assert a / 16 < Pow16(width - 1) && b / 16 < Pow16(width - 1);
    HexLength(a / 16, width - 1);
    HexLength(b / 16, width - 1);
    var p, q := Hex(a / 16, width - 1), Hex(b / 16, width - 1);
    if a / 16 < b / 16 {
      HexOrder(a / 16, b / 16, width - 1);
      LexAppend(p, q, HexChar(a % 16), HexChar(b % 16));
    } else {
      assert a / 16 == b / 16 && a % 16 < b % 16;
      assert s[..width - 1] == t[..width - 1] && s[width - 1] < t[width - 1];
    }
  }

  lemma LexAppend(p: string, q: string, c: char, d: char)
    requires |p| == |q| && LexLess(p, q)
    ensures LexLess(p + [c], q + [d])
  {
    var k :| 0 <= k <= |p| && k < |q| && p[..k] == q[..k] && (k == |p| || p[k] < q[k]);
    assert (p + [c])[..k] == p[..k] && (q + [d])[..k] == q[..k];
  }

  function Dash(s: string, n: nat): string
    requires n <= |s|
  {
    s[..n] + "-" + s[n..]
  }

  lemma DashKeepsOrder(s: string, t: string, n: nat)
    requires |s| == |t| && n <= |s| && LexLess(s, t)
    ensures LexLess(Dash(s, n), Dash(t, n))
  {
    var k :| 0 <= k <= |s| && k < |t| && s[..k] == t[..k] && (k == |s| || s[k] < t[k]);
    var a, b := Dash(s, n), Dash(t, n);
    if k < n {
      assert a[..k] == s[..k] && b[..k] == t[..k];
    } else {
      assert s[..n] == s[..k][..n] && t[..n] == t[..k][..n];
      assert s[n..k] == s[..k][n..] && t[n..k] == t[..k][n..];
      assert a[..k + 1] == s[..n] + "-" + s[n..k] && b[..k + 1] == t[..n] + "-" + t[n..k];
      assert a[k + 1] == s[k] && b[k + 1] == t[k];
    }
  }

  lemma {:induction false} TextIsDashed(value: nat)
    requires |Hex(value, 32)| == 32
    ensures var h := Hex(value, 32); Text(value) == Dash(Dash(Dash(Dash(h, 8), 13), 18), 23)
  {
    hide Hex;
  }

  lemma TextOrder(a: nat, b: nat)
    requires a < b < P128
    ensures LexLess(Text(a), Text(b))
  {
    Pow16Of32();
    HexLength(a, 32);
    HexLength(b, 32);
    HexOrder(a, b, 32);
    hide Hex, Pow16, LexLess;
    var s, t := Hex(a, 32), Hex(b, 32);
    TextIsDashed(a);
    TextIsDashed(b);
    DashKeepsOrder(s, t, 8);
    DashKeepsOrder(Dash(s, 8), Dash(t, 8), 13);
    DashKeepsOrder(Dash(Dash(s, 8), 13), Dash(Dash(t, 8), 13), 18);
    DashKeepsOrder(Dash(Dash(Dash(s, 8), 13), 18), Dash(Dash(Dash(t, 8), 13), 18), 23);
  }

  lemma Pow16Of32()
    ensures Pow16(32) == P128
  {
    assert Pow16(8) == 0x1_0000_0000;
    assert Pow16(16) == 0x1_0000_0000_0000_0000;
    assert Pow16(24) == 0x1_0000_0000_0000_0000_0000_0000;
  }

  // ---- Monotonicity ----

  /** The state after the first `n` calls. */
  function After(s: State, readings: seq<Reading>, n: nat): State
    requires n <= |readings|
  {
    if n == 0 then s else NextState(After(s, readings, n - 1), readings[n - 1])
  }

  ghost predicate ReadingsOk(readings: seq<Reading>) {
    forall i :: 0 <= i < |readings| ==> ReadingOk(readings[i])
  }

  function IdAt(s: State, readings: seq<Reading>, n: nat): nat
    requires n < |readings|
  {
    Layout(After(s, readings, n + 1), readings[n].rand62)
  }

  lemma {:induction false} AfterIsLater(s: State, readings: seq<Reading>, m: nat, n: nat)
    requires StateOk(s) && ReadingsOk(readings) && m <= n <= |readings|
    ensures StateOk(After(s, readings, m)) && StateOk(After(s, readings, n))
    ensures m < n ==> Later(After(s, readings, m), After(s, readings, n))
    decreases n
  {
    if n > 0 {
      if m < n { AfterIsLater(s, readings, m, n - 1); } else { AfterIsLater(s, readings, n - 1, n - 1); }
    }
  }

  /** For any clock readings, repeated or going backwards, and any random bits, later
      ids are greater numbers; as texts they are greater while the time field holds. */
  lemma {:induction false} IdsAscend(s: State, readings: seq<Reading>, i: nat, j: nat)
    requires StateOk(s) && ReadingsOk(readings) && i < j < |readings|
    ensures IdAt(s, readings, i) < IdAt(s, readings, j)
    ensures After(s, readings, j + 1).lastMs < MS_LIMIT ==>
      LexLess(Text(IdAt(s, readings, i)), Text(IdAt(s, readings, j)))
  {
    AfterIsLater(s, readings, i + 1, j + 1);
    hide Layout, Text, LexLess, After;
    var t, u := After(s, readings, i + 1), After(s, readings, j + 1);
    if u.lastMs < MS_LIMIT {
      TextOrder(IdAt(s, readings, i), IdAt(s, readings, j));
    }
  }

  /** The time field of an id is never below a clock reading so far. */
  lemma {:induction false} TimeReachesClock(s: State, readings: seq<Reading>, i: nat, n: nat)
    requires StateOk(s) && ReadingsOk(readings) && i <= n < |readings|
    ensures IdAt(s, readings, n) / P80 >= readings[i].clock % MS_LIMIT
    ensures IdAt(s, readings, n) / P80 >= s.lastMs
  {
    AfterIsLater(s, readings, 0, n + 1);
    AfterIsLater(s, readings, i, i + 1);
    AfterIsLater(s, readings, i + 1, n + 1);
    Fields(After(s, readings, n + 1), readings[n].rand62);
    TimeOfNext(After(s, readings, i), readings[i]);
    Fields(After(s, readings, i + 1), readings[i].rand62);
    hide Layout;
  }

  /** It runs ahead of the start and of all readings by at most one millisecond for
      every 4096 ids. */
  lemma {:induction false} TimeStaysNear(s: State, readings: seq<Reading>, n: nat, bound: nat)
    requires StateOk(s) && ReadingsOk(readings) && n <= |readings| && s.lastMs <= bound
    requires forall i :: 0 <= i < n ==> readings[i].clock % MS_LIMIT <= bound
    ensures var t := After(s, readings, n);
      t.lastMs <= bound || (t.lastMs - bound - 1) * 4096 + t.lastCounter < n
  {
    if n > 0 {
      TimeStaysNear(s, readings, n - 1, bound);
      AfterIsLater(s, readings, n - 1, n);
      assert ReadingOk(readings[n - 1]);
    }
  }

  // ---- Reading the text ----

  function DigitOf(c: char): nat {
    if '0' <= c <= '9' then (c - '0') as nat else if 'a' <= c <= 'f' then (c - 'a') as nat + 10 else 0
  }

  /** The number that hexadecimal digits stand for. */
  function ParseHex(h: string): nat {
    if h == "" then 0 else 16 * ParseHex(h[..|h| - 1]) + DigitOf(h[|h| - 1])
  }

  lemma {:induction false} HexReadsBack(v: nat, width: nat)
    ensures ParseHex(Hex(v, width)) == v
    decreases v + width
  {
    if v > 0 || width > 0 {
      var init := Hex(v / 16, if width > 0 then width - 1 else 0);
      HexReadsBack(v / 16, if width > 0 then width - 1 else 0);
      assert Hex(v, width)[..|init|] == init;
      assert DigitOf(HexChar(v % 16)) == v % 16;
    }
  }

  function DropDigits(v: nat, k: nat): nat {
    if k == 0 then v else DropDigits(v / 16, k - 1)
  }

  lemma {:induction false} DropDivides(v: nat, k: nat)
    ensures DropDigits(v, k) == v / Pow16(k)
  {
    if k > 0 {
      DropDivides(v / 16, k - 1);
      DivideTwice(v, Pow16(k - 1));
    }
  }

  /** The digits without the last `k`. */
  lemma {:induction false} HexPrefix(v: nat, width: nat, k: nat)
    requires v < Pow16(width) && k <= width
    ensures |Hex(v, width)| == width
    ensures Hex(v, width)[..width - k] == Hex(DropDigits(v, k), width - k)
  {
    HexLength(v, width);
    if k > 0 {
      assert v / 16 < Pow16(width - 1);
      HexPrefix(v / 16, width - 1, k - 1);
      assert Hex(v, width)[..width - k] == Hex(v / 16, width - 1)[..width - k];
    } else {
      assert Hex(v, width)[..width] == Hex(v, width);
    }
  }

  /** From the text without its hyphens the whole number is read back, and from its first
      twelve digits the time. */
  lemma TextReadsBack(v: nat)
    requires v < P128
    ensures var t := Text(v);
      && |t| == 36
      && ParseHex(t[0..8] + t[9..13] + t[14..18] + t[19..23] + t[24..36]) == v
      && ParseHex(t[0..8] + t[9..13]) == v / P80
  {
    hide Hex, ParseHex, Pow16, DropDigits;
    TopDigits(v);
    HexReadsBack(v, 32);
    HexReadsBack(v / P80, 12);
    Undashed(Hex(v, 32));
  }

  lemma {:induction false} TopDigits(v: nat)
    requires v < P128
    ensures |Hex(v, 32)| == 32 && Hex(v, 32)[..12] == Hex(v / P80, 12)
  {
    hide Hex, Pow16, DropDigits;
    Pow16Of32();
    Pow16Of20();
    DropDivides(v, 20);
    HexPrefix(v, 32, 20);
  }

  lemma Undashed(h: string)
    requires |h| == 32
    ensures var t := h[0..8] + "-" + h[8..12] + "-" + h[12..16] + "-" + h[16..20] + "-" + h[20..32];
      && |t| == 36
      && t[0..8] + t[9..13] == h[..12]
      && t[0..8] + t[9..13] + t[14..18] + t[19..23] + t[24..36] == h
  {
    var t := h[0..8] + "-" + h[8..12] + "-" + h[12..16] + "-" + h[16..20] + "-" + h[20..32];
    assert t[0..8] == h[0..8] && t[9..13] == h[8..12] && t[14..18] == h[12..16];
    assert t[19..23] == h[16..20] && t[24..36] == h[20..32];
    assert h[0..8] + h[8..12] == h[..12];
    assert h[..12] + h[12..16] == h[..16] && h[..16] + h[16..20] == h[..20] && h[..20] + h[20..32] == h;
  }

  lemma Pow16Of20()
    ensures Pow16(20) == P80
  {
    SmallPow16();
  }

  // ---- Fixed fields ----

  lemma {:induction false} HexDigitAt(v: nat, width: nat, i: nat)
    requires v < Pow16(width) && i < width
    ensures |Hex(v, width)| == width
      && Hex(v, width)[i] == HexChar((v / Pow16(width - 1 - i)) % 16)
  {
    HexLength(v, width);
    if i < width - 1 {
      assert v / 16 < Pow16(width - 1);
      HexDigitAt(v / 16, width - 1, i);
      DivideTwice(v, Pow16(width - 2 - i));
    }
  }

  lemma DivideTwice(v: nat, p: nat)
    requires p > 0
    ensures (v / 16) / p == v / (16 * p)
  {
    var q := v / (16 * p);
    var r := v % (16 * p);
    assert v == q * (16 * p) + r;
    assert v / 16 == q * p + r / 16;
    assert r / 16 < p;
    DivUnique(v / 16, p, q, r / 16);
  }

  lemma DivUnique(x: nat, p: nat, q: nat, r: nat)
    requires p > 0 && x == q * p + r && r < p
    ensures x / p == q
  {
    assert x == (x / p) * p + x % p;
    MulGap(x / p, q, p);
    MulGap(q, x / p, p);
  }

  lemma MulGap(d: nat, q: nat, p: nat)
    ensures d > q ==> d * p >= q * p + p
  {
    if d > q {
      assert (q + 1) * p == q * p + p;
    }
  }

  lemma SmallPow16()
    ensures Pow16(15) == P60 && Pow16(19) == P76
  {
    assert Pow16(4) == 0x1_0000;
    assert Pow16(8) == 0x1_0000_0000;
    assert Pow16(12) == 0x1_0000_0000_0000;
    assert Pow16(16) == P64;
  }

  lemma FieldDigits(s: State, rand62: nat)
    requires StateOk(s) && rand62 < P62 && s.lastMs < MS_LIMIT
    ensures var h := Hex(Layout(s, rand62), 32); |h| == 32 && h[12] == '7' && h[16] in "89ab"
  {
    var v := Layout(s, rand62);
    Pow16Of32();
    SmallPow16();
    HexDigitAt(v, 32, 12);
    HexDigitAt(v, 32, 16);
    VersionDigit(s, rand62);
    VariantDigit(s, rand62);
    hide Hex, Pow16, Layout;
  }

  /** Every id has the hyphens, version 7 and the RFC variant in their places. */
  lemma FixedFields(s: State, rand62: nat)
    requires StateOk(s) && rand62 < P62 && s.lastMs < MS_LIMIT
    ensures var t := Text(Layout(s, rand62));
      |t| == 36 && t[8] == t[13] == t[18] == t[23] == '-' && t[14] == '7' && t[19] in "89ab"
  {
    hide Hex, Layout;
    FieldDigits(s, rand62);
    var h := Hex(Layout(s, rand62), 32);
    assert Text(Layout(s, rand62))[14] == h[12] && Text(Layout(s, rand62))[19] == h[16];
  }

  lemma VersionDigit(s: State, rand62: nat)
    requires StateOk(s) && rand62 < P62
    ensures (Layout(s, rand62) / P76) % 16 == 7
  {
    var low := s.lastCounter * P64 + 2 * P62 + rand62;
    assert Layout(s, rand62) == P76 * (16 * s.lastMs + 7) + low && low < P76;
    assert Layout(s, rand62) / P76 == 16 * s.lastMs + 7;
  }

  lemma VariantDigit(s: State, rand62: nat)
    requires StateOk(s) && rand62 < P62
    ensures 8 <= (Layout(s, rand62) / P60) % 16 <= 11
  {
    var q, low := rand62 / P60, rand62 % P60;
    var high := s.lastMs * 0x1_0000 + 7 * 0x1000 + s.lastCounter;
    assert q < 4;
    assert Layout(s, rand62) == (16 * high + 8 + q) * P60 + low;
    DivUnique(Layout(s, rand62), P60, 16 * high + 8 + q, low);
    hide Layout;
    assert (16 * high + (8 + q)) % 16 == 8 + q;
  }

  // ---- The limit of the time field ----

  lemma {:induction false} WiderHex(v: nat, width: nat)
    requires v >= Pow16(width)
    ensures Hex(v, width) == Hex(v, width + 1)
    decreases width
  {
    if width > 0 {
      assert v / 16 >= Pow16(width - 1);
      WiderHex(v / 16, width - 1);
    }
  }

  lemma {:induction false} LeadingF(v: nat)
    requires P128 - P80 <= v < P128
    ensures Hex(v, 32) != "" && Hex(v, 32)[0] == 'f'
  {
    Pow16Of32();
    HexDigitAt(v, 32, 0);
    assert Pow16(31) == P128 / 16;
    hide Pow16, Hex;
    assert (v / (P128 / 16)) % 16 == 15;
  }

  lemma {:induction false} LeadingOne(w: nat)
    requires P128 <= w < P128 + P80
    ensures Hex(w, 32) != "" && Hex(w, 32)[0] == '1'
  {
    hide Hex;
    Pow16Of32();
    assert Pow16(33) == 16 * P128;
    WiderHex(w, 32);
    HexDigitAt(w, 33, 0);
  }

  /** The next id is a greater text exactly when its time still fits in 48 bits. */
  lemma TextsAscendUntilTheLimit(s: State, a: nat, r: Reading)
    requires StateOk(s) && ReadingOk(r) && a < P62 && s.lastMs < MS_LIMIT
    ensures LexLess(Text(Layout(s, a)), Text(Layout(NextState(s, r), r.rand62))) <==>
      NextState(s, r).lastMs < MS_LIMIT
  {
    var t := NextState(s, r);
    if t.lastMs < MS_LIMIT {
      TextOrder(Layout(s, a), Layout(t, r.rand62));
    } else {
      AtTheLimit(s, a, t, r.rand62);
    }
  }

  lemma AtTheLimit(s: State, a: nat, t: State, b: nat)
    requires StateOk(s) && a < P62 && b < P62 && s.lastMs == MS_LIMIT - 1
      && t == State(MS_LIMIT, 0)
    ensures !LexLess(Text(Layout(s, a)), Text(Layout(t, b)))
  {
    var v, w := Layout(s, a), Layout(t, b);
    LeadingF(v);
    LeadingOne(w);
    HexAtLeast(v, 32);
    HexAtLeast(w, 32);
    hide Hex, Layout;
    var x, y := Text(v), Text(w);
    assert x[0] == 'f' && y[0] == '1';
  }
}
