/**
 * The checksum of Modbus over serial line (MODBUS over Serial Line V1.02, section 6.2.2): a shift
 * register of 16 bits, fed with bytes, lowest bit first.
 */
module Crc16 {
  // ---------- The register ----------

  /** One shift of the register: the bit that falls out is added to bits 15, 13 and 0. */
  function Shift(r: bv16): bv16 {
    (r >> 1) ^ ((r & 1) << 15) ^ ((r & 1) << 13) ^ (r & 1)
  }

  /** The register after n shifts. */
  function Shifts(r: bv16, n: nat): bv16 {
    if n == 0 then r else Shift(Shifts(r, n - 1))
  }

  function BitsPerByte(): nat {
    8
  }

  /** The register with a byte added to it. */
  function Added(r: bv16, b: bv8): bv16 {
    r ^ (b as bv16)
  }

  function Feed(r: bv16, b: bv8): bv16 {
    Shifts(Added(r, b), BitsPerByte())
  }

  function FeedAll(r: bv16, s: seq<bv8>): bv16
    decreases |s|
  {
    if s == [] then r else Feed(FeedAll(r, s[..|s| - 1]), s[|s| - 1])
  }

  /** The checksum of a message. */
  function Crc(s: seq<bv8>): bv16 {
    FeedAll(0xFFFF, s)
  }

  function Shift8(r: bv16): bv16 {
    Shift(Shift(Shift(Shift(Shift(Shift(Shift(Shift(r))))))))
  }

  lemma EightShifts(r: bv16)
    ensures Shifts(r, BitsPerByte()) == Shift8(r)
  {
    var n := 1;
    assert Shifts(r, n) == Shift(r);
    assert Shifts(r, n + 1) == Shift(Shifts(r, n));
    assert Shifts(r, n + 2) == Shift(Shifts(r, n + 1));
    assert Shifts(r, n + 3) == Shift(Shifts(r, n + 2));
    assert Shifts(r, n + 4) == Shift(Shifts(r, n + 3));
    assert Shifts(r, n + 5) == Shift(Shifts(r, n + 4));
    assert Shifts(r, n + 6) == Shift(Shifts(r, n + 5));
    assert Shifts(r, n + 7) == Shift(Shifts(r, n + 6));
  }

  /** The shift as the code makes it, with a branch and a constant. */
  lemma ShiftByBranch(r: bv16)
    ensures Shift(r) == if r & 1 == 1 then (r >> 1) ^ 0xA001 else r >> 1
  {
    OneBit(r);
    if r & 1 == 1 {
      var s := r >> 1;
      assert ((s ^ 0x8000) ^ 0x2000) ^ 1 == s ^ 0xA001;
    }
  }

  lemma OneBit(r: bv16)
    ensures r & 1 == 0 || r & 1 == 1
  {
  }

  method FeedByte(crc: bv16, b: bv8) returns (r: bv16)
    ensures r == Feed(crc, b)
  {
    r := crc ^ (b as bv16);
    ghost var fed := r;
    for i := 0 to BitsPerByte()
      invariant r == Shifts(fed, i)
    {
      ShiftByBranch(r);
      if r & 1 == 1 {
        r := r >> 1;
        r := r ^ 0xA001;
      } else {
        r := r >> 1;
      }
    }
  }

  method CalculateModbusCrc16(buf: array<bv8>, len: nat) returns (crc: bv16)
    requires len <= buf.Length
    ensures crc == Crc(buf[..len])
    ensures len >= 2 ==> crc == FeedAll(0, [buf[0] ^ 0xFF, buf[1] ^ 0xFF] + buf[2..len])
  {
    crc := 0xFFFF;
    var left, p := len, 0;
    while left > 0
      invariant p + left == len
      invariant crc == Crc(buf[..p])
    {
      left := left - 1;
      crc := FeedByte(crc, buf[p]);
      assert buf[..p + 1][..p] == buf[..p];
      p := p + 1;
    }
    if len >= 2 {
      CrcOfInverted(buf[..len]);
      assert buf[..len][2..] == buf[2..len];
    }
  }

  // ---------- The register is linear and loses nothing ----------

  lemma ShiftIsLinear(x: bv16, y: bv16)
    ensures Shift(x ^ y) == Shift(x) ^ Shift(y)
  {
  }

  lemma {:induction false} ShiftsAreLinear(x: bv16, y: bv16, z: bv16, n: nat)
    requires z == x ^ y
    ensures Shifts(z, n) == Shifts(x, n) ^ Shifts(y, n)
  {
    if n > 0 {
      ShiftsAreLinear(x, y, z, n - 1);
      ShiftIsLinear(Shifts(x, n - 1), Shifts(y, n - 1));
    }
  }

  /** Feeding is linear in the register and the byte together. */
  lemma FeedIsLinear(x: bv16, y: bv16, z: bv16, b: bv8, c: bv8, d: bv8)
    requires z == x ^ y && d == b ^ c
    ensures Feed(z, d) == Feed(x, b) ^ Feed(y, c)
  {
    Regroup(x, y, z, b, c, d);
    ShiftsAreLinear(Added(x, b), Added(y, c), Added(z, d), BitsPerByte());
  }

  lemma Regroup(x: bv16, y: bv16, z: bv16, b: bv8, c: bv8, d: bv8)
    requires z == x ^ y && d == b ^ c
    ensures Added(z, d) == Added(x, b) ^ Added(y, c)
  {
  }

  lemma Shift8LosesNothing(r: bv16)
    ensures Shift8(r) == 0 <==> r == 0
  {
  }

  /** Eight shifts lose nothing. */
  lemma ShiftsLoseNothing(r: bv16)
    ensures Shifts(r, BitsPerByte()) == 0 <==> r == 0
  {
    EightShifts(r);
    Shift8LosesNothing(r);
  }

  lemma XorIsDifference(x: bv16, y: bv16)
    ensures x == y <==> x ^ y == 0
  {
  }

  lemma {:induction false} FeedAllConcat(r: bv16, s: seq<bv8>, t: seq<bv8>)
    ensures FeedAll(r, s + t) == FeedAll(FeedAll(r, s), t)
    decreases |t|
  {
    if t == [] {
      assert s + t == s;
    } else {
      var init := t[..|t| - 1];
      assert (s + t)[..|s + t| - 1] == s + init;
      FeedAllConcat(r, s, init);
    }
  }

  /** Registers that differ still differ after the same bytes. */
  lemma {:induction false} DifferenceSurvives(x: bv16, y: bv16, s: seq<bv8>)
    requires x != y
    ensures FeedAll(x, s) != FeedAll(y, s)
    decreases |s|
  {
    if s == [] {
    } else {
      var init, b := s[..|s| - 1], s[|s| - 1];
      DifferenceSurvives(x, y, init);
      var u, v := FeedAll(x, init), FeedAll(y, init);
      FeedKeepsDifference(u, v, b);
    }
  }

  lemma FeedKeepsDifference(u: bv16, v: bv16, b: bv8)
    requires u != v
    ensures Feed(u, b) != Feed(v, b)
  {
    NothingFed(u ^ v, b);
    FeedIsLinear(u, v, u ^ v, b, b, 0);
    ShiftsLoseNothing(u ^ v);
    XorIsDifference(u, v);
    XorIsDifference(Feed(u, b), Feed(v, b));
  }

  lemma NothingFed(r: bv16, b: bv8)
    ensures b ^ b == 0 && r ^ (0 as bv16) == r
  {
  }

  // ---------- Bursts of errors ----------

  /** The lowest bits of a byte, up to some place. */
  predicate LowBits(mask: bv8) {
    || mask == 0 || mask == 1 || mask == 3 || mask == 7 || mask == 15
    || mask == 31 || mask == 63 || mask == 127 || mask == 255
  }

  /**
   * Two messages differ at most in a burst of 16 bits on the line, where the lowest bit of a byte goes
   * first: from some bit of the byte at p to the same place of the byte at p + 2.
   */
  predicate Burst(f: seq<bv8>, g: seq<bv8>, p: nat, mask: bv8) {
    && |f| == |g| && p + 2 < |f| && LowBits(mask)
    && (f[p] ^ g[p]) & mask == 0
    && (f[p + 2] ^ g[p + 2]) & mask == f[p + 2] ^ g[p + 2]
    && f[..p] == g[..p] && f[p + 3..] == g[p + 3..]
  }

  lemma ShiftedBurst(e0: bv16, e1: bv16, e2: bv16, mask: bv16)
    requires e0 < 256 && e1 < 256 && e2 < 256 && mask < 256 && LowBits(mask as bv8)
    requires e0 & mask == 0 && e2 & mask == e2
    requires Shift8(Shift8(e0) ^ e1) == e2
    ensures e0 == 0 && e1 == 0 && e2 == 0
  {
  }

  lemma Widened(e: bv8, mask: bv8)
    ensures (e as bv16) & (mask as bv16) == (e & mask) as bv16 && (e as bv16) < 256
  {
  }

  /** Eight shifts of 24 bits that span at most 16 never come to the last byte. */
  lemma BurstIsSeen(e0: bv8, e1: bv8, e2: bv8, mask: bv8)
    requires LowBits(mask) && e0 & mask == 0 && e2 & mask == e2
    requires Shift8(Added(Shift8(e0 as bv16), e1)) == e2 as bv16
    ensures e0 == 0 && e1 == 0 && e2 == 0
  {
    Widened(e0, mask);
    Widened(e2, mask);
    Widened(e1, mask);
    ShiftedBurst(e0 as bv16, e1 as bv16, e2 as bv16, mask as bv16);
  }

  function Feed3(r: bv16, a: bv8, b: bv8, c: bv8): bv16 {
    Feed(Feed(Feed(r, a), b), c)
  }

  lemma ThreeBytes(r: bv16, s: seq<bv8>, p: nat)
    requires p + 2 < |s|
    ensures FeedAll(r, s) == FeedAll(Feed3(FeedAll(r, s[..p]), s[p], s[p + 1], s[p + 2]), s[p + 3..])
  {
    var head := s[..p + 3];
    assert s == head + s[p + 3..];
    FeedAllConcat(r, head, s[p + 3..]);
    assert head[..p + 2] == s[..p + 2] && s[..p + 2][..p + 1] == s[..p + 1] && s[..p + 1][..p] == s[..p];
    assert FeedAll(r, head) == Feed(FeedAll(r, s[..p + 2]), s[p + 2]);
    assert FeedAll(r, s[..p + 2]) == Feed(FeedAll(r, s[..p + 1]), s[p + 1]);
    assert FeedAll(r, s[..p + 1]) == Feed(FeedAll(r, s[..p]), s[p]);
  }

  /** Two registers that are fed a byte each then differ by what eight shifts make of the differences before. */
  lemma FedDifference(u: bv16, v: bv16, d: bv16, b: bv8, y: bv8)
    requires d == u ^ v
    ensures Feed(u, b) ^ Feed(v, y) == Shift8(Added(d, b ^ y))
  {
    FeedIsLinear(u, v, d, b, y, b ^ y);
    EightShifts(Added(d, b ^ y));
  }

  /** From the same register, two bytes lead to what eight shifts make of their difference. */
  lemma FirstDifference(r: bv16, a: bv8, x: bv8)
    ensures Feed(r, a) ^ Feed(r, x) == Shift8((a ^ x) as bv16)
  {
    XorIsDifference(r, r);
    NothingAdded(a ^ x);
    FedDifference(r, r, r ^ r, a, x);
  }

  lemma NothingAdded(b: bv8)
    ensures Added(0, b) == b as bv16
  {
  }

  /** Two registers become the same only if they differ by as much as the bytes they are fed. */
  lemma LastDifference(u: bv16, v: bv16, c: bv8, z: bv8)
    requires Feed(u, c) == Feed(v, z)
    ensures u ^ v == (c ^ z) as bv16
  {
    FeedIsLinear(u, v, u ^ v, c, z, c ^ z);
    XorIsDifference(Feed(u, c), Feed(v, z));
    FedToZero(u ^ v, c ^ z);
  }

  lemma TwoDifferences(r: bv16, a: bv8, b: bv8, x: bv8, y: bv8)
    ensures Feed(Feed(r, a), b) ^ Feed(Feed(r, x), y) == Shift8(Added(Shift8((a ^ x) as bv16), b ^ y))
  {
    FirstDifference(r, a, x);
    FedDifference(Feed(r, a), Feed(r, x), Shift8((a ^ x) as bv16), b, y);
  }

  lemma DifferencesMeet(r: bv16, a: bv8, b: bv8, c: bv8, x: bv8, y: bv8, z: bv8)
    requires Feed3(r, a, b, c) == Feed3(r, x, y, z)
    ensures Shift8(Added(Shift8((a ^ x) as bv16), b ^ y)) == (c ^ z) as bv16
  {
    TwoDifferences(r, a, b, x, y);
    LastDifference(Feed(Feed(r, a), b), Feed(Feed(r, x), y), c, z);
  }

  lemma SameByte(x: bv8, y: bv8)
    ensures x ^ y == 0 <==> x == y
  {
  }

  lemma BurstOfBytes(a: bv8, b: bv8, c: bv8, x: bv8, y: bv8, z: bv8, mask: bv8)
    requires LowBits(mask) && (a ^ x) & mask == 0 && (c ^ z) & mask == c ^ z
    requires Shift8(Added(Shift8((a ^ x) as bv16), b ^ y)) == (c ^ z) as bv16
    ensures a == x && b == y && c == z
  {
    BurstIsSeen(a ^ x, b ^ y, c ^ z, mask);
    SameByte(a, x);
    SameByte(b, y);
    SameByte(c, z);
  }

  /** Bytes that differ in a burst of at most 16 bits lead a register to the same value only if they are the same. */
  lemma BurstShows(r: bv16, a: bv8, b: bv8, c: bv8, x: bv8, y: bv8, z: bv8, mask: bv8)
    requires LowBits(mask) && (a ^ x) & mask == 0 && (c ^ z) & mask == c ^ z
    requires Feed3(r, a, b, c) == Feed3(r, x, y, z)
    ensures a == x && b == y && c == z
  {
    DifferencesMeet(r, a, b, c, x, y, z);
    BurstOfBytes(a, b, c, x, y, z, mask);
  }

  lemma SameMessage(f: seq<bv8>, g: seq<bv8>, p: nat)
    requires |f| == |g| && p + 2 < |f| && f[..p] == g[..p] && f[p + 3..] == g[p + 3..]
    requires f[p] == g[p] && f[p + 1] == g[p + 1] && f[p + 2] == g[p + 2]
    ensures f == g
  {
    assert f == f[..p] + [f[p], f[p + 1], f[p + 2]] + f[p + 3..];
    assert g == g[..p] + [g[p], g[p + 1], g[p + 2]] + g[p + 3..];
  }

  lemma BurstInMessage(r: bv16, f: seq<bv8>, g: seq<bv8>, p: nat, mask: bv8)
    requires Burst(f, g, p, mask)
    requires Feed3(r, f[p], f[p + 1], f[p + 2]) == Feed3(r, g[p], g[p + 1], g[p + 2])
    ensures f == g
  {
    BurstShows(r, f[p], f[p + 1], f[p + 2], g[p], g[p + 1], g[p + 2], mask);
    SameMessage(f, g, p);
  }

  lemma BurstChangesRegister(start: bv16, f: seq<bv8>, g: seq<bv8>, p: nat, mask: bv8)
    requires Burst(f, g, p, mask)
    ensures FeedAll(start, f) == FeedAll(start, g) <==> f == g
  {
    ThreeBytes(start, f, p);
    ThreeBytes(start, g, p);
    var r := FeedAll(start, f[..p]);
    var u, v := Feed3(r, f[p], f[p + 1], f[p + 2]), Feed3(r, g[p], g[p + 1], g[p + 2]);
    if u == v {
      BurstInMessage(r, f, g, p, mask);
    } else {
      DifferenceSurvives(u, v, f[p + 3..]);
    }
  }

  /** A burst of errors of up to 16 bits always changes the checksum. */
  lemma BurstChangesCrc(f: seq<bv8>, g: seq<bv8>, p: nat, mask: bv8)
    requires Burst(f, g, p, mask)
    ensures Crc(f) == Crc(g) <==> f == g
  {
    BurstChangesRegister(0xFFFF, f, g, p, mask);
  }

  // ---------- The checksum closes a message ----------

  function Low(c: bv16): bv8 {
    (c & 0xFF) as bv8
  }

  function High(c: bv16): bv8 {
    (c >> 8) as bv8
  }

  lemma ShiftedClose(c: bv16, lo: bv16, hi: bv16)
    requires lo < 256 && hi < 256
    ensures Shift8(c ^ lo) == hi <==> lo == c & 0xFF && hi == c >> 8
  {
  }

  lemma LowAndHigh(c: bv16, lo: bv8, hi: bv8)
    ensures (lo as bv16) < 256 && (hi as bv16) < 256
    ensures lo as bv16 == c & 0xFF <==> lo == Low(c)
    ensures hi as bv16 == c >> 8 <==> hi == High(c)
  {
  }

  lemma FedLow(c: bv16, lo: bv8, hi: bv8)
    ensures Feed(c, lo) == hi as bv16 <==> lo == Low(c) && hi == High(c)
  {
    LowAndHigh(c, lo, hi);
    EightShifts(Added(c, lo));
    ShiftedClose(c, lo as bv16, hi as bv16);
  }

  lemma OwnBytes(c: bv16, lo: bv8, hi: bv8)
    ensures Feed(Feed(c, lo), hi) == 0 <==> lo == Low(c) && hi == High(c)
  {
    FedLow(c, lo, hi);
    FedToZero(Feed(c, lo), hi);
  }

  lemma FedToZero(r: bv16, b: bv8)
    ensures Feed(r, b) == 0 <==> r == b as bv16
  {
    ShiftsLoseNothing(Added(r, b));
    XorIsDifference(r, b as bv16);
  }

  /** A message followed by two bytes has checksum zero exactly if they are its own checksum, low byte first. */
  lemma ChecksumCloses(s: seq<bv8>, lo: bv8, hi: bv8)
    ensures Crc(s + [lo, hi]) == 0 <==> lo == Low(Crc(s)) && hi == High(Crc(s))
  {
    var t := s + [lo, hi];
    assert t[..|t| - 1] == s + [lo] && (s + [lo])[..|s|] == s;
    assert Crc(t) == Feed(Crc(s + [lo]), hi) && Crc(s + [lo]) == Feed(Crc(s), lo);
    OwnBytes(Crc(s), lo, hi);
  }

  // ---------- Where the register starts ----------

  lemma PresetOfByte(a: bv8)
    ensures Added(0xFFFF, a) == Added(0, a ^ 0xFF) ^ 0xFF00
  {
  }

  lemma HighByteFalls()
    ensures Shifts(0xFF00, BitsPerByte()) == 0xFF
  {
    EightShifts(0xFF00);
  }

  lemma InvertedByte(r: bv16, b: bv8)
    ensures Added(r ^ 0xFF, b) == Added(r, b ^ 0xFF)
  {
  }

  /** Two bytes fed to the preset register are the two inverted bytes fed to an empty one. */
  lemma PresetInverts(a: bv8, b: bv8)
    ensures Feed(Feed(0xFFFF, a), b) == Feed(Feed(0, a ^ 0xFF), b ^ 0xFF)
  {
    PresetOfByte(a);
    HighByteFalls();
    ShiftsAreLinear(Added(0, a ^ 0xFF), 0xFF00, Added(0xFFFF, a), BitsPerByte());
    InvertedByte(Feed(0, a ^ 0xFF), b);
  }

  lemma TwoBytes(r: bv16, a: bv8, b: bv8)
    ensures FeedAll(r, [a, b]) == Feed(Feed(r, a), b)
  {
    assert [a, b][..1] == [a] && [a][..0] == [];
    assert FeedAll(r, [a]) == Feed(FeedAll(r, []), a);
  }

  /** The checksum is what an empty register makes of the message with its first sixteen bits inverted. */
  lemma CrcOfInverted(s: seq<bv8>)
    requires |s| >= 2
    ensures Crc(s) == FeedAll(0, [s[0] ^ 0xFF, s[1] ^ 0xFF] + s[2..])
  {
    var a, b := s[0], s[1];
    assert s == [a, b] + s[2..];
    FeedAllConcat(0xFFFF, [a, b], s[2..]);
    FeedAllConcat(0, [a ^ 0xFF, b ^ 0xFF], s[2..]);
    TwoBytes(0xFFFF, a, b);
    TwoBytes(0, a ^ 0xFF, b ^ 0xFF);
    PresetInverts(a, b);
  }

  /** What the preset is for: a zero byte in front of a message changes its checksum. */
  lemma LeadingZeroShows(s: seq<bv8>)
    ensures Crc([0] + s) != Crc(s)
  {
    FeedAllConcat(0xFFFF, [0], s);
    assert [0][..0] == [];
    assert FeedAll(0xFFFF, [0]) == Feed(FeedAll(0xFFFF, []), 0);
    EightShifts(Added(0xFFFF, 0));
    DifferenceSurvives(Feed(0xFFFF, 0), 0xFFFF, s);
  }

  lemma FedByte(r: bv16, b: bv8)
    ensures Feed(r, b) == Shift8(Added(r, b))
  {
    EightShifts(Added(r, b));
  }

  /** A request to read ten registers from address 0 of device 1. */
  lemma KnownChecksum()
    ensures Crc([0x01, 0x03, 0x00, 0x00, 0x00, 0x0A]) == 0xCDC5
  {
    var s := [0x01, 0x03, 0x00, 0x00, 0x00, 0x0A];
    ThreeBytes(0xFFFF, s, 0);
    ThreeBytes(Feed3(0xFFFF, 0x01, 0x03, 0x00), s[3..], 0);
    KnownFirstHalf();
    KnownSecondHalf();
  }

  lemma KnownFirstHalf()
    ensures Feed3(0xFFFF, 0x01, 0x03, 0x00) == 0xF020
  {
    FedByte(0xFFFF, 0x01);
    FedByte(Feed(0xFFFF, 0x01), 0x03);
    FedByte(Feed(Feed(0xFFFF, 0x01), 0x03), 0x00);
  }

  lemma KnownSecondHalf()
    ensures Feed3(0xF020, 0x00, 0x00, 0x0A) == 0xCDC5
  {
    FedByte(0xF020, 0x00);
    FedByte(Feed(0xF020, 0x00), 0x00);
    FedByte(Feed(Feed(0xF020, 0x00), 0x00), 0x0A);
  }
}
