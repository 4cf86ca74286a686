/** Partition placement: the hash, the leased bands and the hash-derived bands, in Rust and in Go. */
module Bands {
  import opened Basics
  const I32_LIMIT: int := 0x8000_0000
  const ORDER_BAND_UNSET: nat := 0xffff_ffff

  /** Two's complement truncation to 32 bits. */
  function ToI32(x: int): (r: int)
    ensures -I32_LIMIT <= r < I32_LIMIT
    ensures -I32_LIMIT <= x < I32_LIMIT ==> r == x
  {
    (x + I32_LIMIT) % (2 * I32_LIMIT) - I32_LIMIT
  }

  /** Remainder with the sign of the dividend. */
  function Rem(a: int, n: nat): int
    requires n > 0
  {
    if a >= 0 then a % n else -((-a) % n)
  }

  /** Quotient truncated toward zero. */
  function Quot(a: int, n: nat): int
    requires n > 0
  {
    if a >= 0 then a / n else -((-a) / n)
  }

  // ----- The hash -----

  /** One round of FNV-1a: mix a byte in, then multiply, both in 64 bits. */
  function Round(h: bv64, b: bv8): bv64 {
    (h ^ (b as bv64)) * 0x100000001b3
  }

  /** FNV-1a over bytes. */
  function Fnv1a(bytes: seq<bv8>): bv64 {
    if bytes == [] then 0xcbf29ce484222325 else Round(Fnv1a(bytes[..|bytes| - 1]), bytes[|bytes| - 1])
  }

  method Hash(bytes: seq<bv8>) returns (h: bv64)
    ensures h == Fnv1a(bytes)
  {
    hide Round;
    h := 0xcbf29ce484222325;
    for i := 0 to |bytes|
      invariant h == Fnv1a(bytes[..i])
    {
      assert bytes[..i + 1][..i] == bytes[..i];
      h := Round(h, bytes[i]);
    }
    assert bytes[..|bytes|] == bytes;
  }

  /** A byte goes into the hash of what precedes it. */
  lemma HashNext(bytes: seq<bv8>, b: bv8)
    ensures Fnv1a(bytes + [b]) == Round(Fnv1a(bytes), b)
  {
    assert (bytes + [b])[..|bytes|] == bytes;
  }

  /** The published test vectors for "", "f", "fo", "foo", "foob", "fooba" and "foobar". */
  lemma HashVectors()
    ensures Fnv1a([]) == 0xcbf29ce484222325
    ensures Fnv1a([0x66]) == 0xaf63db4c8601ead9 && Fnv1a([0x66, 0x6f]) == 0x08985907b541d342
    ensures Fnv1a([0x66, 0x6f, 0x6f]) == 0xdcb27518fed9d577
    ensures Fnv1a([0x66, 0x6f, 0x6f, 0x62]) == 0xdd120e790c2512af
    ensures Fnv1a([0x66, 0x6f, 0x6f, 0x62, 0x61]) == 0xcac165afa2fef40a
    ensures Fnv1a([0x66, 0x6f, 0x6f, 0x62, 0x61, 0x72]) == 0x85944171f73967e8
  {
    Rounds();
    hide Round;
    assert Fnv1a([]) == 0xcbf29ce484222325;
    hide Fnv1a;
    HashNext([], 0x66);
    assert [] + [0x66 as bv8] == [0x66];
    HashNext([0x66], 0x6f);
    assert [0x66 as bv8] + [0x6f] == [0x66, 0x6f];
    HashNext([0x66, 0x6f], 0x6f);
    assert [0x66 as bv8, 0x6f] + [0x6f] == [0x66, 0x6f, 0x6f];
    HashNext([0x66, 0x6f, 0x6f], 0x62);
    assert [0x66 as bv8, 0x6f, 0x6f] + [0x62] == [0x66, 0x6f, 0x6f, 0x62];
    HashNext([0x66, 0x6f, 0x6f, 0x62], 0x61);
    assert [0x66 as bv8, 0x6f, 0x6f, 0x62] + [0x61] == [0x66, 0x6f, 0x6f, 0x62, 0x61];
    HashNext([0x66, 0x6f, 0x6f, 0x62, 0x61], 0x72);
    assert [0x66 as bv8, 0x6f, 0x6f, 0x62, 0x61] + [0x72] == [0x66, 0x6f, 0x6f, 0x62, 0x61, 0x72];
  }

  lemma Rounds()
    ensures Round(0xcbf29ce484222325, 0x66) == 0xaf63db4c8601ead9
    ensures Round(0xaf63db4c8601ead9, 0x6f) == 0x08985907b541d342
    ensures Round(0x08985907b541d342, 0x6f) == 0xdcb27518fed9d577
    ensures Round(0xdcb27518fed9d577, 0x62) == 0xdd120e790c2512af
    ensures Round(0xdd120e790c2512af, 0x61) == 0xcac165afa2fef40a
    ensures Round(0xcac165afa2fef40a, 0x72) == 0x85944171f73967e8
  {
  }

  // ----- Leased bands -----

  function Clamp(width: int, n: nat): (w: nat)
    requires n > 0
    ensures 1 <= w <= n
  {
    if width < 1 then 1 else if width > n then n else width
  }

  /** Where a hash lands inside a leased band. */
  function BandPartition(band: nat, hash: nat, n: int, width: int): int {
    if n <= 1 then 0
    else
      var w := Clamp(width, n);
      var base := ToI32(band * w);
      Rem(ToI32(base + hash % w), n)
  }

  lemma SmallMod(x: nat, n: nat)
    requires x < n
    ensures x % n == x
  {
  }

  lemma BandFits(band: nat, w: nat, n: nat)
    requires w > 0 && band < n / w
    ensures band * w + w <= n
  {
    MulStep(band, n / w, w);
    assert n / w * w + n % w == n;
  }

  /** A leased band below the number of whole bands keeps its orders in its own stretch of partitions. */
  lemma LeasedBand(band: nat, hash: nat, n: nat, width: int)
    requires 1 < n < I32_LIMIT && band < n / Clamp(width, n)
    ensures var w := Clamp(width, n);
            BandPartition(band, hash, n, width) == band * w + hash % w && band * w + w <= n
  {
    hide ToI32;
    var w := Clamp(width, n);
    BandFits(band, w, n);
    var base := band * w;
    SmallMod(base + hash % w, n);
  }

  /** Sessions with different leased bands never share a partition. */
  lemma BandsExclusive(a: nat, b: nat, h: nat, k: nat, n: nat, width: int)
    requires 1 < n < I32_LIMIT && a != b && a < n / Clamp(width, n) && b < n / Clamp(width, n)
    ensures BandPartition(a, h, n, width) != BandPartition(b, k, n, width)
  {
    hide BandPartition;
    LeasedBand(a, h, n, width);
    LeasedBand(b, k, n, width);
    if a < b {
      MulStep(a, b, Clamp(width, n));
    } else {
      MulStep(b, a, Clamp(width, n));
    }
  }

  lemma WholeAndRest(n: nat, w: nat)
    requires 1 <= w <= n
    ensures n / w > 0 && n / w * w + n % w == n && n % w < w
  {
  }

  /** The band after the last whole one wraps onto partition 0, where band 0 starts. */
  lemma NextBandWraps(n: nat, width: int)
    requires 1 < n < I32_LIMIT
    ensures var w := Clamp(width, n);
            n / w > 0 && BandPartition(n / w, n % w, n, width) == BandPartition(0, 0, n, width)
  {
    hide ToI32;
    var w := Clamp(width, n);
    WholeAndRest(n, w);
    SmallMod(n % w, w);
    SmallMod(0, w);
    SmallMod(0, n);
    assert 0 * w == 0 && n % n == 0;
  }

  /** Where the width divides the topic, the next band repeats band 0 for every order id. */
  lemma NextBandRepeats(n: nat, width: int, order: seq<bv8>)
    requires 1 < n < I32_LIMIT && n % Clamp(width, n) == 0 && n + Clamp(width, n) - 1 < I32_LIMIT
    ensures BandPartition(n / Clamp(width, n), Fnv1a(order) as nat, n, width) ==
            BandPartition(0, Fnv1a(order) as nat, n, width)
  {
    hide ToI32, Fnv1a;
    var w, h := Clamp(width, n), Fnv1a(order) as nat;
    WholeAndRest(n, w);
    SmallMod(h % w, n);
    WrapOnce(n + h % w, n);
    assert 0 * w == 0;
  }

  /** Leased bands stay exclusive exactly up to the number of whole bands. */
  lemma ExclusiveIff(count: nat, n: nat, width: int)
    requires 1 < n < I32_LIMIT
    ensures (forall a: nat, b: nat, h: nat, k: nat :: a < b < count ==>
               BandPartition(a, h, n, width) != BandPartition(b, k, n, width))
            <==> count <= n / Clamp(width, n)
  {
    hide BandPartition, Clamp;
    if count <= n / Clamp(width, n) {
      forall a: nat, b: nat, h: nat, k: nat | a < b < count
        ensures BandPartition(a, h, n, width) != BandPartition(b, k, n, width)
      {
        BandsExclusive(a, b, h, k, n, width);
      }
    } else {
      NextBandWraps(n, width);
    }
  }

  // ----- Hash-derived bands -----

  function CeilDiv(n: nat, w: nat): nat
    requires w > 0
  {
    if n % w == 0 then n / w else n / w + 1
  }

  /** The number of bands, as the Rust side computes it: unsigned ceiling division. */
  function RustBands(n: nat, w: nat): nat
    requires w > 0
  {
    if CeilDiv(n, w) < 1 then 1 else CeilDiv(n, w)
  }

  /** The number of bands, as the Go side computes it in 32-bit signed arithmetic. */
  function GoBands(n: nat, w: nat): nat
    requires w > 0
  {
    var bands := Quot(ToI32(n + w - 1), w);
    if bands < 1 then 1 else bands
  }

  function Banded(bands: nat, session: nat, order: nat, n: nat, w: nat): int
    requires bands > 0 && w > 0 && n > 0
  {
    Rem(ToI32(ToI32(session % bands * w) + order % w), n)
  }

  function RustSessionBand(session: nat, order: nat, n: int, width: int): int {
    if n <= 1 then 0 else var w := Clamp(width, n); Banded(RustBands(n, w), session, order, n, w)
  }

  function GoSessionBand(session: nat, order: nat, n: int, width: int): int {
    if n <= 1 then 0 else var w := Clamp(width, n); Banded(GoBands(n, w), session, order, n, w)
  }

  lemma CeilIsShifted(n: nat, w: nat)
    requires w > 0
    ensures CeilDiv(n, w) == (n + w - 1) / w
  {
    var q, r := n / w, n % w;
    assert n == q * w + r;
    if r == 0 {
      DivIs(n + w - 1, w, q, w - 1);
    } else {
      assert n + w - 1 == (q + 1) * w + (r - 1);
      DivIs(n + w - 1, w, q + 1, r - 1);
    }
  }

  lemma DivIs(a: nat, w: nat, q: nat, r: nat)
    requires w > 0 && a == q * w + r && r < w
    ensures a / w == q
  {
    var q' := a / w;
    assert a == q' * w + a % w;
    if q' < q {
      MulStep(q', q, w);
      assert false;
    } else if q < q' {
      MulStep(q, q', w);
      assert false;
    }
  }

  /** The two sides count the same bands exactly when the Go sum fits 32 bits, or there is one band. */
  lemma BandCountsAgree(n: nat, w: nat)
    requires 1 <= w <= n < I32_LIMIT
    ensures RustBands(n, w) == GoBands(n, w) <==> n + w - 1 < I32_LIMIT || w == n
  {
    hide ToI32;
    hide CeilDiv;
    hide Quot;
    CeilIsShifted(n, w);
    PositiveQuot(n + w - 1, w);
    if n + w - 1 < I32_LIMIT {
      CeilPositive(n, w);
    } else {
      Overflows(n + w - 1);
      NegativeQuot(ToI32(n + w - 1), w);
      if w == n {
        OneBand(n);
      } else {
        TwoBands(n, w);
      }
    }
  }

  lemma PositiveQuot(a: nat, n: nat)
    requires n > 0
    ensures Quot(a, n) == a / n
  {
  }

  lemma NegativeQuot(a: int, n: nat)
    requires a < 0 && n > 0
    ensures Quot(a, n) <= 0
  {
  }

  lemma Overflows(x: int)
    requires I32_LIMIT <= x < 2 * I32_LIMIT
    ensures ToI32(x) == x - 2 * I32_LIMIT
  {
  }

  lemma CeilPositive(n: nat, w: nat)
    requires 1 <= w <= n
    ensures CeilDiv(n, w) >= 1
  {
    assert n / w >= 1;
  }

  lemma OneBand(n: nat)
    requires n > 0
    ensures CeilDiv(n, n) == 1
  {
    DivIs(n, n, 1, 0);
    assert n % n == 0;
  }

  lemma TwoBands(n: nat, w: nat)
    requires 1 <= w < n
    ensures CeilDiv(n, w) >= 2
  {
    assert n / w * w + n % w == n;
    if n / w < 2 {
      assert n / w == 1;
      assert n % w == n - w != 0;
    }
  }

  /** Outside band 0 an order never lands where band 0 would put it, wrapped sums included. */
  lemma PlacedApart(bands: nat, session: nat, order: nat, n: nat, w: nat)
    requires 1 <= w < n < I32_LIMIT && bands > 0 && session % bands * w < n && session % bands != 0
    ensures Banded(bands, session, order, n, w) != Banded(1, session, order, n, w)
  {
    var band, r := session % bands, order % w;
    MulStep(0, band, w);
    var base := band * w;
    assert w <= base && session % 1 * w == 0;
    SmallMod(r, n);
    hide ToI32;
    if base + r < I32_LIMIT {
      if base + r < n {
        SmallMod(base + r, n);
      } else {
        WrapOnce(base + r, n);
      }
    } else {
      Overflows(base + r);
    }
  }

  lemma WrapOnce(x: nat, n: nat)
    requires n <= x < 2 * n
    ensures x % n == x - n
  {
  }

  lemma BandInRange(session: nat, n: nat, w: nat)
    requires 1 <= w <= n
    ensures RustBands(n, w) > 0 && session % RustBands(n, w) * w < n
  {
    CeilPositive(n, w);
    var bands := RustBands(n, w);
    var band := session % bands;
    assert n / w * w + n % w == n;
    if band < n / w {
      MulStep(band, n / w, w);
    }
  }

  const HASH_A: nat := 0xaf63dc4c8601ec8c
  const HASH_B: nat := 0xaf63df4c8601f1a5

  lemma OneByte(b: bv8)
    ensures Fnv1a([b]) == Round(0xcbf29ce484222325, b)
  {
    assert [b][..0] == [];
  }

  /** The hashes of the ids "a" and "b". */
  lemma HashesOfTwoIds()
    ensures Fnv1a([0x61]) as nat == HASH_A && Fnv1a([0x62]) as nat == HASH_B
  {
    OneByte(0x61);
    OneByte(0x62);
    assert Round(0xcbf29ce484222325, 0x61) == 0xaf63dc4c8601ec8c;
    assert Round(0xcbf29ce484222325, 0x62) == 0xaf63df4c8601f1a5;
  }

  /** The two hashes are coprime, so no number of bands from two on divides both. */
  lemma NoCommonDivisor(bands: nat)
    requires bands >= 2
    ensures HASH_A % bands != 0 || HASH_B % bands != 0
  {
    if HASH_A % bands == 0 && HASH_B % bands == 0 {
      var p, q := HASH_A / bands, HASH_B / bands;
      assert HASH_A == bands * p && HASH_B == bands * q;
      var z := 3745830188825839145 * q - 3745831166478041449 * p;
      assert bands * z == 3745830188825839145 * (bands * q) - 3745831166478041449 * (bands * p) == 1;
      NotOne(bands, z);
      assert false;
    }
  }

  lemma NotOne(m: nat, z: int)
    requires m >= 2
    ensures m * z != 1
  {
    if z >= 1 {
      assert m * z >= m * 1;
    } else {
      assert m * z <= 0;
    }
  }

  ghost predicate PlacedAlike(n: nat, width: int, session: seq<bv8>, order: seq<bv8>) {
    RustSessionBand(Fnv1a(session) as nat, Fnv1a(order) as nat, n, width) ==
    GoSessionBand(Fnv1a(session) as nat, Fnv1a(order) as nat, n, width)
  }

  /** Rust and Go place every order of every session alike exactly where the Go sum fits 32 bits,
      or the band is the whole topic. */
  lemma PlacementsAgree(n: nat, width: int)
    requires 1 < n < I32_LIMIT
    ensures (forall session, order :: PlacedAlike(n, width, session, order))
            <==> n + Clamp(width, n) - 1 < I32_LIMIT || Clamp(width, n) == n
  {
    hide RustBands, GoBands, Banded, Fnv1a;
    var w := Clamp(width, n);
    BandCountsAgree(n, w);
    if !(n + w - 1 < I32_LIMIT || w == n) {
      BandsOverflow(n, w);
      var session := IdOutsideBandZero(RustBands(n, w));
      SessionApart(n, width, Fnv1a(session) as nat, Fnv1a([]) as nat);
      assert !PlacedAlike(n, width, session, []);
    }
  }

  /** One of two ids lies outside band 0, whatever the number of bands. */
  lemma IdOutsideBandZero(bands: nat) returns (id: seq<bv8>)
    requires bands >= 2
    ensures Fnv1a(id) as nat % bands != 0
  {
    hide Fnv1a;
    HashesOfTwoIds();
    NoCommonDivisor(bands);
    if HASH_A % bands != 0 {
      id := [0x61];
    } else {
      id := [0x62];
    }
  }

  /** Where Go counts one band and Rust several, a session outside Rust's band 0 is placed differently. */
  lemma SessionApart(n: nat, width: int, session: nat, order: nat)
    requires 1 < n < I32_LIMIT && Clamp(width, n) < n && I32_LIMIT <= n + Clamp(width, n) - 1
    requires session % RustBands(n, Clamp(width, n)) != 0
    ensures RustSessionBand(session, order, n, width) != GoSessionBand(session, order, n, width)
  {
    hide RustBands, GoBands, Banded, Clamp;
    var w := Clamp(width, n);
    BandsOverflow(n, w);
    BandInRange(session, n, w);
    PlacedApart(RustBands(n, w), session, order, n, w);
  }

  lemma BandsOverflow(n: nat, w: nat)
    requires 1 <= w < n < I32_LIMIT <= n + w - 1
    ensures GoBands(n, w) == 1 && RustBands(n, w) >= 2
  {
    hide ToI32, CeilDiv, Quot;
    Overflows(n + w - 1);
    NegativeQuot(ToI32(n + w - 1), w);
    TwoBands(n, w);
  }

  /** Where the sums fit 32 bits, a session's orders are placed by its hash over the bands, rounded up, and by
      their own hash within the band, wrapping at the end of the topic. */
  lemma SessionPlaces(session: nat, order: nat, n: nat, width: int)
    requires 1 < n && n + Clamp(width, n) - 1 < I32_LIMIT
    ensures var w := Clamp(width, n);
            var bands := (n + w - 1) / w;
            && bands > 0
            && RustSessionBand(session, order, n, width) == (session % bands * w + order % w) % n
  {
    hide ToI32, CeilDiv, Clamp;
    var w := Clamp(width, n);
    CeilIsShifted(n, w);
    CeilPositive(n, w);
    BandInRange(session, n, w);
  }

  /** Every partition is some order's: the last band, even a partial one, is in use. */
  lemma EveryPartitionUsed(p: nat, n: nat, width: int)
    requires 1 < n && p < n && n + Clamp(width, n) - 1 < I32_LIMIT
    ensures exists session: nat, order: nat :: RustSessionBand(session, order, n, width) == p
  {
    hide Clamp, RustSessionBand;
    var w := Clamp(width, n);
    var session, order := p / w, p % w;
    SessionPlaces(session, order, n, width);
    InSomeBand(p, n, w);
    OwnPlace(p, n, w, (n + w - 1) / w);
  }

  lemma OwnPlace(p: nat, n: nat, w: nat, bands: nat)
    requires p < n && w > 0 && p / w < bands
    ensures (p / w % bands * w + p % w % w) % n == p
  {
    SmallMod(p / w, bands);
    SmallMod(p % w, w);
    SmallMod(p, n);
    assert p / w * w + p % w == p;
  }

  lemma InSomeBand(p: nat, n: nat, w: nat)
    requires p < n && w > 0
    ensures p / w < (n + w - 1) / w
  {
    CeilIsShifted(n, w);
    var q := p / w;
    assert q * w + p % w == p;
    assert n / w * w + n % w == n;
    if q > n / w {
      MulStep(n / w, q, w);
    }
  }
}
