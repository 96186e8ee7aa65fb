/**
  The decode half of the Encoded Polyline Algorithm Format, as `_decodePolyline`
  does it. Each value is a run of 5-bit chunks, each chunk stored as a
  character whose code is the chunk plus 63, with 0x20 marking that another
  chunk follows; the assembled value is zig-zag encoded and is the delta of the
  latitude (first) or longitude (second) from the previous coordinate.

  Coordinates are kept as integers scaled by 1e5; the final division by 1e5 is
  not modelled. The bitwise operators act on 32-bit patterns as in JavaScript
  (see Bits32), so nothing needs to be assumed about the number of chunks.

  The source has no encoder: `Encode` below is the standard encoding, written
  here as the inverse against which the decoder is proved.
*/
module Polyline {
  import opened Bits32

  /** A decoded coordinate `[lng, lat]`, both scaled by 1e5. */
  datatype Coord = Coord(lng: int, lat: int)

  /**
    `(b & 0x1f)` for `b = encoded.charCodeAt(i) - 63`. Past the end of the
    string `charCodeAt` gives NaN, and `NaN & 0x1f` is 0.
  */
  function Payload(s: string, i: nat): (c: nat)
    ensures c < 0x20
  {
    if i < |s| then ((s[i] as int) - 63) % 0x20 else 0
  }

  /** `b >= 0x20`: another chunk follows. Never true past the end (NaN compares false). */
  predicate Continues(s: string, i: nat) {
    i < |s| && (s[i] as int) - 63 >= 0x20
  }

  /** The 32-bit pattern assembled by one do-while loop, and the index after it. */
  datatype Varint = Varint(bits: nat, next: nat)

  /**
    One do-while loop of the decoder, started at index `i` with `shift` and
    `result` already accumulated: it always reads at least one character, and
    stops at most one position past the end of the string.
  */
  function ReadVarint(s: string, i: nat, shift: nat, acc: nat): (v: Varint)
    requires acc < TWO32
    ensures v.bits < TWO32
    ensures i < v.next <= (if i < |s| then |s| else i) + 1
    decreases |s| - i
  {
    var acc' := Or(acc, ShiftLeft(Payload(s, i), shift));
    if Continues(s, i) then ReadVarint(s, i + 1, shift + 5, acc') else Varint(acc', i + 1)
  }

  /**
    `(result & 1) ? ~(result >> 1) : (result >> 1)`: `>>` shifts the signed
    value arithmetically (division by 2 rounding down) and `~x` is `-x - 1`.
  */
  function UnZigZag(u: nat): (d: int)
    requires u < TWO32
    ensures u < TWO31 ==> -TWO30 <= d < TWO30
    ensures u < TWO31 ==> (d < 0 <==> u % 2 == 1)
  {
    var half := Signed(u) / 2;
    if u % 2 == 1 then -half - 1 else half
  }

  /** What one pass of the outer loop produces: a coordinate, and the index where the pass ends. */
  datatype Pass = Pass(coord: Coord, next: nat)

  /**
    One pass of the outer loop at `index`, from the running sums `lat` and
    `lng`: a latitude delta, then a longitude delta. It reads at least two
    characters.
  */
  function DecodePass(s: string, index: nat, lat: int, lng: int): (p: Pass)
    ensures p.next >= index + 2
  {
    var dlat := ReadVarint(s, index, 0, 0);
    var dlng := ReadVarint(s, dlat.next, 0, 0);
    Pass(Coord(lng + UnZigZag(dlng.bits), lat + UnZigZag(dlat.bits)), dlng.next)
  }

  /**
    The coordinates decoded from index `index` on, with running sums `lat`
    and `lng`; none exactly when nothing is left to read.
  */
  function DecodeFrom(s: string, index: nat, lat: int, lng: int): (r: seq<Coord>)
    ensures r == [] <==> index >= |s|
    decreases |s| - index
  {
    if index >= |s| then []
    else
      var p := DecodePass(s, index, lat, lng);
      [p.coord] + DecodeFrom(s, p.next, p.coord.lat, p.coord.lng)
  }

  /**
    Every coordinate consumes at least two characters, so there are at most
    half as many coordinates as characters left, rounded up.
  */
  lemma {:induction false} DecodeFromLength(s: string, index: nat, lat: int, lng: int)
    requires index <= |s|
    ensures 2 * |DecodeFrom(s, index, lat, lng)| <= |s| - index + 1
    decreases |s| - index
  {
    if index < |s| {
      var p := DecodePass(s, index, lat, lng);
      if p.next <= |s| {
        DecodeFromLength(s, p.next, p.coord.lat, p.coord.lng);
      }
    }
  }

  /**
    What `_decodePolyline(encoded)` returns: nothing exactly for the empty
    string, and at most one coordinate per two characters, rounded up.
  */
  function Decode(s: string): (r: seq<Coord>)
    ensures r == [] <==> s == []
    ensures 2 * |r| <= |s| + 1
  {
    DecodeFromLength(s, 0, 0, 0);
    DecodeFrom(s, 0, 0, 0)
  }

  /** One do-while loop of `_decodePolyline`. */
  method ReadValue(encoded: string, start: nat) returns (bits: nat, next: nat)
    ensures bits < TWO32
    ensures Varint(bits, next) == ReadVarint(encoded, start, 0, 0)
  {
    var index := start;
    var shift: nat, result: nat := 0, 0;
    var more := true;
    while more
      invariant result < TWO32
      invariant more ==> ReadVarint(encoded, index, shift, result) == ReadVarint(encoded, start, 0, 0)
      invariant !more ==> Varint(result, index) == ReadVarint(encoded, start, 0, 0)
      decreases (if more then 1 else 0), |encoded| - index
    {
      result := Or(result, ShiftLeft(Payload(encoded, index), shift));
      more := Continues(encoded, index);
      index := index + 1;
      shift := shift + 5;
    }
    bits, next := result, index;
  }

  /** `_decodePolyline`: the coordinates, as `[lng, lat]` pairs scaled by 1e5. */
  method DecodePolyline(encoded: string) returns (coordinates: seq<Coord>)
    ensures coordinates == Decode(encoded)
  {
    coordinates := [];
    var index, lat, lng := 0, 0, 0;
    while index < |encoded|
      invariant coordinates + DecodeFrom(encoded, index, lat, lng) == Decode(encoded)
      decreases |encoded| - index
    {
      var dlat, afterLat := ReadValue(encoded, index);
      lat := lat + UnZigZag(dlat);
      var dlng, afterLng := ReadValue(encoded, afterLat);
      lng := lng + UnZigZag(dlng);
      index := afterLng;
      coordinates := coordinates + [Coord(lng, lat)];
    }
  }

  // ---------------------------------------------------------------------
  // The encoder, the inverse of the decoder

  const TWO30: int := 0x4000_0000

  /** A delta the 32-bit decoder can carry: its zig-zag value fits in 31 bits. */
  predicate DeltaInRange(d: int) {
    -TWO30 <= d < TWO30
  }

  function ZigZag(v: int): nat {
    if v < 0 then -2 * v - 1 else 2 * v
  }

  /** The chunks of `z`, lowest first, as printable characters '?' to '~'. */
  function EncodeChunks(z: nat): (e: string)
    ensures |e| >= 1
    ensures forall k :: 0 <= k < |e| ==> '?' <= e[k] <= '~'
    decreases z
  {
    if z < 0x20 then [(z + 63) as char]
    else [(0x20 + z % 0x20 + 63) as char] + EncodeChunks(z / 0x20)
  }

  function EncodeValue(v: int): string {
    EncodeChunks(ZigZag(v))
  }

  /** Latitude delta then longitude delta for each coordinate, from the running `lat`, `lng`. */
  function EncodeFrom(xs: seq<Coord>, lat: int, lng: int): string {
    if xs == [] then []
    else EncodeValue(xs[0].lat - lat) + EncodeValue(xs[0].lng - lng) + EncodeFrom(xs[1..], xs[0].lat, xs[0].lng)
  }

  function Encode(xs: seq<Coord>): string {
    EncodeFrom(xs, 0, 0)
  }

  /** Every delta between consecutive coordinates (starting from 0, 0) is in range. */
  predicate EncodableFrom(xs: seq<Coord>, lat: int, lng: int) {
    xs == [] ||
    (DeltaInRange(xs[0].lat - lat) && DeltaInRange(xs[0].lng - lng) &&
     EncodableFrom(xs[1..], xs[0].lat, xs[0].lng))
  }

  /** Zig-zag decoding undoes zig-zag encoding on every delta in range. */
  lemma {:induction false} ZigZagRoundTrip(v: int)
    requires DeltaInRange(v)
    ensures ZigZag(v) < TWO31 && UnZigZag(ZigZag(v)) == v
  {
  }

  /** ... and the other way round on every pattern below 2^31. */
  lemma {:induction false} UnZigZagRoundTrip(u: nat)
    requires u < TWO31
    ensures DeltaInRange(UnZigZag(u)) && ZigZag(UnZigZag(u)) == u
  {
  }

  /** The first character of the chunks of `z` carries its low 5 bits and says whether more follow. */
  lemma {:induction false} FirstChunk(s: string, i: nat, z: nat)
    requires i + |EncodeChunks(z)| <= |s| && s[i..i + |EncodeChunks(z)|] == EncodeChunks(z)
    ensures Payload(s, i) == z % 0x20
    ensures Continues(s, i) <==> z >= 0x20
  {
    assert s[i] == EncodeChunks(z)[0];
  }

  lemma {:induction false} MulAtLeast(m: nat, x: nat)
    requires m >= 1
    ensures x <= m * x
  {
    assert m * x == x + (m - 1) * x;
  }

  /** Below 32 bits, shifting a chunk left by `n` multiplies it by 2^n. */
  lemma {:induction false} ShiftLeftExact(m: nat, n: nat)
    requires m * Pow2(n) < TWO32
    ensures ShiftLeft(m, n) == m * Pow2(n)
  {
    if m != 0 {
      MulAtLeast(m, Pow2(n));
      if n >= 32 {
        Pow2Of32();
        Pow2Monotone(32, n);
        assert false;
      }
      var x := m * Pow2(n);
      assert n % 32 == n;
      assert ShiftLeft(m, n) == x % TWO32;
      ModBelow(x, TWO32);
    }
  }

  lemma {:induction false} ModBelow(x: nat, d: nat)
    requires x < d
    ensures x % d == x
  {
  }

  lemma {:induction false} Distribute(a: int, b: int, c: int)
    ensures (a + b) * c == a * c + b * c
  {
  }

  lemma {:induction false} Associate(a: int, b: int, c: int)
    ensures a * (b * c) == (a * b) * c
  {
  }

  /** The arithmetic of one step: the next accumulator and what remains of `z`. */
  lemma {:induction false} ChunkStep(z: nat, p: nat, acc: nat)
    requires acc < p
    ensures acc + (z % 0x20) * p < 32 * p
    ensures acc + (z % 0x20) * p + (z / 0x20) * (32 * p) == acc + z * p
    ensures (z % 0x20) * p <= z * p
  {
    var m := z % 0x20;
    var q := z / 0x20;
    assert z == 32 * q + m;
    Distribute(m, 31 - m, p);
    assert (31 - m) * p >= 0;
    Associate(q, 32, p);
    Distribute(32 * q, m, p);
    assert (32 * q) * p >= 0;
  }

  /** One chunk read in place: the payload lands above the bits already assembled. */
  lemma {:induction false} ChunkArith(z: nat, n: nat, p: nat, acc: nat) returns (acc': nat)
    requires p == Pow2(n) && acc < p
    requires acc + z * p < TWO32
    ensures acc < TWO32
    ensures acc' == Or(acc, ShiftLeft(z % 0x20, n))
    ensures acc' < 32 * p && acc' + (z / 0x20) * (32 * p) == acc + z * p
    ensures z < 0x20 ==> acc' == acc + z * p
  {
    var m := z % 0x20;
    ChunkStep(z, p, acc);
    ShiftLeftExact(m, n);
    BitOrDisjoint(acc, m, n);
    acc' := acc + m * p;
  }

  /** One step of the do-while loop, with the next accumulator named. */
  lemma {:induction false} ReadVarintStep(s: string, i: nat, shift: nat, acc: nat, acc': nat)
    requires acc < TWO32 && acc' == Or(acc, ShiftLeft(Payload(s, i), shift))
    ensures ReadVarint(s, i, shift, acc) ==
            if Continues(s, i) then ReadVarint(s, i + 1, shift + 5, acc') else Varint(acc', i + 1)
  {
  }

  /** The chunks of a value that needs more than one: a continued first chunk, then the chunks of the rest. */
  lemma {:induction false} ChunksTail(s: string, i: nat, z: nat)
    requires z >= 0x20
    requires i + |EncodeChunks(z)| <= |s| && s[i..i + |EncodeChunks(z)|] == EncodeChunks(z)
    ensures |EncodeChunks(z)| == 1 + |EncodeChunks(z / 0x20)|
    ensures s[i + 1..i + 1 + |EncodeChunks(z / 0x20)|] == EncodeChunks(z / 0x20)
  {
    var e := EncodeChunks(z);
    var e' := EncodeChunks(z / 0x20);
    assert e == [e[0]] + e';
    assert s[i + 1..i + 1 + |e'|] == e[1..];
  }

  /**
    Reading the chunks of `z` at index `i`, with the shift at `n` and `acc`
    assembled below it, gives `acc` plus `z` shifted by `n`, as long as the
    whole value fits in 32 bits.
  */
  lemma {:induction false} ReadEncodedChunks(s: string, i: nat, z: nat, n: nat, p: nat, acc: nat)
    requires p == Pow2(n) && acc < p
    requires acc + z * p < TWO32
    requires i + |EncodeChunks(z)| <= |s| && s[i..i + |EncodeChunks(z)|] == EncodeChunks(z)
    ensures ReadVarint(s, i, n, acc) == Varint(acc + z * p, i + |EncodeChunks(z)|)
    decreases z
  {
    FirstChunk(s, i, z);
    var acc' := ChunkArith(z, n, p, acc);
    ReadVarintStep(s, i, n, acc, acc');
    if z >= 0x20 {
      ChunksTail(s, i, z);
      Pow2Step(n);
      ReadEncodedChunks(s, i + 1, z / 0x20, n + 5, 32 * p, acc');
    } else {
      assert |EncodeChunks(z)| == 1;
    }
  }

  /** One encoded value, read back, gives its zig-zag value and ends right after it. */
  lemma {:induction false} ReadEncodedValue(s: string, i: nat, v: int)
    requires DeltaInRange(v)
    requires i + |EncodeValue(v)| <= |s| && s[i..i + |EncodeValue(v)|] == EncodeValue(v)
    ensures ReadVarint(s, i, 0, 0) == Varint(ZigZag(v), i + |EncodeValue(v)|)
  {
    ZigZagRoundTrip(v);
    ReadEncodedChunks(s, i, ZigZag(v), 0, 1, 0);
  }

  lemma {:induction false} SliceParts(s: string, i: nat, a: string, b: string, rest: string)
    requires i <= |s| && s[i..] == a + b + rest
    ensures i + |a| + |b| <= |s|
    ensures s[i..i + |a|] == a
    ensures s[i + |a|..i + |a| + |b|] == b
    ensures s[i + |a| + |b|..] == rest
  {
    assert s[i..][..|a|] == a;
    assert s[i..][|a|..|a| + |b|] == b;
    assert s[i..][|a| + |b|..] == rest;
  }

  /** One iteration of the decoder's outer loop, given what its two do-while loops read. */
  lemma {:induction false} DecodeFromStep(s: string, i: nat, lat: int, lng: int, u: nat, j: nat, w: nat, k: nat, x: Coord)
    requires i < |s| && u < TWO32 && w < TWO32
    requires ReadVarint(s, i, 0, 0) == Varint(u, j)
    requires ReadVarint(s, j, 0, 0) == Varint(w, k)
    requires x.lat == lat + UnZigZag(u) && x.lng == lng + UnZigZag(w)
    ensures DecodeFrom(s, i, lat, lng) == [x] + DecodeFrom(s, k, x.lat, x.lng)
  {
    assert DecodePass(s, i, lat, lng) == Pass(x, k);
  }

  /** The encoded deltas from (`lat`, `lng`) to `x`, found at index `i`, decode to `x`. */
  lemma {:induction false} DecodeEncodedPair(s: string, i: nat, lat: int, lng: int, x: Coord, a: string, b: string, k: nat)
    requires DeltaInRange(x.lat - lat) && DeltaInRange(x.lng - lng)
    requires a == EncodeValue(x.lat - lat) && b == EncodeValue(x.lng - lng)
    requires k == i + |a| + |b| <= |s| && s[i..i + |a|] == a && s[i + |a|..k] == b
    ensures DecodeFrom(s, i, lat, lng) == [x] + DecodeFrom(s, k, x.lat, x.lng)
  {
    var u, w := ZigZag(x.lat - lat), ZigZag(x.lng - lng);
    ReadEncodedValue(s, i, x.lat - lat);
    ReadEncodedValue(s, i + |a|, x.lng - lng);
    ZigZagRoundTrip(x.lat - lat);
    ZigZagRoundTrip(x.lng - lng);
    DecodeFromStep(s, i, lat, lng, u, i + |a|, w, k, x);
  }

  /**
    The first coordinate of an encoding found at index `i` decodes to `xs[0]`,
    and what follows it, at the returned index `j`, encodes the rest.
  */
  lemma {:induction false} DecodeFirstEncoded(s: string, i: nat, xs: seq<Coord>, lat: int, lng: int) returns (j: nat)
    requires xs != [] && EncodableFrom(xs, lat, lng)
    requires i <= |s| && s[i..] == EncodeFrom(xs, lat, lng)
    ensures j <= |s| && s[j..] == EncodeFrom(xs[1..], xs[0].lat, xs[0].lng)
    ensures DecodeFrom(s, i, lat, lng) == [xs[0]] + DecodeFrom(s, j, xs[0].lat, xs[0].lng)
  {
    var x := xs[0];
    var a := EncodeValue(x.lat - lat);
    var b := EncodeValue(x.lng - lng);
    j := i + |a| + |b|;
    SliceParts(s, i, a, b, EncodeFrom(xs[1..], x.lat, x.lng));
    DecodeEncodedPair(s, i, lat, lng, x, a, b, j);
  }

  /** Decoding the encoding of `xs`, found at index `i` of `s`, gives back `xs`. */
  lemma {:induction false} DecodeEncodeFrom(s: string, i: nat, xs: seq<Coord>, lat: int, lng: int)
    requires EncodableFrom(xs, lat, lng)
    requires i <= |s| && s[i..] == EncodeFrom(xs, lat, lng)
    ensures DecodeFrom(s, i, lat, lng) == xs
    decreases |xs|
  {
    if xs == [] {
      assert s[i..] == [];
    } else {
      var j := DecodeFirstEncoded(s, i, xs, lat, lng);
      DecodeEncodeFrom(s, j, xs[1..], xs[0].lat, xs[0].lng);
      assert xs == [xs[0]] + xs[1..];
    }
  }

  /** Round trip: decoding the encoding of any coordinates whose deltas are in range gives them back. */
  lemma {:induction false} DecodeEncode(xs: seq<Coord>)
    requires EncodableFrom(xs, 0, 0)
    ensures Decode(Encode(xs)) == xs
  {
    DecodeEncodeFrom(Encode(xs), 0, xs, 0, 0);
  }

  lemma {:induction false} EncodeLat0()
    ensures EncodeValue(3850000) == "_p~iF"
  {
    assert ZigZag(3850000) == 7700000;
    assert EncodeChunks(7) == "F";
    assert EncodeChunks(234) == "iF";
    assert EncodeChunks(7519) == "~iF";
    assert EncodeChunks(240625) == "p~iF";
    assert EncodeChunks(7700000) == "_p~iF";
  }

  lemma {:induction false} EncodeLng0()
    ensures EncodeValue(-12020000) == "~ps|U"
  {
    assert ZigZag(-12020000) == 24039999;
    assert EncodeChunks(22) == "U";
    assert EncodeChunks(733) == "|U";
    assert EncodeChunks(23476) == "s|U";
    assert EncodeChunks(751249) == "ps|U";
    assert EncodeChunks(24039999) == "~ps|U";
  }

  lemma {:induction false} EncodeLat1()
    ensures EncodeValue(220000) == "_ulL"
  {
    assert ZigZag(220000) == 440000;
    assert EncodeChunks(13) == "L";
    assert EncodeChunks(429) == "lL";
    assert EncodeChunks(13750) == "ulL";
    assert EncodeChunks(440000) == "_ulL";
  }

  lemma {:induction false} EncodeLng1()
    ensures EncodeValue(-75000) == "nnqC"
  {
    assert ZigZag(-75000) == 149999;
    assert EncodeChunks(4) == "C";
    assert EncodeChunks(146) == "qC";
    assert EncodeChunks(4687) == "nqC";
    assert EncodeChunks(149999) == "nnqC";
  }

  lemma {:induction false} EncodeLat2()
    ensures EncodeValue(255200) == "_mqN"
  {
    assert ZigZag(255200) == 510400;
    assert EncodeChunks(15) == "N";
    assert EncodeChunks(498) == "qN";
    assert EncodeChunks(15950) == "mqN";
    assert EncodeChunks(510400) == "_mqN";
  }

  lemma {:induction false} EncodeLng2()
    ensures EncodeValue(-550300) == "vxq`@"
  {
    assert ZigZag(-550300) == 1100599;
    assert EncodeChunks(1) == "@";
    assert EncodeChunks(33) == "`@";
    assert EncodeChunks(1074) == "q`@";
    assert EncodeChunks(34393) == "xq`@";
    assert EncodeChunks(1100599) == "vxq`@";
  }

  /** One coordinate in front of the rest: its two deltas, then the rest from it. */
  lemma {:induction false} EncodeFromCons(x: Coord, xs: seq<Coord>, lat: int, lng: int, a: string, b: string, rest: string)
    requires EncodeValue(x.lat - lat) == a && EncodeValue(x.lng - lng) == b
    requires EncodeFrom(xs, x.lat, x.lng) == rest
    ensures EncodeFrom([x] + xs, lat, lng) == a + b + rest
  {
    assert ([x] + xs)[1..] == xs;
  }

  lemma {:induction false} EncodableFromCons(x: Coord, xs: seq<Coord>, lat: int, lng: int)
    requires DeltaInRange(x.lat - lat) && DeltaInRange(x.lng - lng)
    requires EncodableFrom(xs, x.lat, x.lng)
    ensures EncodableFrom([x] + xs, lat, lng)
  {
    assert ([x] + xs)[1..] == xs;
  }

  lemma {:induction false} StringConcat()
    ensures "_p~iF" + "~ps|U" + ("_ulL" + "nnqC" + ("_mqN" + "vxq`@" + [])) == "_p~iF~ps|U_ulLnnqC_mqNvxq`@"
  {
    assert "_mqN" + "vxq`@" + [] == "_mqNvxq`@";
    assert "_ulL" + "nnqC" + "_mqNvxq`@" == "_ulLnnqC_mqNvxq`@";
    assert "_p~iF" + "~ps|U" + "_ulLnnqC_mqNvxq`@" == "_p~iF~ps|U_ulLnnqC_mqNvxq`@";
  }

  /** The reference coordinates of the format and their encoding. */
  lemma {:induction false} EncodeReferenceVector()
    ensures EncodableFrom([Coord(-12020000, 3850000), Coord(-12095000, 4070000), Coord(-12645300, 4325200)], 0, 0)
    ensures Encode([Coord(-12020000, 3850000), Coord(-12095000, 4070000), Coord(-12645300, 4325200)]) ==
            "_p~iF~ps|U_ulLnnqC_mqNvxq`@"
  {
    var c0, c1, c2 := Coord(-12020000, 3850000), Coord(-12095000, 4070000), Coord(-12645300, 4325200);
    var t2: seq<Coord> := [c2];
    var t1 := [c1] + t2;
    var t0 := [c0] + t1;
    EncodeLat2(); EncodeLng2();
    EncodeFromCons(c2, [], c1.lat, c1.lng, "_mqN", "vxq`@", []);
    EncodableFromCons(c2, [], c1.lat, c1.lng);
    assert [c2] + [] == t2;
    EncodeLat1(); EncodeLng1();
    EncodeFromCons(c1, t2, c0.lat, c0.lng, "_ulL", "nnqC", "_mqN" + "vxq`@" + []);
    EncodableFromCons(c1, t2, c0.lat, c0.lng);
    EncodeLat0(); EncodeLng0();
    EncodeFromCons(c0, t1, 0, 0, "_p~iF", "~ps|U", "_ulL" + "nnqC" + ("_mqN" + "vxq`@" + []));
    EncodableFromCons(c0, t1, 0, 0);
    assert t0 == [c0, c1, c2];
    StringConcat();
  }

  /**
    The reference vector of the format: "_p~iF~ps|U_ulLnnqC_mqNvxq`@" decodes
    to (lng, lat) = (-120.2, 38.5), (-120.95, 40.7), (-126.453, 43.252).
  */
  lemma {:induction false} DecodeReferenceVector()
    ensures Decode("_p~iF~ps|U_ulLnnqC_mqNvxq`@") ==
            [Coord(-12020000, 3850000), Coord(-12095000, 4070000), Coord(-12645300, 4325200)]
  {
    EncodeReferenceVector();
    DecodeEncode([Coord(-12020000, 3850000), Coord(-12095000, 4070000), Coord(-12645300, 4325200)]);
  }
}
