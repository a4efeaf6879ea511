/**
 * Four-character codec codes. `main` unpacks the input's codec integer into
 * the bytes of `EXT` (lowest byte first, then a NUL) and picks the output
 * codec: the configured four characters, unless they spell the sentinel
 * "NULL", in which case the input's codec integer is passed on unchanged.
 */
module FourCC {
  import opened Types

  const Two32: int := 0x1_0000_0000

  /** The unsigned 32-bit pattern of a C `int` (what `&` with the masks sees). */
  function Bits(ex: Int32): (u: nat)
    ensures u < Two32
    ensures (u - ex) % Two32 == 0
  {
    if ex < 0 then ex + Two32 else ex
  }

  /** The signed `int` whose pattern is `u`: the inverse of Bits. */
  function FromBits(u: nat): (ex: Int32)
    requires u < Two32
    ensures Bits(ex) == u
  {
    if u <= IntMax then u else u - Two32
  }

  /** `EXT` in `main`: byte k is `(ex & (0xFF << 8k)) >> 8k`, then the terminating 0.
      On the unsigned pattern, masking then shifting is taking the quotient's remainder. */
  function Unpack(ex: Int32): (ext: seq<nat>)
    ensures |ext| == 5 && ext[4] == 0
    ensures forall k :: 0 <= k < 4 ==> ext[k] < 0x100
  {
    var u := Bits(ex);
    [u % 0x100, (u / 0x100) % 0x100, (u / 0x1_0000) % 0x100, (u / 0x100_0000) % 0x100, 0]
  }

  /** Little-endian recombination of four bytes. */
  function Recombine(b0: nat, b1: nat, b2: nat, b3: nat): nat
  {
    b0 + b1 * 0x100 + b2 * 0x1_0000 + b3 * 0x100_0000
  }

  /** Dividing by 256 after dividing by `d` is dividing by `d * 256`. */
  lemma DivideBy256Again(u: nat, d: nat)
    requires d == 0x100 || d == 0x1_0000
    ensures u / (d * 0x100) == (u / d) / 0x100
  {
    var q1 := u / d;
    var q2 := q1 / 0x100;
    assert d * q1 <= u < d * q1 + d;
    assert 0x100 * q2 <= q1 < 0x100 * q2 + 0x100;
    assert d * 0x100 * q2 <= u < d * 0x100 * q2 + d * 0x100;
  }

  /** The bytes of `EXT` recombine to the codec integer taken modulo 2^32. */
  lemma UnpackRecombines(ex: Int32)
    ensures var ext := Unpack(ex);
      Recombine(ext[0], ext[1], ext[2], ext[3]) == Bits(ex) == ex % Two32
  {
    var u := Bits(ex);
    DivideBy256Again(u, 0x100);
    DivideBy256Again(u, 0x1_0000);
    var u1 := u / 0x100;
    var u2 := u1 / 0x100;
    var u3 := u2 / 0x100;
    assert u == u % 0x100 + u1 * 0x100;
    assert u1 == u1 % 0x100 + u2 * 0x100;
    assert u2 == u2 % 0x100 + u3 * 0x100;
    assert u3 < 0x100;
    assert u3 % 0x100 == u3;
  }

  /** Conversely, four bytes packed into an `int` unpack to themselves. */
  lemma RecombineUnpacks(b0: nat, b1: nat, b2: nat, b3: nat)
    requires b0 < 0x100 && b1 < 0x100 && b2 < 0x100 && b3 < 0x100
    ensures Recombine(b0, b1, b2, b3) < Two32
    ensures Unpack(FromBits(Recombine(b0, b1, b2, b3)))[..4] == [b0, b1, b2, b3]
  {
    var u := Recombine(b0, b1, b2, b3);
    var r1 := b1 + b2 * 0x100 + b3 * 0x1_0000;
    var r2 := b2 + b3 * 0x100;
    assert u == b0 + 0x100 * r1;
    assert u / 0x100 == r1 && u % 0x100 == b0;
    assert r1 / 0x100 == r2 && r1 % 0x100 == b1;
    assert r2 / 0x100 == b3 && r2 % 0x100 == b2;
    assert FromBits(u) as int == u - (if u <= IntMax then 0 else Two32);
    DivideBy256Again(u, 0x100);
    DivideBy256Again(u, 0x1_0000);
  }

  /** The codec handed to `outputVideo.open`. */
  datatype Codec =
    | Tag(c0: char, c1: char, c2: char, c3: char)  // `VideoWriter::fourcc(c0, c1, c2, c3)`
    | InputCodec(ex: Int32)                         // the input's own codec integer

  /** The first four cells of `outputfourccstr` spell the sentinel "NULL". */
  predicate IsNullSentinel(buf: seq<char>)
    requires |buf| >= 4
  {
    buf[0] == 'N' && buf[1] == 'U' && buf[2] == 'L' && buf[3] == 'L'
  }

  /** The codec choice of `main`: the configured characters, or the input codec for "NULL". */
  function SelectCodec(buf: seq<char>, ex: Int32): (c: Codec)
    requires |buf| >= 4
    ensures c.InputCodec? <==> buf[..4] == "NULL"
    ensures c.InputCodec? ==> c.ex == ex
    ensures c.Tag? ==> [c.c0, c.c1, c.c2, c.c3] == buf[..4]
  {
    if !IsNullSentinel(buf) then Tag(buf[0], buf[1], buf[2], buf[3])
    else InputCodec(ex)
  }

  /** The built-in default "XVID" selects Xvid, whatever the input's codec. */
  lemma DefaultSelectsXvid(ex: Int32)
    ensures SelectCodec("XVID", ex) == Tag('X', 'V', 'I', 'D')
  {
  }
}
