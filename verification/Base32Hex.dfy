/** Base32 with the extended hexadecimal alphabet (section 7 of RFC 4648), in lower case. */
module Base32Hex {
  import opened Prelude

  type Byte = x: int | 0 <= x < 256

  const MAX_BIN_DATA_LEN: nat := 0x7FFF_FFFF / 8 * 5
  const PAD_CHAR: Byte := 61
  const PD: nat := 32
  const KO: nat := 255

  // The alphabet

  function Enc(v: nat): Byte
    requires v < 32
  {
    if v < 10 then 48 + v else 97 + (v - 10)
  }

  function Dec(b: Byte): (v: nat)
    ensures v < 32 || v == PD || v == KO
  {
    if 48 <= b <= 57 then b - 48 else if 65 <= b <= 86 then b - 65 + 10 else if 97 <= b <= 118 then b - 97 + 10
    else if b == PAD_CHAR then PD else KO
  }

  lemma DecEnc(v: nat)
    requires v < 32
    ensures Dec(Enc(v)) == v
  {
  }

  lemma DecPad()
    ensures Dec(PAD_CHAR) == PD
  {
  }

  // Encoding

  /** Five bytes as eight groups of five bits. */
  datatype Quints = Quints(v0: nat, v1: nat, v2: nat, v3: nat, v4: nat, v5: nat, v6: nat, v7: nat)

  function Split(a: Byte, b: Byte, c: Byte, d: Byte, e: Byte): (q: Quints)
    ensures q.v0 < 32 && q.v1 < 32 && q.v2 < 32 && q.v3 < 32 && q.v4 < 32 && q.v5 < 32 && q.v6 < 32 && q.v7 < 32
  {
    Quints(a / 8, a % 8 * 4 + b / 64, b / 2 % 32, b % 2 * 16 + c / 16, c % 16 * 2 + d / 128, d / 4 % 32,
           d % 4 * 8 + e / 32, e % 32)
  }

  function Chars(q: Quints): (t: seq<Byte>)
    requires q.v0 < 32 && q.v1 < 32 && q.v2 < 32 && q.v3 < 32 && q.v4 < 32 && q.v5 < 32 && q.v6 < 32 && q.v7 < 32
    ensures |t| == 8
  {
    [Enc(q.v0), Enc(q.v1), Enc(q.v2), Enc(q.v3), Enc(q.v4), Enc(q.v5), Enc(q.v6), Enc(q.v7)]
  }

  function Group(a: Byte, b: Byte, c: Byte, d: Byte, e: Byte): (t: seq<Byte>)
    ensures |t| == 8
  {
    Chars(Split(a, b, c, d, e))
  }

  /** How many characters of the last group carry bits of its `n` bytes. */
  function Used(n: nat): nat
    requires 0 < n < 5
  {
    if n == 1 then 2 else if n == 2 then 4 else if n == 3 then 5 else 7
  }

  function Pads(n: nat): (t: seq<Byte>)
    ensures |t| == n && forall i | 0 <= i < n :: t[i] == PAD_CHAR
  {
    seq(n, _ => PAD_CHAR)
  }

  /** The last group: as if filled up with zero bytes, and padded. */
  function Rest(x: seq<Byte>): (t: seq<Byte>)
    requires |x| < 5
    ensures |t| == if |x| == 0 then 0 else 8
  {
    if |x| == 0 then []
    else
      var g := Group(x[0], if |x| > 1 then x[1] else 0, if |x| > 2 then x[2] else 0, if |x| > 3 then x[3] else 0, 0);
      g[..Used(|x|)] + Pads(8 - Used(|x|))
  }

  /** The encoding of a byte string: five bytes make eight characters, and the last group is padded. */
  function Encoded(x: seq<Byte>): seq<Byte> {
    if |x| < 5 then Rest(x) else Group(x[0], x[1], x[2], x[3], x[4]) + Encoded(x[5..])
  }

  lemma {:induction false} EncodedSize(x: seq<Byte>, n: nat)
    requires 5 * n <= |x| < 5 * n + 5
    ensures |Encoded(x)| == 8 * n + if |x| == 5 * n then 0 else 8
    decreases n
  {
    hide Group;
    hide Rest;
    if n > 0 {
      EncodedSize(x[5..], n - 1);
    }
  }

  lemma EncodedCons(x: seq<Byte>, y: seq<Byte>)
    requires |x| >= 5
    ensures Encoded(x + y) == Group(x[0], x[1], x[2], x[3], x[4]) + Encoded(x[5..] + y)
  {
    hide Group;
    hide Rest;
    assert (x + y)[5..] == x[5..] + y;
  }

  lemma {:induction false} EncodedThen(x: seq<Byte>, y: seq<Byte>, n: nat)
    requires |x| == 5 * n
    ensures Encoded(x + y) == Encoded(x) + Encoded(y)
    decreases n
  {
    if n == 0 {
      assert x + y == y;
    } else {
      hide Encoded;
      hide Group;
      EncodedThen(x[5..], y, n - 1);
      EncodedCons(x, y);
      EncodedCons(x, []);
      assert x + [] == x && x[5..] + [] == x[5..];
      Assoc(Group(x[0], x[1], x[2], x[3], x[4]), Encoded(x[5..]), Encoded(y));
    }
  }

  method PutGroup(out: array<Byte>, at: nat, g: seq<Byte>)
    requires |g| == 8 && at + 8 <= out.Length
    modifies out
    ensures out[..at + 8] == old(out[..at]) + g && out[at + 8..] == old(out[at + 8..])
  {
    ghost var was := out[..];
    for i := 0 to 8
      invariant out[..] == was[..at] + g[..i] + was[at + i..]
    {
      out[at + i] := g[i];
    }
    assert g[..8] == g;
  }

  /** Encodes into a buffer of `outLen` bytes; the result is the number of characters, or an error. */
  method Encode(input: seq<Byte>, out: array<Byte>, outLen: nat) returns (r: int)
    requires outLen <= out.Length
    modifies out
    ensures r < 0 <==> |input| > MAX_BIN_DATA_LEN || outLen < (|input| + 4) / 5 * 8
    ensures r < 0 ==> out[..] == old(out[..])
    ensures r >= 0 ==> r == |Encoded(input)| <= outLen && out[..r] == Encoded(input) && out[r..] == old(out[r..])
  {
    if |input| > MAX_BIN_DATA_LEN || outLen < (|input| + 4) / 5 * 8 {
      return -1;
    }
    TextSize(|input|);
    r := EncodeAll(input, out, |input| / 5, |input| % 5);
  }

  method EncodeAll(input: seq<Byte>, out: array<Byte>, n: nat, rest: nat) returns (r: nat)
    requires |input| == 5 * n + rest && rest < 5 && 8 * n + (if rest == 0 then 0 else 8) <= out.Length
    modifies out
    ensures r == |Encoded(input)| == 8 * n + (if rest == 0 then 0 else 8)
    ensures out[..r] == Encoded(input) && out[r..] == old(out[r..])
  {
    hide Encoded;
    hide Rest;
    hide Group;
    EncodedSize(input, n);
    LastEncoded(input, n);
    ghost var was := out[..];
    EncodeGroups(input, out, n);
    r := 8 * n;
    if rest > 0 {
      PutGroup(out, r, Rest(input[5 * n..]));
      r := r + 8;
    }
    assert out[r..] == was[r..];
  }

  lemma TextSize(len: nat)
    ensures (len + 4) / 5 * 8 == 8 * (len / 5) + if len % 5 == 0 then 0 else 8
    ensures len == 5 * (len / 5) + len % 5
  {
  }

  /** The loop over whole groups. */
  method EncodeGroups(input: seq<Byte>, out: array<Byte>, n: nat)
    requires 5 * n <= |input| && 8 * n <= out.Length
    modifies out
    ensures out[..8 * n] == Encoded(input[..5 * n]) && out[8 * n..] == old(out[8 * n..])
  {
    hide Group;
    hide Encoded;
    ghost var was := out[..];
    EncodedNone(input[..0]);
    for m := 0 to n
      invariant out[..8 * m] == Encoded(input[..5 * m]) && out[8 * m..] == was[8 * m..]
    {
      var k := 5 * m;
      StepEncoded(input, m);
      PutGroup(out, 8 * m, Group(input[k], input[k + 1], input[k + 2], input[k + 3], input[k + 4]));
      assert out[8 * m + 8..] == was[8 * m + 8..];
    }
  }

  lemma EncodedNone(x: seq<Byte>)
    requires x == []
    ensures Encoded(x) == []
  {
  }

  lemma StepEncoded(x: seq<Byte>, m: nat)
    requires 5 * m + 5 <= |x|
    ensures Encoded(x[..5 * m + 5]) == Encoded(x[..5 * m]) + Group(x[5 * m], x[5 * m + 1], x[5 * m + 2], x[5 * m + 3], x[5 * m + 4])
  {
    hide Group;
    var k := 5 * m;
    var y := x[k..k + 5];
    assert x[..k + 5] == x[..k] + y;
    EncodedThen(x[..k], y, m);
    EncodedNone(y[5..]);
    assert Group(x[k], x[k + 1], x[k + 2], x[k + 3], x[k + 4]) + [] == Group(x[k], x[k + 1], x[k + 2], x[k + 3], x[k + 4]);
  }

  lemma LastEncoded(x: seq<Byte>, n: nat)
    requires 5 * n <= |x| < 5 * n + 5
    ensures Encoded(x) == Encoded(x[..5 * n]) + Rest(x[5 * n..])
    ensures |x| == 5 * n ==> Encoded(x[..5 * n]) == Encoded(x)
  {
    assert x == x[..5 * n] + x[5 * n..];
    EncodedThen(x[..5 * n], x[5 * n..], n);
    assert |x| == 5 * n ==> x[..5 * n] == x;
  }

  // Decoding

  /** The padding length after a group of eight values; it is never taken back. */
  function Padding(q: Quints, pad: nat): (r: Option<nat>)
    requires pad in {0, 1, 3, 4, 6}
    ensures r.Some? ==> r.value in {0, 1, 3, 4, 6}
  {
    if q.v7 >= PD && !(q.v7 == PD && pad == 0) then None
    else
      var p8 := if q.v7 >= PD then 1 else pad;
      if q.v6 >= PD && !(q.v6 == PD && q.v5 == PD && p8 == 1) then None
      else
        var p7 := if q.v6 >= PD then 3 else p8;
        if q.v5 >= PD && !(q.v5 == PD && p7 == 3) then None
        else if q.v4 >= PD && !(q.v4 == PD && p7 == 3) then None
        else
          var p5 := if q.v4 >= PD then 4 else p7;
          if q.v3 >= PD && !(q.v3 == PD && q.v2 == PD && p5 == 4) then None
          else
            var p4 := if q.v3 >= PD then 6 else p5;
            if q.v2 >= PD && !(q.v2 == PD && p4 == 6) then None
            else if q.v1 >= PD || q.v0 >= PD then None
            else Some(p4)
  }

  /** How many bytes a group with so much padding makes. */
  function Made(pad: nat): nat
    requires pad in {0, 1, 3, 4, 6}
  {
    if pad == 0 then 5 else if pad == 1 then 4 else if pad == 3 then 3 else if pad == 4 then 2 else 1
  }

  function Joined(q: Quints): (b: seq<Byte>)
    ensures |b| == 5
  {
    [(q.v0 * 8 + q.v1 / 4) % 256,
     (q.v1 * 64 + q.v2 * 2 + q.v3 / 16) % 256,
     (q.v3 * 16 + q.v4 / 2) % 256,
     (q.v4 * 128 + q.v5 * 4 + q.v6 / 8) % 256,
     (q.v6 * 32 + q.v7) % 256]
  }

  function GroupBytes(q: Quints, pad: nat): (b: seq<Byte>)
    requires pad in {0, 1, 3, 4, 6}
    ensures |b| == Made(pad)
  {
    Joined(q)[..Made(pad)]
  }

  function DecAll(t: seq<Byte>): Quints
    requires |t| >= 8
  {
    Quints(Dec(t[0]), Dec(t[1]), Dec(t[2]), Dec(t[3]), Dec(t[4]), Dec(t[5]), Dec(t[6]), Dec(t[7]))
  }

  /** What the decoder makes of a text, with the padding seen so far. */
  function DecodedFrom(t: seq<Byte>, pad: nat): Option<seq<Byte>>
    requires pad in {0, 1, 3, 4, 6}
  {
    if |t| < 8 then (if t == [] then Some([]) else None)
    else
      var p := Padding(DecAll(t), pad);
      if p.None? then None
      else match DecodedFrom(t[8..], p.value)
           case None => None
           case Some(rest) => Some(GroupBytes(DecAll(t), p.value) + rest)
  }

  /** Taking bytes apart and putting them together. */
  lemma SplitJoined(a: Byte, b: Byte, c: Byte, d: Byte, e: Byte)
    ensures Joined(Split(a, b, c, d, e)) == [a, b, c, d, e]
  {
    JoinedFirst(a, b, c, d, e);
    JoinedSecond(a, b, c, d, e);
    JoinedThird(a, b, c, d, e);
    JoinedFourth(a, b, c, d, e);
    JoinedFifth(a, b, c, d, e);
    hide Split;
  }

  lemma Wrap(k: nat, b: Byte)
    ensures (k * 256 + b) % 256 == b
  {
  }

  lemma JoinedFirst(a: Byte, b: Byte, c: Byte, d: Byte, e: Byte)
    ensures var q := Split(a, b, c, d, e); (q.v0 * 8 + q.v1 / 4) % 256 == a
  {
    assert (a % 8 * 4 + b / 64) / 4 == a % 8;
  }

  lemma JoinedSecond(a: Byte, b: Byte, c: Byte, d: Byte, e: Byte)
    ensures var q := Split(a, b, c, d, e); (q.v1 * 64 + q.v2 * 2 + q.v3 / 16) % 256 == b
  {
    assert (b % 2 * 16 + c / 16) / 16 == b % 2;
    assert b == b / 64 * 64 + b / 2 % 32 * 2 + b % 2;
    Wrap(a % 8, b);
  }

  lemma JoinedThird(a: Byte, b: Byte, c: Byte, d: Byte, e: Byte)
    ensures var q := Split(a, b, c, d, e); (q.v3 * 16 + q.v4 / 2) % 256 == c
  {
    assert (c % 16 * 2 + d / 128) / 2 == c % 16;
  }

  lemma JoinedFourth(a: Byte, b: Byte, c: Byte, d: Byte, e: Byte)
    ensures var q := Split(a, b, c, d, e); (q.v4 * 128 + q.v5 * 4 + q.v6 / 8) % 256 == d
  {
    assert (d % 4 * 8 + e / 32) / 8 == d % 4;
    assert d == d / 128 * 128 + d / 4 % 32 * 4 + d % 4;
    Wrap(c % 16, d);
  }

  lemma JoinedFifth(a: Byte, b: Byte, c: Byte, d: Byte, e: Byte)
    ensures var q := Split(a, b, c, d, e); (q.v6 * 32 + q.v7) % 256 == e
  {
  }

  lemma CharsBack(q: Quints)
    requires q.v0 < 32 && q.v1 < 32 && q.v2 < 32 && q.v3 < 32 && q.v4 < 32 && q.v5 < 32 && q.v6 < 32 && q.v7 < 32
    ensures DecAll(Chars(q)) == q && Padding(q, 0) == Some(0)
  {
    hide Enc;
    hide Dec;
    DecEnc(q.v0);
    DecEnc(q.v1);
    DecEnc(q.v2);
    DecEnc(q.v3);
    DecEnc(q.v4);
    DecEnc(q.v5);
    DecEnc(q.v6);
    DecEnc(q.v7);
  }

  lemma GroupBack(a: Byte, b: Byte, c: Byte, d: Byte, e: Byte)
    ensures var q := DecAll(Group(a, b, c, d, e)); Padding(q, 0) == Some(0) && GroupBytes(q, 0) == [a, b, c, d, e]
  {
    hide Split;
    hide Joined;
    hide Padding;
    CharsBack(Split(a, b, c, d, e));
    SplitJoined(a, b, c, d, e);
  }

  /** The padded values of a last group agree with the full ones where they carry bits. */
  lemma RestValues(x: seq<Byte>, q: Quints)
    requires 0 < |x| < 5
    requires q == Split(x[0], if |x| > 1 then x[1] else 0, if |x| > 2 then x[2] else 0, if |x| > 3 then x[3] else 0, 0)
    ensures var r := DecAll(Rest(x));
      && r.v0 == q.v0 && r.v1 == q.v1
      && r.v2 == (if |x| > 1 then q.v2 else PD) && r.v3 == (if |x| > 1 then q.v3 else PD)
      && r.v4 == (if |x| > 2 then q.v4 else PD)
      && r.v5 == (if |x| > 3 then q.v5 else PD) && r.v6 == (if |x| > 3 then q.v6 else PD) && r.v7 == PD
  {
    CharsBack(q);
    DecPad();
    hide Split;
    hide Enc;
    hide Dec;
    var t, g := Rest(x), Chars(q);
    assert forall i | 0 <= i < 8 :: t[i] == if i < Used(|x|) then g[i] else PAD_CHAR;
    hide Chars;
    hide Rest;
  }

  lemma RestBack(x: seq<Byte>)
    requires 0 < |x| < 5
    ensures var r := DecAll(Rest(x)); var p := Padding(r, 0);
      p.Some? && Made(p.value) == |x| && GroupBytes(r, p.value) == x
  {
    var b, c, d := if |x| > 1 then x[1] else 0, if |x| > 2 then x[2] else 0, if |x| > 3 then x[3] else 0;
    var q := Split(x[0], b, c, d, 0);
    RestValues(x, q);
    SplitJoined(x[0], b, c, d, 0);
    hide Rest;
    hide Split;
    hide DecAll;
    var r := DecAll(Rest(x));
    JoinedSame(q, r, |x|);
  }

  lemma JoinedSame(q: Quints, r: Quints, n: nat)
    requires 0 < n < 5 && r.v0 == q.v0 && r.v1 == q.v1
    requires n > 1 ==> r.v2 == q.v2 && r.v3 == q.v3
    requires n > 2 ==> r.v4 == q.v4
    requires n > 3 ==> r.v5 == q.v5 && r.v6 == q.v6
    ensures Joined(r)[..n] == Joined(q)[..n]
  {
  }

  /** Decoding an encoding gives the bytes back. */
  lemma {:induction false} RoundTrip(x: seq<Byte>)
    ensures DecodedFrom(Encoded(x), 0) == Some(x)
  {
    hide Group;
    hide Rest;
    hide Padding;
    hide GroupBytes;
    hide DecAll;
    if 0 < |x| < 5 {
      RestBack(x);
      assert Rest(x)[8..] == [] && x + [] == x;
    } else if |x| >= 5 {
      var g := Group(x[0], x[1], x[2], x[3], x[4]);
      var t := g + Encoded(x[5..]);
      GroupBack(x[0], x[1], x[2], x[3], x[4]);
      SameValues(g, t);
      assert t[8..] == Encoded(x[5..]);
      RoundTrip(x[5..]);
      assert [x[0], x[1], x[2], x[3], x[4]] + x[5..] == x;
    }
  }

  lemma SameValues(g: seq<Byte>, t: seq<Byte>)
    requires |g| == 8 && g <= t
    ensures DecAll(t) == DecAll(g)
  {
  }

  // Texts the encoder could have made.  The decoder accepts more: capital letters, padding inside a text, where it
  // shortens every later group, and any bits of the last group that belong to no byte

  predicate Capital(b: Byte) { 65 <= b <= 86 }

  /** The bits of a last group that belong to no byte are zero. */
  predicate NoSpare(u: seq<Byte>)
    requires |u| == 8
  {
    if u[2] == PAD_CHAR then Dec(u[1]) % 4 == 0
    else if u[4] == PAD_CHAR then Dec(u[3]) % 16 == 0
    else if u[5] == PAD_CHAR then Dec(u[4]) % 2 == 0
    else u[7] == PAD_CHAR ==> Dec(u[6]) % 8 == 0
  }

  /** No capitals, padding only at the end of the last group, and no spare bits. */
  predicate Canonical(t: seq<Byte>) {
    var n := |t|;
    n < 8 ||
    ((forall i | 0 <= i < n :: !Capital(t[i])) && PAD_CHAR !in t[..n - 6] && NoSpare(t[n - 8..]))
  }

  lemma EncIs(v: nat, b: Byte)
    requires v < 32 && Dec(b) < 32
    ensures Enc(v) == b <==> v == Dec(b) && !Capital(b)
    ensures b != PAD_CHAR
  {
  }

  lemma PadDec(b: Byte)
    ensures Dec(b) == PD <==> b == PAD_CHAR
    ensures b == PAD_CHAR ==> !Capital(b)
  {
  }

  lemma EncNotPad(v: nat)
    requires v < 32
    ensures Enc(v) != PAD_CHAR
  {
  }

  predicate Plain(q: Quints) {
    q.v0 < 32 && q.v1 < 32 && q.v2 < 32 && q.v3 < 32 && q.v4 < 32 && q.v5 < 32 && q.v6 < 32 && q.v7 < 32
  }

  lemma Bits2(h: nat, v: nat, w: nat)
    requires h < 4 && v < 32 && w < 2
    ensures var d := h * 64 + v * 2 + w; d < 256 && d / 64 == h && d / 2 % 32 == v && d % 2 == w
  {
    var d := h * 64 + v * 2 + w;
    assert d == 2 * (h * 32 + v) + w;
    assert d / 2 == h * 32 + v;
  }

  lemma Bits4(h: nat, v: nat, w: nat)
    requires h < 2 && v < 32 && w < 4
    ensures var d := h * 128 + v * 4 + w; d < 256 && d / 128 == h && d / 4 % 32 == v && d % 4 == w
  {
    var d := h * 128 + v * 4 + w;
    assert d == 4 * (h * 32 + v) + w;
    assert d / 4 == h * 32 + v;
  }

  lemma SplitFirst(v0: nat, v1: nat)
    requires v0 < 32 && v1 < 32
    ensures var a := (v0 * 8 + v1 / 4) % 256; a / 8 == v0 && a % 8 == v1 / 4
  {
  }

  lemma SplitSecond(v1: nat, v2: nat, v3: nat)
    requires v1 < 32 && v2 < 32 && v3 < 32
    ensures var b := (v1 * 64 + v2 * 2 + v3 / 16) % 256; b / 64 == v1 % 4 && b / 2 % 32 == v2 && b % 2 == v3 / 16
  {
    var h, w := v1 % 4, v3 / 16;
    Bits2(h, v2, w);
    assert v1 * 64 == v1 / 4 * 256 + h * 64;
    Wrap(v1 / 4, h * 64 + v2 * 2 + w);
  }

  lemma SplitThird(v3: nat, v4: nat)
    requires v3 < 32 && v4 < 32
    ensures var c := (v3 * 16 + v4 / 2) % 256; c / 16 == v3 % 16 && c % 16 == v4 / 2
  {
    assert v3 * 16 == v3 / 16 * 256 + v3 % 16 * 16;
    Wrap(v3 / 16, v3 % 16 * 16 + v4 / 2);
  }

  lemma SplitFourth(v4: nat, v5: nat, v6: nat)
    requires v4 < 32 && v5 < 32 && v6 < 32
    ensures var d := (v4 * 128 + v5 * 4 + v6 / 8) % 256; d / 128 == v4 % 2 && d / 4 % 32 == v5 && d % 4 == v6 / 8
  {
    var h, w := v4 % 2, v6 / 8;
    Bits4(h, v5, w);
    assert v4 * 128 == v4 / 2 * 256 + h * 128;
    Wrap(v4 / 2, h * 128 + v5 * 4 + w);
  }

  lemma SplitFifth(v6: nat, v7: nat)
    requires v6 < 32 && v7 < 32
    ensures var e := (v6 * 32 + v7) % 256; e / 32 == v6 % 8 && e % 32 == v7
  {
    assert v6 * 32 == v6 / 8 * 256 + v6 % 8 * 32;
    Wrap(v6 / 8, v6 % 8 * 32 + v7);
  }

  /** Putting groups of five bits together and taking the bytes apart again. */
  lemma JoinedSplit(q: Quints)
    requires Plain(q)
    ensures var b := Joined(q); Split(b[0], b[1], b[2], b[3], b[4]) == q
  {
    SplitFirst(q.v0, q.v1);
    SplitSecond(q.v1, q.v2, q.v3);
    SplitThird(q.v3, q.v4);
    SplitFourth(q.v4, q.v5, q.v6);
    SplitFifth(q.v6, q.v7);
    Rejoin(q, Joined(q));
  }

  lemma Rejoin(q: Quints, b: seq<Byte>)
    requires Plain(q) && |b| == 5
    requires b[0] / 8 == q.v0 && b[0] % 8 == q.v1 / 4
    requires b[1] / 64 == q.v1 % 4 && b[1] / 2 % 32 == q.v2 && b[1] % 2 == q.v3 / 16
    requires b[2] / 16 == q.v3 % 16 && b[2] % 16 == q.v4 / 2
    requires b[3] / 128 == q.v4 % 2 && b[3] / 4 % 32 == q.v5 && b[3] % 4 == q.v6 / 8
    requires b[4] / 32 == q.v6 % 8 && b[4] % 32 == q.v7
    ensures Split(b[0], b[1], b[2], b[3], b[4]) == q
  {
  }

  /** The values of a last group of `n` bytes without its spare bits. */
  function Trim(q: Quints, n: nat): Quints
    requires 0 < n < 5
  {
    if n == 1 then Quints(q.v0, q.v1 / 4 * 4, 0, 0, 0, 0, 0, 0)
    else if n == 2 then Quints(q.v0, q.v1, q.v2, q.v3 / 16 * 16, 0, 0, 0, 0)
    else if n == 3 then Quints(q.v0, q.v1, q.v2, q.v3, q.v4 / 2 * 2, 0, 0, 0)
    else Quints(q.v0, q.v1, q.v2, q.v3, q.v4, q.v5, q.v6 / 8 * 8, 0)
  }

  predicate Shaped(q: Quints, n: nat) {
    && q.v0 < 32 && q.v1 < 32
    && (if n > 1 then q.v2 < 32 && q.v3 < 32 else q.v2 == q.v3 == PD)
    && (if n > 2 then q.v4 < 32 else q.v4 == PD)
    && (if n > 3 then q.v5 < 32 && q.v6 < 32 else q.v5 == q.v6 == PD)
    && (if n > 4 then q.v7 < 32 else q.v7 == PD)
  }

  /** Without earlier padding a group is padded at its end only. */
  lemma PaddingShape(q: Quints)
    requires Padding(q, 0).Some?
    ensures Shaped(q, Made(Padding(q, 0).value))
  {
  }

  lemma TrimOne(q: Quints)
    requires Shaped(q, 1)
    ensures Plain(Trim(q, 1)) && Joined(Trim(q, 1))[..1] == Joined(q)[..1]
    ensures forall i | 1 <= i < 5 :: Joined(Trim(q, 1))[i] == 0
  {
    Wrap(q.v1 / 4, 0);
  }

  lemma TrimTwo(q: Quints)
    requires Shaped(q, 2)
    ensures Plain(Trim(q, 2)) && Joined(Trim(q, 2))[..2] == Joined(q)[..2]
    ensures forall i | 2 <= i < 5 :: Joined(Trim(q, 2))[i] == 0
  {
    Wrap(q.v3 / 16, 0);
  }

  lemma TrimThree(q: Quints)
    requires Shaped(q, 3)
    ensures Plain(Trim(q, 3)) && Joined(Trim(q, 3))[..3] == Joined(q)[..3]
    ensures forall i | 3 <= i < 5 :: Joined(Trim(q, 3))[i] == 0
  {
    Wrap(q.v4 / 2, 0);
  }

  lemma TrimFour(q: Quints)
    requires Shaped(q, 4)
    ensures Plain(Trim(q, 4)) && Joined(Trim(q, 4))[..4] == Joined(q)[..4]
    ensures forall i | 4 <= i < 5 :: Joined(Trim(q, 4))[i] == 0
  {
    Wrap(q.v6 / 8, 0);
  }

  /** The spare bits of a group do not reach its bytes. */
  lemma TrimJoined(q: Quints, n: nat)
    requires 0 < n < 5 && Shaped(q, n)
    ensures Plain(Trim(q, n)) && Joined(Trim(q, n))[..n] == Joined(q)[..n]
    ensures forall i | n <= i < 5 :: Joined(Trim(q, n))[i] == 0
  {
    hide *;
    match n {
      case 1 => TrimOne(q);
      case 2 => TrimTwo(q);
      case 3 => TrimThree(q);
      case 4 => TrimFour(q);
    }
  }

  /** The last group made of the first bytes of a group. */
  lemma RestChars(q: Quints, n: nat)
    requires 0 < n < 5 && Shaped(q, n)
    ensures Plain(Trim(q, n)) && Rest(Joined(q)[..n]) == Chars(Trim(q, n))[..Used(n)] + Pads(8 - Used(n))
  {
    TrimJoined(q, n);
    JoinedSplit(Trim(q, n));
    var x, b := Joined(q)[..n], Joined(Trim(q, n));
    assert forall i | 0 <= i < n :: x[i] == b[i];
    hide Joined;
    hide Split;
    hide Chars;
    hide Trim;
  }

  lemma CharsAre(q: Quints, t: seq<Byte>, k: nat)
    requires Plain(q) && |t| == 8 && k <= 8 && forall i | 0 <= i < k :: Dec(t[i]) < 32
    ensures Chars(q)[..k] == t[..k] <==>
      && (k > 0 ==> q.v0 == Dec(t[0])) && (k > 1 ==> q.v1 == Dec(t[1])) && (k > 2 ==> q.v2 == Dec(t[2]))
      && (k > 3 ==> q.v3 == Dec(t[3])) && (k > 4 ==> q.v4 == Dec(t[4])) && (k > 5 ==> q.v5 == Dec(t[5]))
      && (k > 6 ==> q.v6 == Dec(t[6])) && (k > 7 ==> q.v7 == Dec(t[7]))
      && forall i | 0 <= i < k :: !Capital(t[i])
    ensures PAD_CHAR !in t[..k]
  {
    var c, v := Chars(q), [q.v0, q.v1, q.v2, q.v3, q.v4, q.v5, q.v6, q.v7];
    forall i | 0 <= i < k ensures (c[i] == t[i] <==> v[i] == Dec(t[i]) && !Capital(t[i])) && t[i] != PAD_CHAR {
      assert c[i] == Enc(v[i]);
      EncIs(v[i], t[i]);
    }
    hide Chars;
    hide Enc;
    hide Dec;
    hide Capital;
    Prefixes(c, t, k);
    assert (forall i | 0 <= i < k :: v[i] == Dec(t[i])) <==>
      && (k > 0 ==> q.v0 == Dec(t[0])) && (k > 1 ==> q.v1 == Dec(t[1])) && (k > 2 ==> q.v2 == Dec(t[2]))
      && (k > 3 ==> q.v3 == Dec(t[3])) && (k > 4 ==> q.v4 == Dec(t[4])) && (k > 5 ==> q.v5 == Dec(t[5]))
      && (k > 6 ==> q.v6 == Dec(t[6])) && (k > 7 ==> q.v7 == Dec(t[7]));
  }

  lemma Prefixes(a: seq<Byte>, b: seq<Byte>, k: nat)
    requires k <= |a| && k <= |b|
    ensures a[..k] == b[..k] <==> forall i | 0 <= i < k :: a[i] == b[i]
  {
    if a[..k] == b[..k] {
      forall i | 0 <= i < k ensures a[i] == b[i] {
        assert a[..k][i] == b[..k][i];
      }
    }
  }

  predicate NoCapitals(t: seq<Byte>) { forall i | 0 <= i < |t| :: !Capital(t[i]) }

  /** A group without padding encodes back to itself iff it has no capitals. */
  lemma FullGroup(t: seq<Byte>)
    requires |t| == 8 && Padding(DecAll(t), 0) == Some(0)
    ensures var g := GroupBytes(DecAll(t), 0);
      |g| == 5 && (Group(g[0], g[1], g[2], g[3], g[4]) == t <==> NoCapitals(t))
    ensures PAD_CHAR !in t
  {
    hide Split;
    hide Chars;
    hide Padding;
    hide Joined;
    hide Dec;
    hide Capital;
    var q := DecAll(t);
    PaddingShape(q);
    JoinedSplit(q);
    CharsAre(q, t, 8);
    assert t[..8] == t && Chars(q)[..8] == Chars(q) && Joined(q)[..5] == Joined(q);
  }

  /** A last group with padding encodes back to itself iff it has neither capitals nor spare bits. */
  lemma PaddedGroup(t: seq<Byte>)
    requires |t| == 8 && Padding(DecAll(t), 0).Some? && Padding(DecAll(t), 0) != Some(0)
    ensures var g := GroupBytes(DecAll(t), Padding(DecAll(t), 0).value);
      |g| < 5 && (Rest(g) == t <==> NoCapitals(t) && NoSpare(t))
    ensures PAD_CHAR !in t[..2] && t[7] == PAD_CHAR
  {
    hide Padding;
    hide Joined;
    hide Rest;
    hide Chars;
    hide Capital;
    hide NoSpare;
    hide Dec;
    var q, p := DecAll(t), Padding(DecAll(t), 0).value;
    var n := Made(p);
    PaddingShape(q);
    RestChars(q, n);
    CharsAre(Trim(q, n), t, Used(n));
    PadTail(t, Used(n));
    Spared(t, n);
    Halves(Rest(GroupBytes(q, p)), Chars(Trim(q, n))[..Used(n)], Pads(8 - Used(n)), t);
    assert t[..2] == t[..Used(n)][..2];
  }

  lemma Halves(r: seq<Byte>, a: seq<Byte>, b: seq<Byte>, t: seq<Byte>)
    requires r == a + b && |a| <= |t|
    ensures r == t <==> a == t[..|a|] && b == t[|a|..]
  {
    assert t == t[..|a|] + t[|a|..];
  }

  lemma PadTail(t: seq<Byte>, k: nat)
    requires |t| == 8 && k < 8 && forall i | k <= i < 8 :: Dec(t[i]) == PD
    ensures t[k..] == Pads(8 - k) && forall i | k <= i < 8 :: t[i] == PAD_CHAR && !Capital(t[i])
  {
  }

  /** Trimming changes nothing iff there are no spare bits. */
  lemma Spared(t: seq<Byte>, n: nat)
    requires |t| == 8 && 0 < n < 5 && Shaped(DecAll(t), n)
    ensures NoSpare(t) <==>
      var q := Trim(DecAll(t), n);
      if n == 1 then q.v1 == Dec(t[1]) else if n == 2 then q.v3 == Dec(t[3])
      else if n == 3 then q.v4 == Dec(t[4]) else q.v6 == Dec(t[6])
  {
    PadDec(t[2]);
    PadDec(t[4]);
    PadDec(t[5]);
    PadDec(t[7]);
    hide Dec;
  }

  lemma {:induction false} Unpadded(x: seq<Byte>)
    ensures |Encoded(x)| >= 8 && Encoded(x)[7] == PAD_CHAR ==> |Encoded(x)| == 8
  {
    if |x| >= 5 {
      EncNotPad(x[4] % 32);
      hide Enc;
    }
  }

  lemma CanonicalStep(t: seq<Byte>)
    requires |t| >= 16
    ensures Canonical(t) <==> PAD_CHAR !in t[..8] && NoCapitals(t[..8]) && Canonical(t[8..])
  {
    hide NoSpare;
    hide Capital;
    var n := |t|;
    assert t[..n - 6] == t[..8] + t[8..][..n - 14];
    assert t[8..][n - 16..] == t[n - 8..];
    assert forall i | 8 <= i < n :: t[i] == t[8..][i - 8];
  }

  lemma CanonicalLast(t: seq<Byte>)
    requires |t| == 8
    ensures Canonical(t) <==> PAD_CHAR !in t[..2] && NoCapitals(t) && NoSpare(t)
    ensures Canonical(t[8..])
  {
    assert t[0..] == t;
  }

  /** Encoding what a text decodes to gives the text back iff it is one of those. */
  lemma {:induction false} EncodesBack(t: seq<Byte>, x: seq<Byte>)
    requires DecodedFrom(t, 0) == Some(x)
    ensures Encoded(x) == t <==> Canonical(t)
  {
    hide Canonical;
    hide Group;
    hide DecAll;
    hide Padding;
    hide GroupBytes;
    hide NoSpare;
    hide NoCapitals;
    if |t| >= 8 {
      var h := t[..8];
      SameValues(h, t);
      var p := Padding(DecAll(t), 0).value;
      var g, rest := GroupBytes(DecAll(t), p), DecodedFrom(t[8..], p).value;
      assert x == g + rest && t == h + t[8..];
      if p == 0 {
        FullGroup(h);
        assert x[5..] == rest;
        assert Encoded(x) == Group(g[0], g[1], g[2], g[3], g[4]) + Encoded(rest);
        EncodesBack(t[8..], rest);
        Halves(Encoded(x), Group(g[0], g[1], g[2], g[3], g[4]), Encoded(rest), t);
        if |t| >= 16 {
          CanonicalStep(t);
        } else {
          CanonicalLast(t);
          PlainLast(t);
        }
      } else if |t| == 8 {
        assert h == t && g + [] == g;
        PaddedGroup(t);
        CanonicalLast(t);
      } else {
        PaddedGroup(h);
        Unpadded(x);
        CanonicalStep(t);
        assert h[7] in h;
      }
    } else {
      EncodedNone(x);
      ShortCanonical(t);
    }
  }

  lemma ShortCanonical(t: seq<Byte>)
    requires |t| < 8
    ensures Canonical(t)
  {
  }

  lemma PlainLast(t: seq<Byte>)
    requires |t| == 8 && PAD_CHAR !in t[..8]
    ensures PAD_CHAR !in t[..2] && NoSpare(t) && t[..8] == t
  {
    assert t[..8] == t && t[2] in t && t[4] in t && t[5] in t && t[7] in t;
  }

  /** Capitals and spare bits are accepted. */
  lemma AcceptsMore(t: seq<Byte>, u: seq<Byte>)
    requires t == [68, 48, 61, 61, 61, 61, 61, 61] && u == [100, 49, 61, 61, 61, 61, 61, 61]
    ensures DecodedFrom(t, 0) == Some([104]) && !Canonical(t)
    ensures DecodedFrom(u, 0) == Some([104]) && !Canonical(u)
  {
    var p := Quints(13, 0, PD, PD, PD, PD, PD, PD);
    var q := p.(v1 := 1);
    assert DecAll(t) == p && DecAll(u) == q && t[8..] == [] && u[8..] == [];
    var a: seq<Byte> := [104];
    assert GroupBytes(p, 6) == a && GroupBytes(q, 6) == a && a + [] == a;
    assert Padding(p, 0) == Some(6) && Padding(q, 0) == Some(6);
    assert Capital(t[0]) && Dec(u[1]) % 4 == 1;
    assert u[0..] == u;
  }

  /** Padding inside a text is accepted and shortens what follows. */
  lemma PaddingSticks(t: seq<Byte>)
    requires t == [100, 48, 61, 61, 61, 61, 61, 61, 48, 48, 48, 48, 48, 48, 48, 48]
    ensures DecodedFrom(t, 0) == Some([104, 0]) && !Canonical(t)
  {
    var p, z := Quints(13, 0, PD, PD, PD, PD, PD, PD), Quints(0, 0, 0, 0, 0, 0, 0, 0);
    var u := t[8..];
    assert DecAll(t) == p && DecAll(u) == z && u[8..] == [];
    var a: seq<Byte>, o: seq<Byte> := [104], [0];
    assert GroupBytes(p, 6) == a && GroupBytes(z, 6) == o && Padding(p, 0) == Some(6) && Padding(z, 6) == Some(6);
    assert o + [] == o && a + o == [104, 0];
    assert DecodedFrom(u, 6) == Some(o);
    assert t[..10][2] == PAD_CHAR;
  }

  /** Decodes into a buffer of `outLen` bytes. */
  method Decode(input: seq<Byte>, out: array<Byte>, outLen: nat) returns (r: int)
    requires outLen <= out.Length
    modifies out
    ensures r < 0 <==>
      || |input| > 0x7FFF_FFFF || outLen < (|input| + 7) / 8 * 5 || |input| % 8 != 0 || DecodedFrom(input, 0).None?
    ensures r >= 0 ==> r == |DecodedFrom(input, 0).value| <= |input| / 8 * 5 && out[..r] == DecodedFrom(input, 0).value
    ensures out[outLen..] == old(out[outLen..])
  {
    if |input| > 0x7FFF_FFFF || outLen < (|input| + 7) / 8 * 5 {
      return -1;
    }
    if |input| % 8 != 0 {
      return -1;
    }
    hide DecodedFrom;
    var ok, bin := DecodeGroups(input, out, |input| / 8);
    if !ok {
      return -1;
    }
    return bin;
  }

  method DecodeGroups(input: seq<Byte>, out: array<Byte>, n: nat) returns (ok: bool, bin: nat)
    requires |input| == 8 * n && 5 * n <= out.Length
    modifies out
    ensures !ok <==> DecodedFrom(input, 0).None?
    ensures ok ==> bin <= 5 * n && out[..bin] == DecodedFrom(input, 0).value
    ensures out[5 * n..] == old(out[5 * n..])
  {
    hide DecodedFrom;
    hide GroupBytes;
    hide DecAll;
    hide Padding;
    ghost var goal := DecodedFrom(input, 0);
    ghost var was := out[5 * n..];
    ok, bin := true, 0;
    var pad := 0;
    assert input[0..] == input && out[..0] == [];
    PrependNone(goal);
    var m := 0;
    while m < n
      invariant 0 <= m <= n && bin <= 5 * m && pad in {0, 1, 3, 4, 6}
      invariant goal == Prepend(out[..bin], DecodedFrom(input[8 * m..], pad)) && out[5 * n..] == was
    {
      ghost var before := out[..];
      var p := DecodeGroup(input, 8 * m, out, bin, pad);
      if p.None? {
        assert out[5 * n..] == was;
        return false, bin;
      }
      pad := p.value;
      bin := bin + Made(pad);
      assert out[5 * n..] == out[bin..][5 * n - bin..] && before[5 * n..] == before[bin..][5 * n - bin..];
      m := m + 1;
    }
    DecodedNone(input[8 * m..], pad, out[..bin]);
  }

  method DecodeGroup(input: seq<Byte>, k: nat, out: array<Byte>, bin: nat, pad: nat) returns (p: Option<nat>)
    requires k + 8 <= |input| && bin + 5 <= out.Length && pad in {0, 1, 3, 4, 6}
    modifies out
    ensures p.None? ==> Prepend(old(out[..bin]), DecodedFrom(input[k..], pad)) == None && out[..] == old(out[..])
    ensures p.Some? ==>
      && p.value in {0, 1, 3, 4, 6} && out[bin + Made(p.value)..] == old(out[bin + Made(p.value)..])
      && Prepend(old(out[..bin]), DecodedFrom(input[k..], pad))
         == Prepend(out[..bin + Made(p.value)], DecodedFrom(input[k + 8..], p.value))
  {
    hide DecodedFrom;
    hide GroupBytes;
    hide DecAll;
    hide Padding;
    ghost var t := input[k..];
    DecodeStep(t, pad, out[..bin]);
    assert t[8..] == input[k + 8..];
    var q := DecAll(input[k..]);
    p := Padding(q, pad);
    if p.Some? {
      WriteBytes(out, bin, q, p.value);
    }
  }

  /** The switch whose cases fall through: from the last byte a group makes down to the first. */
  method WriteBytes(out: array<Byte>, bin: nat, q: Quints, pad: nat)
    requires pad in {0, 1, 3, 4, 6} && bin + Made(pad) <= out.Length
    modifies out
    ensures out[..bin + Made(pad)] == old(out[..bin]) + GroupBytes(q, pad)
    ensures out[bin + Made(pad)..] == old(out[bin + Made(pad)..])
  {
    ghost var b := Joined(q);
    if pad <= 0 {
      out[bin + 4] := (q.v6 * 32 + q.v7) % 256;
    }
    if pad <= 1 {
      out[bin + 3] := (q.v4 * 128 + q.v5 * 4 + q.v6 / 8) % 256;
    }
    if pad <= 3 {
      out[bin + 2] := (q.v3 * 16 + q.v4 / 2) % 256;
    }
    if pad <= 4 {
      out[bin + 1] := (q.v1 * 64 + q.v2 * 2 + q.v3 / 16) % 256;
    }
    out[bin] := (q.v0 * 8 + q.v1 / 4) % 256;
    assert forall i | 0 <= i < Made(pad) :: out[bin + i] == b[i];
    assert out[..bin + Made(pad)] == old(out[..bin]) + b[..Made(pad)];
  }

  lemma DecodedNone(t: seq<Byte>, pad: nat, done: seq<Byte>)
    requires t == [] && pad in {0, 1, 3, 4, 6}
    ensures Prepend(done, DecodedFrom(t, pad)) == Some(done)
  {
    assert done + [] == done;
  }

  lemma DecodeStep(t: seq<Byte>, pad: nat, done: seq<Byte>)
    requires |t| >= 8 && pad in {0, 1, 3, 4, 6}
    ensures var p := Padding(DecAll(t), pad);
      Prepend(done, DecodedFrom(t, pad)) ==
        if p.None? then None
        else Prepend(done + GroupBytes(DecAll(t), p.value), DecodedFrom(t[8..], p.value))
  {
    hide GroupBytes;
    hide Padding;
    hide DecAll;
    var p := Padding(DecAll(t), pad);
    if p.Some? {
      var rest := DecodedFrom(t[8..], p.value);
      var g := GroupBytes(DecAll(t), p.value);
      if rest.Some? {
        assert done + (g + rest.value) == done + g + rest.value;
      }
    }
  }
}
