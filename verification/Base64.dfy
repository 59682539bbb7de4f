/** Base64 (section 4 of RFC 4648). */
module Base64 {
  import opened Prelude

  type Byte = x: int | 0 <= x < 256

  const MAX_BIN_DATA_LEN: nat := 0x7FFF_FFFF / 4 * 3
  const PAD_CHAR: Byte := 61
  const PD: nat := 64
  const KO: nat := 255

  // The alphabet

  function Enc(v: nat): Byte
    requires v < 64
  {
    if v < 26 then 65 + v else if v < 52 then 97 + (v - 26) else if v < 62 then 48 + (v - 52)
    else if v == 62 then 43 else 47
  }

  function Dec(b: Byte): (v: nat)
    ensures v < 64 || v == PD || v == KO
  {
    if 65 <= b <= 90 then b - 65 else if 97 <= b <= 122 then b - 97 + 26 else if 48 <= b <= 57 then b - 48 + 52
    else if b == 43 then 62 else if b == 47 then 63 else if b == PAD_CHAR then PD else KO
  }

  lemma DecEnc(v: nat)
    requires v < 64
    ensures Dec(Enc(v)) == v
  {
  }

  // Encoding

  function Group(a: nat, b: nat, c: nat): (t: seq<Byte>)
    requires a < 256 && b < 256 && c < 256
    ensures |t| == 4
  {
    [Enc(a / 4), Enc(a % 4 * 16 + b / 16), Enc(b % 16 * 4 + c / 64), Enc(c % 64)]
  }

  function Tail2(a: nat, b: nat): (t: seq<Byte>)
    requires a < 256 && b < 256
    ensures |t| == 4
  {
    [Enc(a / 4), Enc(a % 4 * 16 + b / 16), Enc(b % 16 * 4), PAD_CHAR]
  }

  function Tail1(a: nat): (t: seq<Byte>)
    requires a < 256
    ensures |t| == 4
  {
    [Enc(a / 4), Enc(a % 4 * 16), PAD_CHAR, PAD_CHAR]
  }

  /** The encoding of a byte string: three bytes make four characters, and the last group is padded. */
  function Encoded(x: seq<Byte>): seq<Byte> {
    if |x| < 3 then Rest(x) else Group(x[0], x[1], x[2]) + Encoded(x[3..])
  }

  /** The last group. */
  function Rest(x: seq<Byte>): (t: seq<Byte>)
    requires |x| < 3
    ensures |t| == if |x| == 0 then 0 else 4
  {
    if |x| == 0 then [] else if |x| == 1 then Tail1(x[0]) else Tail2(x[0], x[1])
  }

  lemma {:induction false} EncodedSize(x: seq<Byte>, n: nat)
    requires 3 * n <= |x| < 3 * n + 3
    ensures |Encoded(x)| == 4 * n + if |x| == 3 * n then 0 else 4
    decreases n
  {
    hide Group;
    hide Rest;
    if n > 0 {
      EncodedSize(x[3..], n - 1);
    }
  }

  lemma EncodedCons(x: seq<Byte>, y: seq<Byte>)
    requires |x| >= 3
    ensures Encoded(x + y) == Group(x[0], x[1], x[2]) + Encoded(x[3..] + y)
  {
    hide Group;
    hide Rest;
    assert (x + y)[3..] == x[3..] + y;
  }

  lemma {:induction false} EncodedThen(x: seq<Byte>, y: seq<Byte>, n: nat)
    requires |x| == 3 * n
    ensures Encoded(x + y) == Encoded(x) + Encoded(y)
    decreases n
  {
    if n == 0 {
      assert x + y == y;
    } else {
      hide Encoded;
      hide Group;
      EncodedThen(x[3..], y, n - 1);
      EncodedCons(x, y);
      EncodedCons(x, []);
      assert x + [] == x && x[3..] + [] == x[3..];
      Assoc(Group(x[0], x[1], x[2]), Encoded(x[3..]), Encoded(y));
    }
  }

  method PutGroup(out: array<Byte>, at: nat, g: seq<Byte>)
    requires |g| == 4 && at + 4 <= out.Length
    modifies out
    ensures out[..at + 4] == old(out[..at]) + g && out[at + 4..] == old(out[at + 4..])
  {
    out[at] := g[0];
    out[at + 1] := g[1];
    out[at + 2] := g[2];
    out[at + 3] := g[3];
    assert out[..at + 4] == old(out[..at]) + g;
  }

  /** Encodes into a buffer of `outLen` bytes; the result is the number of characters, or an error. */
  method Encode(input: seq<Byte>, out: array<Byte>, outLen: nat) returns (r: int)
    requires outLen <= out.Length
    modifies out
    ensures r < 0 <==> |input| > MAX_BIN_DATA_LEN || outLen < (|input| + 2) / 3 * 4
    ensures r < 0 ==> out[..] == old(out[..])
    ensures r >= 0 ==> r == |Encoded(input)| <= outLen && out[..r] == Encoded(input) && out[r..] == old(out[r..])
  {
    if |input| > MAX_BIN_DATA_LEN || outLen < (|input| + 2) / 3 * 4 {
      return -34;
    }
    TextSize(|input|);
    r := EncodeAll(input, out, |input| / 3, |input| % 3);
  }

  method EncodeAll(input: seq<Byte>, out: array<Byte>, n: nat, rest: nat) returns (r: nat)
    requires |input| == 3 * n + rest && rest < 3 && 4 * n + (if rest == 0 then 0 else 4) <= out.Length
    modifies out
    ensures r == |Encoded(input)| == 4 * n + (if rest == 0 then 0 else 4)
    ensures out[..r] == Encoded(input) && out[r..] == old(out[r..])
  {
    hide Encoded;
    hide Rest;
    hide Group;
    EncodedSize(input, n);
    LastEncoded(input, n);
    ghost var was := out[..];
    EncodeGroups(input, out, n);
    r := 4 * n;
    if rest > 0 {
      PutGroup(out, r, Rest(input[3 * n..]));
      r := r + 4;
    }
    assert out[r..] == was[r..];
  }

  lemma TextSize(len: nat)
    ensures (len + 2) / 3 * 4 == 4 * (len / 3) + if len % 3 == 0 then 0 else 4
    ensures len == 3 * (len / 3) + len % 3
  {
  }

  /** The loop over whole groups. */
  method EncodeGroups(input: seq<Byte>, out: array<Byte>, n: nat)
    requires 3 * n <= |input| && 4 * n <= out.Length
    modifies out
    ensures out[..4 * n] == Encoded(input[..3 * n]) && out[4 * n..] == old(out[4 * n..])
  {
    hide Group;
    hide Encoded;
    ghost var was := out[..];
    EncodedNone(input[..0]);
    for m := 0 to n
      invariant out[..4 * m] == Encoded(input[..3 * m]) && out[4 * m..] == was[4 * m..]
    {
      var k := 3 * m;
      StepEncoded(input, m);
      PutGroup(out, 4 * m, Group(input[k], input[k + 1], input[k + 2]));
      assert out[4 * m + 4..] == was[4 * m + 4..];
    }
  }

  lemma EncodedNone(x: seq<Byte>)
    requires x == []
    ensures Encoded(x) == []
  {
  }

  lemma StepEncoded(x: seq<Byte>, m: nat)
    requires 3 * m + 3 <= |x|
    ensures Encoded(x[..3 * m + 3]) == Encoded(x[..3 * m]) + Group(x[3 * m], x[3 * m + 1], x[3 * m + 2])
  {
    hide Group;
    var k := 3 * m;
    var y := x[k..k + 3];
    assert x[..k + 3] == x[..k] + y;
    EncodedThen(x[..k], y, m);
    EncodedNone(y[3..]);
    assert Group(x[k], x[k + 1], x[k + 2]) + [] == Group(x[k], x[k + 1], x[k + 2]);
  }

  lemma LastEncoded(x: seq<Byte>, n: nat)
    requires 3 * n <= |x| < 3 * n + 3
    ensures Encoded(x) == Encoded(x[..3 * n]) + Rest(x[3 * n..])
    ensures |x| == 3 * n ==> Encoded(x[..3 * n]) == Encoded(x)
  {
    assert x == x[..3 * n] + x[3 * n..];
    EncodedThen(x[..3 * n], x[3 * n..], n);
    assert |x| == 3 * n ==> x[..3 * n] == x;
  }

  // Decoding

  /** The padding length after a group of four values; it is never taken back. */
  function Padding(c3: nat, c4: nat, pad: nat): Option<nat> {
    var p4 := if c4 < PD then Some(pad) else if c4 == PD && pad == 0 then Some(1) else None;
    match p4
    case None => None
    case Some(p) => if c3 < PD then Some(p) else if c3 == PD && p == 1 then Some(2) else None
  }

  function GroupBytes(c1: nat, c2: nat, c3: nat, c4: nat, pad: nat): (b: seq<Byte>)
    requires pad <= 2
    ensures |b| == 3 - pad
  {
    var b0, b1, b2 := (c1 * 4 + c2 / 16) % 256, (c2 * 16 + c3 / 4) % 256, (c3 * 64 + c4) % 256;
    if pad == 0 then [b0, b1, b2] else if pad == 1 then [b0, b1] else [b0]
  }

  /** What the decoder makes of a text, with the padding seen so far. */
  function DecodedFrom(t: seq<Byte>, pad: nat): Option<seq<Byte>>
    requires pad <= 2
  {
    if |t| < 4 then (if t == [] then Some([]) else None)
    else
      var p := Padding(Dec(t[2]), Dec(t[3]), pad);
      if p.None? || Dec(t[1]) >= PD || Dec(t[0]) >= PD then None
      else match DecodedFrom(t[4..], p.value)
           case None => None
           case Some(rest) => Some(GroupBytes(Dec(t[0]), Dec(t[1]), Dec(t[2]), Dec(t[3]), p.value) + rest)
  }

  /** Taking bytes apart into groups of six bits and putting them together. */
  lemma Sextets(a: Byte, b: Byte, c: Byte)
    ensures (a / 4 * 4 + (a % 4 * 16 + b / 16) / 16) % 256 == a
    ensures ((a % 4 * 16 + b / 16) * 16 + (b % 16 * 4 + c / 64) / 4) % 256 == b
    ensures ((b % 16 * 4 + c / 64) * 64 + c % 64) % 256 == c
    ensures a / 4 < 64 && a % 4 * 16 + b / 16 < 64 && b % 16 * 4 + c / 64 < 64 && c % 64 < 64
  {
    assert (a % 4 * 16 + b / 16) / 16 == a % 4;
    assert (b % 16 * 4 + c / 64) / 4 == b % 16;
  }

  lemma GroupBack(a: Byte, b: Byte, c: Byte)
    ensures var t := Group(a, b, c);
      && Dec(t[0]) < PD && Dec(t[1]) < PD && Padding(Dec(t[2]), Dec(t[3]), 0) == Some(0)
      && GroupBytes(Dec(t[0]), Dec(t[1]), Dec(t[2]), Dec(t[3]), 0) == [a, b, c]
  {
    hide Enc;
    hide Dec;
    Sextets(a, b, c);
    var v0, v1, v2, v3 := a / 4, a % 4 * 16 + b / 16, b % 16 * 4 + c / 64, c % 64;
    DecEnc(v0);
    DecEnc(v1);
    DecEnc(v2);
    DecEnc(v3);
    assert GroupBytes(v0, v1, v2, v3, 0) == [a, b, c];
  }

  lemma Pair(a: Byte, b: Byte)
    ensures (a / 4 * 4 + (a % 4 * 16 + b / 16) / 16) % 256 == a
    ensures ((a % 4 * 16 + b / 16) * 16 + b % 16 * 4 / 4) % 256 == b
    ensures a / 4 < 64 && a % 4 * 16 + b / 16 < 64 && b % 16 * 4 < 64
  {
    assert (a % 4 * 16 + b / 16) / 16 == a % 4;
    assert b % 16 * 4 / 4 == b % 16;
  }

  lemma Tail2Back(a: Byte, b: Byte)
    ensures var t := Tail2(a, b);
      && Dec(t[0]) < PD && Dec(t[1]) < PD && Padding(Dec(t[2]), Dec(t[3]), 0) == Some(1)
      && GroupBytes(Dec(t[0]), Dec(t[1]), Dec(t[2]), Dec(t[3]), 1) == [a, b]
  {
    hide Enc;
    hide Dec;
    Pair(a, b);
    var v0, v1, v2 := a / 4, a % 4 * 16 + b / 16, b % 16 * 4;
    DecEnc(v0);
    DecEnc(v1);
    DecEnc(v2);
    DecPad();
    assert GroupBytes(v0, v1, v2, PD, 1) == [a, b];
  }

  lemma Tail1Back(a: Byte)
    ensures var t := Tail1(a);
      && Dec(t[0]) < PD && Dec(t[1]) < PD && Padding(Dec(t[2]), Dec(t[3]), 0) == Some(2)
      && GroupBytes(Dec(t[0]), Dec(t[1]), Dec(t[2]), Dec(t[3]), 2) == [a]
  {
    Sextets(a, 0, 0);
    DecEnc(a / 4);
    DecEnc(a % 4 * 16);
    DecPad();
    hide Enc;
    hide Dec;
  }

  lemma DecPad()
    ensures Dec(PAD_CHAR) == PD
  {
  }

  /** Decoding an encoding gives the bytes back. */
  lemma {:induction false} RoundTrip(x: seq<Byte>)
    ensures DecodedFrom(Encoded(x), 0) == Some(x)
  {
    hide Group;
    hide Tail2;
    hide Tail1;
    hide Padding;
    hide GroupBytes;
    hide Dec;
    var t := Encoded(x);
    if |x| == 1 {
      Tail1Back(x[0]);
      assert t[4..] == [] && [x[0]] + [] == x;
    } else if |x| == 2 {
      Tail2Back(x[0], x[1]);
      assert t[4..] == [] && [x[0], x[1]] + [] == x;
    } else if |x| >= 3 {
      GroupBack(x[0], x[1], x[2]);
      assert t[4..] == Encoded(x[3..]);
      RoundTrip(x[3..]);
      assert [x[0], x[1], x[2]] + x[3..] == x;
    }
  }

  // Texts the encoder could have made.  The decoder accepts more: it lets padding stand inside a text, where it
  // shortens every later group, and it ignores the bits of the last group that belong to no byte

  /** Padding stands only at the end of the last group, and the bits that belong to no byte are zero. */
  predicate Canonical(t: seq<Byte>) {
    var n := |t|;
    n < 4 ||
    (&& PAD_CHAR !in t[..n - 2]
     && (t[n - 2] == PAD_CHAR ==> Dec(t[n - 3]) % 16 == 0)
     && (t[n - 2] != PAD_CHAR && t[n - 1] == PAD_CHAR ==> Dec(t[n - 2]) % 4 == 0))
  }

  /** Texts with padding inside and texts with stray bits decode to what other texts encode. */
  lemma AcceptsMore(t: seq<Byte>, u: seq<Byte>)
    requires t == [81, 81, PAD_CHAR, PAD_CHAR, 81, 85, 74, 68] && u == [81, 82, PAD_CHAR, PAD_CHAR]
    ensures DecodedFrom(t, 0) == Some([65, 65]) && !Canonical(t)
    ensures DecodedFrom(u, 0) == Some([65]) && !Canonical(u)
  {
    var v := t[4..];
    var g: seq<Byte> := [65];
    assert Dec(v[0]) == 16 && Dec(v[1]) == 20 && Dec(v[2]) == 9 && Dec(v[3]) == 3;
    assert Padding(9, 3, 2) == Some(2) && GroupBytes(16, 20, 9, 3, 2) == g;
    assert v[4..] == [] && g + [] == g;
    assert DecodedFrom(v, 2) == Some(g);
    assert Dec(t[0]) == 16 && Dec(t[1]) == 16 && Dec(t[2]) == PD && Dec(t[3]) == PD;
    assert Padding(PD, PD, 0) == Some(2) && GroupBytes(16, 16, PD, PD, 2) == g;
    assert DecodedFrom(t, 0) == Some(g + g);
    assert g + g == [65, 65];
    assert t[..6][2] == PAD_CHAR;
    assert Dec(u[0]) == 16 && Dec(u[1]) == 17 && GroupBytes(16, 17, PD, PD, 2) == g && u[4..] == [];
  }

  lemma EncDec(b: Byte)
    requires Dec(b) < 64
    ensures Enc(Dec(b)) == b && b != PAD_CHAR
  {
  }

  lemma EncNotPad(v: nat)
    requires v < 64
    ensures Enc(v) != PAD_CHAR
  {
  }

  lemma EncInjective(v: nat, w: nat)
    requires v < 64 && w < 64
    ensures Enc(v) == Enc(w) <==> v == w
  {
    DecEnc(v);
    DecEnc(w);
  }

  lemma Wrap(k: nat, b: nat)
    requires b < 256
    ensures (k * 256 + b) % 256 == b
  {
  }

  lemma First(c1: nat, c2: nat)
    requires c1 < 64 && c2 < 64
    ensures var b := (c1 * 4 + c2 / 16) % 256; b / 4 == c1 && b % 4 == c2 / 16
  {
  }

  lemma Second(c2: nat, c3: nat)
    requires c2 < 64 && c3 < 64
    ensures var b := (c2 * 16 + c3 / 4) % 256; b / 16 == c2 % 16 && b % 16 == c3 / 4
  {
    assert c2 * 16 == c2 / 16 * 256 + c2 % 16 * 16;
    Wrap(c2 / 16, c2 % 16 * 16 + c3 / 4);
  }

  lemma Third(c3: nat, c4: nat)
    requires c3 < 64 && c4 < 64
    ensures var b := (c3 * 64 + c4) % 256; b / 64 == c3 % 4 && b % 64 == c4
  {
    assert c3 * 64 == c3 / 4 * 256 + c3 % 4 * 64;
    Wrap(c3 / 4, c3 % 4 * 64 + c4);
  }

  /** Putting groups of six bits together and taking the bytes apart again. */
  lemma Octets(c1: nat, c2: nat, c3: nat, c4: nat)
    requires c1 < 64 && c2 < 64 && c3 < 64 && c4 < 64
    ensures var b0, b1, b2 := (c1 * 4 + c2 / 16) % 256, (c2 * 16 + c3 / 4) % 256, (c3 * 64 + c4) % 256;
      && b0 / 4 == c1 && b0 % 4 == c2 / 16
      && b0 % 4 * 16 + b1 / 16 == c2 && b1 % 16 == c3 / 4
      && b1 % 16 * 4 + b2 / 64 == c3 && b2 % 64 == c4
  {
    First(c1, c2);
    Second(c2, c3);
    Third(c3, c4);
    Divided(c2, 16);
    Divided(c3, 4);
  }

  lemma Divided(c: nat, k: nat)
    requires k > 0
    ensures c / k * k + c % k == c
  {
  }

  /** A group without padding encodes back to itself. */
  lemma FullGroup(t: seq<Byte>)
    requires |t| >= 4 && Dec(t[0]) < PD && Dec(t[1]) < PD && Padding(Dec(t[2]), Dec(t[3]), 0) == Some(0)
    ensures var g := GroupBytes(Dec(t[0]), Dec(t[1]), Dec(t[2]), Dec(t[3]), 0); Group(g[0], g[1], g[2]) == t[..4]
    ensures PAD_CHAR !in t[..4]
  {
    Octets(Dec(t[0]), Dec(t[1]), Dec(t[2]), Dec(t[3]));
    EncDec(t[0]);
    EncDec(t[1]);
    EncDec(t[2]);
    EncDec(t[3]);
    hide Enc;
    hide Dec;
  }

  /** A last group with padding encodes back to itself iff its spare bits are zero. */
  lemma PaddedGroup(t: seq<Byte>, p: nat)
    requires |t| == 4 && Dec(t[0]) < PD && Dec(t[1]) < PD && Padding(Dec(t[2]), Dec(t[3]), 0) == Some(p) && 0 < p <= 2
    ensures Rest(GroupBytes(Dec(t[0]), Dec(t[1]), Dec(t[2]), Dec(t[3]), p)) == t <==> Canonical(t)
    ensures t[3] == PAD_CHAR
  {
    hide Enc;
    hide Dec;
    EncDec(t[0]);
    EncDec(t[1]);
    PadDec(t[2]);
    PadDec(t[3]);
    var c1, c2, c3 := Dec(t[0]), Dec(t[1]), Dec(t[2]);
    Divided(c2, 16);
    Divided(c3, 4);
    if p == 2 {
      First(c1, c2);
      EncInjective(c2 / 16 * 16, c2);
    } else {
      First(c1, c2);
      Second(c2, c3);
      EncDec(t[2]);
      EncInjective(c3 / 4 * 4, c3);
    }
  }

  lemma PadDec(b: Byte)
    ensures Dec(b) == PD <==> b == PAD_CHAR
  {
  }

  lemma {:induction false} Unpadded(x: seq<Byte>)
    ensures |Encoded(x)| >= 4 && Encoded(x)[3] == PAD_CHAR ==> |Encoded(x)| == 4
  {
    if |x| >= 3 {
      EncNotPad(x[2] % 64);
      hide Enc;
    }
  }

  lemma PlainGroup(t: seq<Byte>)
    requires |t| == 4 && PAD_CHAR !in t[..4]
    ensures Canonical(t) && Canonical(t[4..])
  {
    assert t[2] in t[..4] && t[3] in t[..4];
    assert t[..2] == t[..4][..2];
  }

  lemma CanonicalStep(t: seq<Byte>)
    requires |t| >= 8
    ensures Canonical(t) <==> PAD_CHAR !in t[..4] && Canonical(t[4..])
  {
    var n := |t|;
    assert t[..n - 2] == t[..4] + t[4..][..n - 6];
  }

  /** Encoding what a text decodes to gives the text back iff it is one of those. */
  lemma {:induction false} EncodesBack(t: seq<Byte>, x: seq<Byte>)
    requires DecodedFrom(t, 0) == Some(x)
    ensures Encoded(x) == t <==> Canonical(t)
  {
    if |t| >= 4 {
      hide Canonical;
      hide Group;
      hide Dec;
      var p := Padding(Dec(t[2]), Dec(t[3]), 0).value;
      var g := GroupBytes(Dec(t[0]), Dec(t[1]), Dec(t[2]), Dec(t[3]), p);
      if p == 0 {
        FullGroup(t);
        var rest := DecodedFrom(t[4..], 0).value;
        assert x[3..] == rest && Encoded(x) == t[..4] + Encoded(rest);
        EncodesBack(t[4..], rest);
        assert t == t[..4] + t[4..];
        if |t| >= 8 {
          CanonicalStep(t);
        } else {
          PlainGroup(t);
        }
      } else if |t| == 4 {
        assert g + [] == g && x == g;
        PaddedGroup(t, p);
      } else {
        PadDec(t[3]);
        Unpadded(x);
        CanonicalStep(t);
        assert t[3] in t[..4];
      }
    } else {
      EncodedNone(x);
    }
  }

  datatype DecodeError = Range | Size | Char

  /** Decodes into a buffer of `outLen` bytes; the bytes of a group are written from the last to the first. */
  method Decode(input: seq<Byte>, out: array<Byte>, outLen: nat) returns (r: int, e: Option<DecodeError>)
    requires outLen <= out.Length
    modifies out
    ensures e == Some(Range) <==> |input| > 0x7FFF_FFFF || outLen < (|input| + 3) / 4 * 3
    ensures e == Some(Size) <==> e != Some(Range) && |input| % 4 != 0
    ensures e == Some(Char) <==> e != Some(Range) && |input| % 4 == 0 && DecodedFrom(input, 0).None?
    ensures e == None ==>
      && |input| % 4 == 0 && DecodedFrom(input, 0).Some?
      && r == |DecodedFrom(input, 0).value| <= |input| / 4 * 3 && out[..r] == DecodedFrom(input, 0).value
    ensures out[outLen..] == old(out[outLen..])
  {
    r, e := -1, None;
    if |input| > 0x7FFF_FFFF || outLen < (|input| + 3) / 4 * 3 {
      return -1, Some(Range);
    }
    if |input| % 4 != 0 {
      return -1, Some(Size);
    }
    var ok, bin := DecodeGroups(input, out, |input| / 4);
    if !ok {
      return -1, Some(Char);
    }
    return bin, None;
  }

  method DecodeGroups(input: seq<Byte>, out: array<Byte>, n: nat) returns (ok: bool, bin: nat)
    requires |input| == 4 * n && 3 * n <= out.Length
    modifies out
    ensures !ok <==> DecodedFrom(input, 0).None?
    ensures ok ==> bin <= 3 * n && out[..bin] == DecodedFrom(input, 0).value
    ensures out[3 * n..] == old(out[3 * n..])
  {
    hide *;
    ghost var goal := DecodedFrom(input, 0);
    ghost var was := out[3 * n..];
    ok, bin := true, 0;
    var pad := 0;
    assert input[0..] == input && out[..0] == [];
    PrependNone(goal);
    var m := 0;
    while m < n
      invariant 0 <= m <= n && bin <= 3 * m && 0 <= pad <= 2
      invariant goal == Prepend(out[..bin], DecodedFrom(input[4 * m..], pad)) && out[3 * n..] == was
    {
      ghost var before := out[..];
      var p := DecodeGroup(input, 4 * m, out, bin, pad);
      if p.None? {
        assert out[3 * n..] == was;
        return false, bin;
      }
      pad := p.value;
      bin := bin + 3 - pad;
      assert out[3 * n..] == out[bin..][3 * n - bin..] && before[3 * n..] == before[bin..][3 * n - bin..];
      m := m + 1;
    }
    DecodedNone(input[4 * m..], pad, out[..bin]);
  }

  /** One group: four characters are checked from the last to the second last and then the first two. */
  method DecodeGroup(input: seq<Byte>, k: nat, out: array<Byte>, bin: nat, pad: nat) returns (p: Option<nat>)
    requires k + 4 <= |input| && bin + 3 <= out.Length && pad <= 2
    modifies out
    ensures p.None? ==> Prepend(old(out[..bin]), DecodedFrom(input[k..], pad)) == None && out[..] == old(out[..])
    ensures p.Some? ==>
      && p.value <= 2 && out[bin + 3 - p.value..] == old(out[bin + 3 - p.value..])
      && Prepend(old(out[..bin]), DecodedFrom(input[k..], pad))
         == Prepend(out[..bin + 3 - p.value], DecodedFrom(input[k + 4..], p.value))
  {
    hide DecodedFrom;
    hide GroupBytes;
    hide Dec;
    ghost var t := input[k..];
    DecodeStep(t, pad, out[..bin]);
    assert t[4..] == input[k + 4..];
    var c1, c2, c3, c4 := Dec(input[k]), Dec(input[k + 1]), Dec(input[k + 2]), Dec(input[k + 3]);
    p := Padding(c3, c4, pad);
    if p.None? || c2 >= PD || c1 >= PD {
      return None;
    }
    WriteBytes(out, bin, c1, c2, c3, c4, p.value);
  }

  /** The switch whose cases fall through. */
  method WriteBytes(out: array<Byte>, bin: nat, c1: nat, c2: nat, c3: nat, c4: nat, pad: nat)
    requires pad <= 2 && bin + 3 - pad <= out.Length
    modifies out
    ensures out[..bin + 3 - pad] == old(out[..bin]) + GroupBytes(c1, c2, c3, c4, pad)
    ensures out[bin + 3 - pad..] == old(out[bin + 3 - pad..])
  {
    if pad <= 0 {
      out[bin + 2] := (c3 * 64 + c4) % 256;
    }
    if pad <= 1 {
      out[bin + 1] := (c2 * 16 + c3 / 4) % 256;
    }
    out[bin] := (c1 * 4 + c2 / 16) % 256;
    assert out[..bin + 3 - pad] == old(out[..bin]) + GroupBytes(c1, c2, c3, c4, pad);
  }

  lemma DecodedNone(t: seq<Byte>, pad: nat, done: seq<Byte>)
    requires t == [] && pad <= 2
    ensures Prepend(done, DecodedFrom(t, pad)) == Some(done)
  {
    assert done + [] == done;
  }

  lemma DecodeStep(t: seq<Byte>, pad: nat, done: seq<Byte>)
    requires |t| >= 4 && pad <= 2
    ensures var p := Padding(Dec(t[2]), Dec(t[3]), pad);
      Prepend(done, DecodedFrom(t, pad)) ==
        if p.None? || Dec(t[1]) >= PD || Dec(t[0]) >= PD then None
        else Prepend(done + GroupBytes(Dec(t[0]), Dec(t[1]), Dec(t[2]), Dec(t[3]), p.value), DecodedFrom(t[4..], p.value))
  {
    hide GroupBytes;
    var p := Padding(Dec(t[2]), Dec(t[3]), pad);
    if p.Some? && Dec(t[1]) < PD && Dec(t[0]) < PD {
      var rest := DecodedFrom(t[4..], p.value);
      var g := GroupBytes(Dec(t[0]), Dec(t[1]), Dec(t[2]), Dec(t[3]), p.value);
      if rest.Some? {
        assert done + (g + rest.value) == done + g + rest.value;
      }
    }
  }
}
