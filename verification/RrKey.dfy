/** Keys made of a class, an owner name and two types, under which identical questions are found. */
module RrKey {
  import opened NameCodec

  // Decimal digits by fixed-point arithmetic

  const ONE: nat := 0x1000_0000    // 28 bits behind the point

  function Pow10(k: nat): (p: nat)
    ensures p > 0
  {
    if k == 0 then 1 else 10 * Pow10(k - 1)
  }

  /** The digit of `n` at the power `k` of ten. */
  function Digit(n: nat, k: nat): (d: nat)
    ensures d < 10
  {
    n / Pow10(k) % 10
  }

  /** Five decimal digits, leading zeros included. */
  function Decimal(n: nat): (s: seq<Byte>)
    ensures |s| == 5
  {
    [48 + Digit(n, 4), 48 + Digit(n, 3), 48 + Digit(n, 2), 48 + Digit(n, 1), 48 + Digit(n, 0)]
  }

  lemma DigitsMake(n: nat)
    requires n < 65536
    ensures n == 10000 * Digit(n, 4) + 1000 * Digit(n, 3) + 100 * Digit(n, 2) + 10 * Digit(n, 1) + Digit(n, 0)
  {
    assert Pow10(4) == 10000 && Pow10(3) == 1000 && Pow10(2) == 100 && Pow10(1) == 10 && Pow10(0) == 1;
    var a, b, c := n / 10, n / 100, n / 1000;
    assert b == a / 10 && c == b / 10 && n / 10000 == c / 10;
  }

  lemma DecimalInjective(m: nat, n: nat)
    requires m < 65536 && n < 65536 && Decimal(m) == Decimal(n)
    ensures m == n
  {
    DigitsMake(m);
    DigitsMake(n);
    assert forall i | 0 <= i < 5 :: Decimal(m)[i] == Decimal(n)[i];
    assert Decimal(m)[0] as int == 48 + Digit(m, 4);
  }

  /** The digit in front of the point, with a small error `e` behind it: `p * tmp` is `r` and `e`. */
  lemma FixedPoint(p: nat, r: nat, e: nat, tmp: nat)
    requires p > 0 && e < ONE && p * tmp == r * ONE + e
    ensures tmp / ONE == r / p
    ensures p * (tmp % ONE) == (r % p) * ONE + e
  {
    var d, rest := r / p, r % p;
    assert r == d * p + rest;
    assert p * tmp == p * (d * ONE) + (rest * ONE + e) by {
      assert r * ONE == (d * p) * ONE + rest * ONE;
    }
    var t := tmp - d * ONE;
    assert p * t == rest * ONE + e by {
      assert p * t == p * tmp - p * (d * ONE);
    }
    assert rest * ONE + e < (rest + 1) * ONE <= p * ONE;
    Cancel(p, t, ONE);
    assert tmp == d * ONE + t;
  }

  lemma Cancel(p: nat, t: int, n: nat)
    requires p > 0 && 0 <= p * t < p * n
    ensures 0 <= t < n
  {
  }

  lemma DigitAt1(n: nat)
    requires n < 65536
    ensures n % 10 / 1 == n / 1 % 10 && n % 10 % 1 == n % 1
  {
    var q, r := n / 10, n % 10;
    var d, rest := r / 1, r % 1;
    assert n == 1 * (10 * q + d) + rest;
    assert n / 1 == 10 * q + d;
  }

  lemma DigitAt10(n: nat)
    requires n < 65536
    ensures n % 100 / 10 == n / 10 % 10 && n % 100 % 10 == n % 10
  {
    var q, r := n / 100, n % 100;
    var d, rest := r / 10, r % 10;
    assert n == 10 * (10 * q + d) + rest;
    assert n / 10 == 10 * q + d;
  }

  lemma DigitAt100(n: nat)
    requires n < 65536
    ensures n % 1000 / 100 == n / 100 % 10 && n % 1000 % 100 == n % 100
  {
    var q, r := n / 1000, n % 1000;
    var d, rest := r / 100, r % 100;
    assert n == 100 * (10 * q + d) + rest;
    assert n / 100 == 10 * q + d;
  }

  lemma DigitAt1000(n: nat)
    requires n < 65536
    ensures n % 10000 / 1000 == n / 1000 % 10 && n % 10000 % 1000 == n % 1000
  {
    var q, r := n / 10000, n % 10000;
    var d, rest := r / 1000, r % 1000;
    assert n == 1000 * (10 * q + d) + rest;
    assert n / 1000 == 10 * q + d;
  }

  lemma DigitAt10000(n: nat)
    requires n < 65536
    ensures n % 100000 / 10000 == n / 10000 % 10 && n % 100000 % 10000 == n % 10000
  {
    var q, r := n / 100000, n % 100000;
    var d, rest := r / 10000, r % 10000;
    assert n == 10000 * (10 * q + d) + rest;
    assert n / 10000 == 10 * q + d;
  }

  lemma DigitOf(n: nat, p: nat)
    requires n < 65536 && (p == 1 || p == 10 || p == 100 || p == 1000 || p == 10000)
    ensures n % (10 * p) / p == n / p % 10 && n % (10 * p) % p == n % p
  {
    DigitAt1(n);
    DigitAt10(n);
    DigitAt100(n);
    DigitAt1000(n);
    DigitAt10000(n);
  }

  function Power(i: nat): (p: nat)
    requires i < 5
    ensures p > 0
  {
    if i == 0 then 10000 else if i == 1 then 1000 else if i == 2 then 100 else if i == 3 then 10 else 1
  }

  lemma Start(num: nat, tmp: int)
    requires num < 65536 && tmp == num * (ONE / 10000 + 1) - num / 4
    ensures 0 <= tmp < 0x1_0000_0000 && 0 <= 10000 * tmp - num * ONE < ONE
  {
    var q, r := num / 4, num % 4;
    assert num == 4 * q + r;
  }

  /** One digit out, and the next one in front of the point. */
  lemma Step(num: nat, i: nat, tmp: nat, e: nat)
    requires num < 65536 && i < 5 && e < ONE
    requires Power(i) * tmp == num % (10 * Power(i)) * ONE + e
    ensures tmp / ONE == num / Power(i) % 10
    ensures i < 4 ==> Power(i + 1) * (tmp % ONE * 10) == num % (10 * Power(i + 1)) * ONE + e
  {
    FixedPoint(Power(i), num % (10 * Power(i)), e, tmp);
    DigitOf(num, Power(i));
    var x := tmp % ONE;
    assert i < 4 ==> Power(i) == 10 * Power(i + 1);
    assert i < 4 ==> Power(i + 1) * (x * 10) == Power(i) * x;
  }

  /** Prints a 16-bit number in decimal: multiplied by a little more than 2^28 / 10000 its leading digit stands in
      front of the point, and the others are shifted there one by one. */
  method U16ToStr(num: nat) returns (dst: seq<Byte>)
    requires num < 65536
    ensures dst == Decimal(num)
  {
    var tmp: int := num * (ONE / 10000 + 1) - num / 4;
    Start(num, tmp);
    ghost var e := 10000 * tmp - num * ONE;
    assert num % 100000 == num;
    dst := [];
    hide ONE;
    for i := 0 to 5
      invariant |dst| == i && 0 <= tmp
      invariant i < 5 ==> Power(i) * tmp == num % (10 * Power(i)) * ONE + e
      invariant forall j | 0 <= j < i :: dst[j] as int == 48 + num / Power(j) % 10
    {
      Step(num, i, tmp, e);
      dst := dst + [48 + tmp / ONE];
      tmp := tmp % ONE * 10;
    }
    assert Pow10(4) == 10000 && Pow10(3) == 1000 && Pow10(2) == 100 && Pow10(1) == 10 && Pow10(0) == 1;
    assert dst[0] as int == 48 + num / Power(0) % 10;
    assert dst[1] as int == 48 + num / Power(1) % 10;
    assert dst[2] as int == 48 + num / Power(2) % 10;
    assert dst[3] as int == 48 + num / Power(3) % 10;
    assert dst[4] as int == 48 + num / Power(4) % 10;
  }

  // Keys

  const RRKEY_LEN: nat := 16 + 255

  /** A name as it is on the wire: labels of one to 63 bytes, 255 bytes in all. */
  ghost predicate OwnerOk(ls: seq<Label>) {
    (forall i | 0 <= i < |ls| :: 0 < |ls[i]| <= 63) && |Wire(ls)| <= 255
  }

  function Lower(b: Byte): Byte {
    if 65 <= b <= 90 then b + 32 else b
  }

  function LowerLabel(l: Label): (r: Label)
    ensures |r| == |l| && forall i | 0 <= i < |l| :: r[i] == Lower(l[i])
  {
    seq(|l|, i requires 0 <= i < |l| => Lower(l[i]))
  }

  /** A name in lower case. */
  function Lowered(ls: seq<Label>): (r: seq<Label>)
    ensures |r| == |ls| && forall i | 0 <= i < |ls| :: r[i] == LowerLabel(ls[i])
  {
    seq(|ls|, i requires 0 <= i < |ls| => LowerLabel(ls[i]))
  }

  lemma {:induction false} LoweredSize(ls: seq<Label>)
    requires forall i | 0 <= i < |ls| :: 0 < |ls[i]| <= 63
    ensures |WireLabels(Lowered(ls))| == |WireLabels(ls)|
  {
    if ls != [] {
      LoweredSize(ls[1..]);
      assert Lowered(ls)[1..] == Lowered(ls[1..]);
    }
  }

  /** The class, the owner without the byte that ends it, the type and another number. */
  function KeyOf(class_: nat, owner: seq<Label>, rrtype: nat, additional: nat): seq<Byte>
    requires forall i | 0 <= i < |owner| :: 0 < |owner[i]| <= 63
  {
    Decimal(class_) + WireLabels(Lowered(owner)) + Decimal(rrtype) + Decimal(additional)
  }

  /** Writes a key and returns its length; each part is written over the end of the one before. */
  method Make(key: array<Byte>, class_: nat, owner: seq<Label>, rrtype: nat, additional: nat) returns (len: nat)
    requires key.Length >= RRKEY_LEN && OwnerOk(owner)
    requires class_ < 65536 && rrtype < 65536 && additional < 65536
    modifies key
    ensures len == |KeyOf(class_, owner, rrtype, additional)| < RRKEY_LEN
    ensures key[..len] == KeyOf(class_, owner, rrtype, additional) && key[len] == 0
  {
    hide Decimal;
    LoweredSize(owner);
    var s := U16ToStr(class_);
    Put(key, 0, s);
    var wire := Wire(Lowered(owner));
    Put(key, 5, wire);
    var at := 5 + |wire| - 1;
    assert key[..at] == s + WireLabels(Lowered(owner)) by {
      assert key[..5 + |wire|] == s + wire;
    }
    s := U16ToStr(rrtype);
    Put(key, at, s);
    s := U16ToStr(additional);
    Put(key, at + 5, s);
    Put(key, at + 10, [0]);
    len := at + 10;
    assert key[len] == key[..len + 1][len];
  }

  lemma {:induction false} WireInjective(a: seq<Label>, b: seq<Label>)
    requires forall i | 0 <= i < |a| :: 0 < |a[i]| <= 63
    requires forall i | 0 <= i < |b| :: 0 < |b[i]| <= 63
    requires WireLabels(a) == WireLabels(b)
    ensures a == b
  {
    if a != [] && b != [] {
      var v, w := WireLabels(a), WireLabels(b);
      assert v[0] == |a[0]| && w[0] == |b[0]|;
      assert v[1..1 + |a[0]|] == a[0] && w[1..1 + |b[0]|] == b[0];
      assert v[1 + |a[0]|..] == WireLabels(a[1..]) && w[1 + |b[0]|..] == WireLabels(b[1..]);
      WireInjective(a[1..], b[1..]);
      assert a == [a[0]] + a[1..] && b == [b[0]] + b[1..];
    }
  }

  /** Equal keys come from equal questions, up to the case of letters in the name. */
  lemma KeyInjective(c1: nat, o1: seq<Label>, t1: nat, a1: nat, c2: nat, o2: seq<Label>, t2: nat, a2: nat)
    requires c1 < 65536 && t1 < 65536 && a1 < 65536 && c2 < 65536 && t2 < 65536 && a2 < 65536
    requires OwnerOk(o1) && OwnerOk(o2)
    ensures KeyOf(c1, o1, t1, a1) == KeyOf(c2, o2, t2, a2) <==>
      c1 == c2 && t1 == t2 && a1 == a2 && Lowered(o1) == Lowered(o2)
  {
    var k1, k2 := KeyOf(c1, o1, t1, a1), KeyOf(c2, o2, t2, a2);
    if k1 == k2 {
      KeyParts(c1, o1, t1, a1);
      KeyParts(c2, o2, t2, a2);
      hide Decimal;
      hide KeyOf;
      DecimalInjective(c1, c2);
      DecimalInjective(t1, t2);
      DecimalInjective(a1, a2);
      WireInjective(Lowered(o1), Lowered(o2));
    }
  }

  /** The parts are found from both ends of a key. */
  lemma KeyParts(c: nat, o: seq<Label>, t: nat, a: nat)
    requires forall i | 0 <= i < |o| :: 0 < |o[i]| <= 63
    ensures var k := KeyOf(c, o, t, a); var n := |k|;
      && n >= 15 && k[..5] == Decimal(c) && k[n - 10..n - 5] == Decimal(t) && k[n - 5..] == Decimal(a)
      && k[5..n - 10] == WireLabels(Lowered(o))
  {
    hide Decimal;
  }
}
