/** Domain names: the wire format (section 3.1 of RFC 1035), and the lookup format, which has the labels in the
    opposite order with a zero byte behind each. */
module NameCodec {
  import opened Prelude

  type Byte = x: int | 0 <= x < 256
  type Label = seq<Byte>

  /** The longest name on the wire (section 2.3.4 of RFC 1035). */
  const NAME_MAXLEN: int := 255

  /** A label a lookup format can carry: not empty, not too long, and without zero bytes. */
  predicate LabelOk(l: Label) {
    0 < |l| <= 63 && forall i | 0 <= i < |l| :: l[i] != 0
  }

  predicate NameOk(ls: seq<Label>) {
    forall i | 0 <= i < |ls| :: LabelOk(ls[i])
  }

  function WireLabels(ls: seq<Label>): seq<Byte>
    requires forall i | 0 <= i < |ls| :: |ls[i]| < 256
  {
    if ls == [] then [] else [|ls[0]|] + ls[0] + WireLabels(ls[1..])
  }

  /** The wire format of a name, given its labels from the first to the top level one. */
  function Wire(ls: seq<Label>): seq<Byte>
    requires forall i | 0 <= i < |ls| :: |ls[i]| < 256
  {
    WireLabels(ls) + [0]
  }

  /** The lookup format of a name. */
  function Lf(ls: seq<Label>): seq<Byte> {
    if ls == [] then [] else Lf(ls[1..]) + ls[0] + [0]
  }

  lemma {:induction false} LfSize(ls: seq<Label>)
    requires forall i | 0 <= i < |ls| :: |ls[i]| < 256
    ensures |Wire(ls)| == |Lf(ls)| + 1
  {
    if ls != [] {
      LfSize(ls[1..]);
    }
  }

  /** Lookup formats are empty or end with a zero byte. */
  lemma LfEnds(ls: seq<Label>)
    ensures Lf(ls) == [] || Lf(ls)[|Lf(ls)| - 1] == 0
  {
  }

  lemma {:induction false} WireSnoc(ls: seq<Label>, l: Label)
    requires |l| < 256 && forall i | 0 <= i < |ls| :: |ls[i]| < 256
    ensures WireLabels(ls + [l]) == WireLabels(ls) + [|l|] + l
  {
    if ls == [] {
      assert [] + [l] == [l];
      assert [l][1..] == [];
    } else {
      WireSnoc(ls[1..], l);
      assert (ls + [l])[1..] == ls[1..] + [l];
      assert [|ls[0]|] + ls[0] + (WireLabels(ls[1..]) + [|l|] + l) == [|ls[0]|] + ls[0] + WireLabels(ls[1..]) + [|l|] + l;
    }
  }

  // Reading a lookup format from its end

  /** The start of the last label of `s`, the zero byte behind it left out. */
  function LastStart(s: seq<Byte>): (i: nat)
    ensures i <= |s| && (forall k | i <= k < |s| :: s[k] != 0) && (i > 0 ==> s[i - 1] == 0)
  {
    if s == [] || s[|s| - 1] == 0 then |s| else LastStart(s[..|s| - 1])
  }

  /** The labels of a lookup format that ends with a zero byte, or is empty. */
  function Labels(s: seq<Byte>): Option<seq<Label>>
    decreases |s|
  {
    if s == [] then Some([])
    else
      var body := s[..|s| - 1];
      var start := LastStart(body);
      var last := body[start..];
      if |last| > 63 || |last| == 0 then None
      else match Labels(s[..start])
           case None => None
           case Some(ls) => Some([last] + ls)
  }

  lemma StartOf(t: seq<Byte>, l: Label)
    requires LabelOk(l) && (t == [] || t[|t| - 1] == 0)
    ensures LastStart(t + l) == |t|
  {
    var s := t + l;
    assert t != [] ==> s[|t| - 1] == 0;
    assert forall k | |t| <= k < |s| :: s[k] == l[k - |t|];
  }

  lemma {:induction false} LabelsOfLf(ls: seq<Label>)
    requires NameOk(ls)
    ensures Labels(Lf(ls)) == Some(ls)
  {
    if ls != [] {
      var t := Lf(ls[1..]);
      var s := t + ls[0] + [0];
      assert Lf(ls) == s && s[..|s| - 1] == t + ls[0];
      LfEnds(ls[1..]);
      StartOf(t, ls[0]);
      assert (t + ls[0])[|t|..] == ls[0] && s[..|t|] == t;
      LabelsOfLf(ls[1..]);
      assert [ls[0]] + ls[1..] == ls;
    }
  }

  lemma {:induction false} LfOfLabels(s: seq<Byte>)
    requires s == [] || s[|s| - 1] == 0
    requires Labels(s).Some?
    ensures NameOk(Labels(s).value) && Lf(Labels(s).value) == s
    decreases |s|
  {
    if s != [] {
      var body := s[..|s| - 1];
      var start := LastStart(body);
      var last := body[start..];
      var rest := s[..start];
      assert rest == [] || rest[|rest| - 1] == 0;
      LfOfLabels(rest);
      var ls := Labels(s).value;
      assert ls == [last] + Labels(rest).value && ls[1..] == Labels(rest).value;
      assert LabelOk(last);
      assert s == rest + last + [0];
    }
  }

  // The conversion

  /** With the final zero byte, if it was left out. */
  function Completed(lf: seq<Byte>): (s: seq<Byte>)
    ensures s == [] || s[|s| - 1] == 0
  {
    if lf == [] || lf[|lf| - 1] == 0 then lf else lf + [0]
  }

  /** The length counter has eight bits, so one case is taken for the root. */
  predicate Overflows(lf: seq<Byte>) {
    |lf| == 255 && lf[254] != 0
  }

  function Prefixed(done: seq<Label>, r: Option<seq<Label>>): Option<seq<Label>> {
    match r
    case None => None
    case Some(ls) => Some(done + ls)
  }

  /** Taking the last label off. */
  lemma LabelsUnfold(s: seq<Byte>, start: nat, last: Label)
    requires s != [] && start == LastStart(s[..|s| - 1]) && last == s[start..|s| - 1]
    ensures Labels(s) == if |last| > 63 || |last| == 0 then None else Prefixed([last], Labels(s[..start]))
  {
    assert s[..|s| - 1][start..] == last;
  }

  lemma LabelsStep(s: seq<Byte>, done: seq<Label>, start: nat, last: Label)
    requires s != [] && start == LastStart(s[..|s| - 1]) && last == s[start..|s| - 1]
    ensures Prefixed(done, Labels(s)) ==
      if |last| > 63 || |last| == 0 then None else Prefixed(done + [last], Labels(s[..start]))
  {
    LabelsUnfold(s, start, last);
    hide Labels;
    hide LastStart;
    var rest := Labels(s[..start]);
    if rest.Some? {
      assert done + ([last] + rest.value) == done + [last] + rest.value;
    }
  }

  method FindStart(lf: seq<Byte>, end: nat) returns (start: nat)
    requires end <= |lf|
    ensures start == LastStart(lf[..end])
  {
    var i := end - 1;
    while i >= 0 && lf[i] != 0
      invariant -1 <= i < end
      invariant LastStart(lf[..end]) == LastStart(lf[..i + 1])
    {
      assert lf[..i + 1][..i] == lf[..i];
      i := i - 1;
    }
    start := i + 1;
  }

  method Put(dst: array<Byte>, at: nat, b: seq<Byte>)
    requires at + |b| <= dst.Length
    modifies dst
    ensures dst[..at + |b|] == old(dst[..at]) + b && dst[at + |b|..] == old(dst[at + |b|..])
  {
    ghost var s := dst[..];
    for k := 0 to |b|
      invariant dst[..] == s[..at] + b[..k] + s[at + k..]
    {
      dst[at + k] := b[k];
    }
    assert b[..|b|] == b;
  }

  /** Converts a lookup format to the wire format, label by label from the end.  The result is the number of bytes
      written, or an error. */
  method Lf2Wire(dst: array<Byte>, lf: seq<Byte>) returns (r: int)
    requires |lf| < 256 && dst.Length >= |lf| + 2
    modifies dst
    ensures Overflows(lf) ==> r == 1 && dst[..1] == [0]
    ensures !Overflows(lf) && Labels(Completed(lf)).None? ==> r < 0
    ensures !Overflows(lf) && Labels(Completed(lf)).Some? ==>
      && r == |Completed(lf)| + 1 && NameOk(Labels(Completed(lf)).value)
      && dst[..r] == Wire(Labels(Completed(lf)).value)
      && (r <= NAME_MAXLEN <==> |Completed(lf)| < NAME_MAXLEN)
    ensures dst[|lf| + 2..] == old(dst[|lf| + 2..])
  {
    var len := |lf|;
    if len > 0 && lf[len - 1] != 0 {
      len := (len + 1) % 256;
    }
    if Overflows(lf) {
      Put(dst, 0, [0]);
      return 1;
    }
    ghost var s := Completed(lf);
    hide Completed;
    var ok, d, done := Convert(dst, lf, s, len);
    if !ok {
      return -84;
    }
    Put(dst, d, [0]);
    return d + 1;
  }

  method Convert(dst: array<Byte>, lf: seq<Byte>, ghost s: seq<Byte>, len: nat)
    returns (ok: bool, d: nat, ghost done: seq<Label>)
    requires s == Completed(lf) && len == |s| <= |lf| + 1 && dst.Length >= |lf| + 2
    modifies dst
    ensures dst[|lf| + 2..] == old(dst[|lf| + 2..])
    ensures !ok ==> Labels(s).None?
    ensures ok ==> Labels(s) == Some(done) && NameOk(done) && d == |s| && dst[..d] == WireLabels(done)
  {
    hide Labels;
    hide Completed;
    ghost var tail := dst[|lf| + 2..];
    ok, d, done := true, 0, [];
    LabelsStart(s, done);
    var labelEnd: int := len - 1;
    while labelEnd >= 0
      invariant -1 <= labelEnd && d + labelEnd + 1 == |s| && NameOk(done)
      invariant dst[..d] == WireLabels(done)
      invariant Labels(s) == Prefixed(done, Labels(s[..labelEnd + 1]))
      invariant dst[|lf| + 2..] == tail
    {
      var labelStart, last := NextLabel(lf, s, labelEnd, done);
      if |last| > 63 || |last| <= 0 {
        ok := false;
        return;
      }
      WriteLabel(dst, d, last, done);
      assert dst[|lf| + 2..] == dst[d + 1 + |last|..][|lf| + 2 - (d + 1 + |last|)..];
      done := done + [last];
      d := d + 1 + |last|;
      labelEnd := (labelStart as int) - 1;
    }
    LabelsNone(s[..0], done);
  }

  /** The label that ends before `labelEnd`. */
  method NextLabel(lf: seq<Byte>, ghost s: seq<Byte>, labelEnd: nat, ghost done: seq<Label>)
    returns (labelStart: nat, last: Label)
    requires s == Completed(lf) && labelEnd < |s|
    ensures labelStart + |last| == labelEnd && (0 < |last| <= 63 ==> LabelOk(last))
    ensures Prefixed(done, Labels(s[..labelEnd + 1])) ==
      if |last| > 63 || |last| == 0 then None else Prefixed(done + [last], Labels(s[..labelStart]))
  {
    hide Labels;
    ghost var t := s[..labelEnd + 1];
    assert t[..|t| - 1] == lf[..labelEnd];
    labelStart := FindStart(lf, labelEnd);
    StartFacts(lf[..labelEnd]);
    hide LastStart;
    last := lf[labelStart..labelEnd];
    assert t[labelStart..|t| - 1] == last && t[..labelStart] == s[..labelStart];
    LabelsStep(t, done, labelStart, last);
    assert forall k | 0 <= k < |last| :: last[k] == lf[..labelEnd][labelStart + k];
  }

  method WriteLabel(dst: array<Byte>, d: nat, last: Label, ghost done: seq<Label>)
    requires LabelOk(last) && NameOk(done) && d + 1 + |last| <= dst.Length && dst[..d] == WireLabels(done)
    modifies dst
    ensures dst[..d + 1 + |last|] == WireLabels(done + [last])
    ensures dst[d + 1 + |last|..] == old(dst[d + 1 + |last|..])
  {
    WireSnoc(done, last);
    Put(dst, d, [|last|] + last);
  }

  lemma StartFacts(s: seq<Byte>)
    ensures LastStart(s) <= |s| && (forall k | LastStart(s) <= k < |s| :: s[k] != 0)
    ensures LastStart(s) > 0 ==> s[LastStart(s) - 1] == 0
  {
  }

  lemma LabelsStart(s: seq<Byte>, done: seq<Label>)
    requires done == []
    ensures Labels(s) == Prefixed(done, Labels(s[..|s|]))
  {
    assert s[..|s|] == s;
    hide Labels;
    assert Labels(s).Some? ==> done + Labels(s).value == Labels(s).value;
  }

  lemma LabelsNone(s: seq<Byte>, done: seq<Label>)
    requires s == []
    ensures Prefixed(done, Labels(s)) == Some(done)
  {
    assert done + [] == done;
  }

  /** The conversion inverts the printer, whether or not the final zero byte is there, and accepts nothing else. */
  lemma InvertsPrinter(lf: seq<Byte>, ls: seq<Label>)
    ensures NameOk(ls) && Completed(lf) == Lf(ls) <==> Labels(Completed(lf)) == Some(ls)
    ensures NameOk(ls) ==> |Wire(ls)| == |Lf(ls)| + 1
  {
    if NameOk(ls) {
      LfSize(ls);
      if Completed(lf) == Lf(ls) {
        LabelsOfLf(ls);
      }
    }
    if Labels(Completed(lf)) == Some(ls) {
      LfOfLabels(Completed(lf));
    }
  }
}
