/** The resolution plan: queries that are pending or resolved, each with the query it was made for. */
module Rplan {
  import opened Prelude

  type Uid = nat
  type Name = string

  const CLASS_IN: nat := 1
  const TYPE_A: nat := 1
  const TYPE_AAAA: nat := 28
  const RESOLVE_TIME_LIMIT: nat := 10000

  datatype Question = Question(name: Name, cls: nat, rrtype: nat)

  /** `stamp` is when the query was made, `created` when the one at the root of it all was; `forNs` marks queries
      for the address of a name server. */
  datatype Query = Query(question: Option<Question>, parent: Option<Uid>, stamp: nat, created: nat, forNs: bool,
                         awaitV4: bool, awaitV6: bool)

  type Queries = map<Uid, Query>

  ghost predicate ParentsOlder(qs: Queries) {
    forall u: Uid | u in qs && qs[u].parent.Some? :: qs[u].parent.value < u && qs[u].parent.value in qs
  }

  /** A query, the query it was made for, and so on up to the root. */
  ghost function Chain(qs: Queries, u: Uid): (c: seq<Uid>)
    requires ParentsOlder(qs) && u in qs
    ensures |c| > 0 && c[0] == u
    decreases u
  {
    [u] + match qs[u].parent
          case None => []
          case Some(p) => Chain(qs, p)
  }

  ghost function Root(qs: Queries, u: Uid): Uid
    requires ParentsOlder(qs) && u in qs
  {
    var c := Chain(qs, u);
    c[|c| - 1]
  }

  lemma {:induction false} ChainIn(qs: Queries, u: Uid)
    requires ParentsOlder(qs) && u in qs
    ensures forall i | 0 <= i < |Chain(qs, u)| :: Chain(qs, u)[i] in qs && Chain(qs, u)[i] <= u
    decreases u
  {
    if qs[u].parent.Some? {
      ChainIn(qs, qs[u].parent.value);
    }
  }

  ghost predicate Asks(qs: Queries, u: Uid, q: Question)
    requires u in qs
  {
    qs[u].question == Some(q)
  }

  /** Some query from `u` upwards asks `q`. */
  ghost predicate AskedAbove(qs: Queries, u: Uid, q: Question)
    requires ParentsOlder(qs) && u in qs
    decreases u
  {
    Asks(qs, u, q) || (qs[u].parent.Some? && AskedAbove(qs, qs[u].parent.value, q))
  }

  ghost predicate AskedOn(qs: Queries, c: seq<Uid>, q: Question) {
    exists i | 0 <= i < |c| :: c[i] in qs && Asks(qs, c[i], q)
  }

  /** Climbing from parent to parent finds the question exactly when some query on the chain asks it. */
  lemma {:induction false} AskedIff(qs: Queries, u: Uid, q: Question)
    requires ParentsOlder(qs) && u in qs
    ensures AskedAbove(qs, u, q) <==> AskedOn(qs, Chain(qs, u), q)
    decreases u
  {
    var c := Chain(qs, u);
    assert c[0] == u;
    if qs[u].parent.Some? {
      var p := qs[u].parent.value;
      AskedIff(qs, p, q);
      assert c == [u] + Chain(qs, p);
      assert forall i | 0 <= i < |Chain(qs, p)| :: c[i + 1] == Chain(qs, p)[i];
    }
  }

  // What every plan keeps

  /** The clock of the whole resolution is handed down. */
  ghost predicate TimesOk(qs: Queries)
    requires ParentsOlder(qs)
  {
    forall u: Uid | u in qs ::
      qs[u].created == if qs[u].parent.Some? then qs[qs[u].parent.value].created else qs[u].stamp
  }

  /** A query for a name server's address is not already asked above the query it was made for. */
  ghost predicate NsOk(qs: Queries, u: Uid)
    requires ParentsOlder(qs) && u in qs
  {
    qs[u].forNs ==>
      && qs[u].parent.Some? && qs[u].question.Some?
      && var above := qs[qs[u].parent.value].parent;
        above.Some? ==> !AskedAbove(qs, above.value, qs[u].question.value)
  }

  lemma {:induction false} RootTime(qs: Queries, u: Uid)
    requires ParentsOlder(qs) && u in qs && TimesOk(qs)
    ensures Root(qs, u) in qs && qs[Root(qs, u)].parent.None?
    ensures qs[u].created == qs[Root(qs, u)].created == qs[Root(qs, u)].stamp
    decreases u
  {
    if qs[u].parent.Some? {
      RootTime(qs, qs[u].parent.value);
    }
  }

  predicate TimeExceeded(q: Query, now: nat) {
    (now - q.created) % 0x1_0000_0000_0000_0000 > RESOLVE_TIME_LIMIT
  }

  /** So the time limit is one for the whole tree of queries. */
  lemma OneTimeLimit(qs: Queries, u: Uid, v: Uid, now: nat)
    requires ParentsOlder(qs) && TimesOk(qs) && u in qs && v in qs && Root(qs, u) == Root(qs, v)
    ensures TimeExceeded(qs[u], now) <==> TimeExceeded(qs[v], now)
  {
    RootTime(qs, u);
    RootTime(qs, v);
  }

  // A query for a name server's address repeats at most its own requester, so chains of them are bounded

  /** Two queries in one chain, the later one for a name server's address: the same question only if one was
      made for the other. */
  lemma NoRepeats(qs: Queries, u: Uid, i: nat)
    requires ParentsOlder(qs) && u in qs && NsOk(qs, u) && qs[u].forNs && 2 <= i < |Chain(qs, u)|
    ensures Chain(qs, u)[i] in qs && qs[Chain(qs, u)[i]].question != qs[u].question
  {
    var p := qs[u].parent.value;
    var c, d := Chain(qs, u), Chain(qs, p);
    assert c == [u] + d;
    var above := qs[p].parent;
    assert above.Some?;
    var e := Chain(qs, above.value);
    assert d == [p] + e;
    assert c[i] == e[i - 2];
    ChainIn(qs, above.value);
    if Asks(qs, e[i - 2], qs[u].question.value) {
      AskedIff(qs, above.value, qs[u].question.value);
    }
  }

  lemma {:induction false} ChainSuffix(qs: Queries, u: Uid, i: nat)
    requires ParentsOlder(qs) && u in qs && i < |Chain(qs, u)|
    ensures Chain(qs, u)[i] in qs && Chain(qs, Chain(qs, u)[i]) == Chain(qs, u)[i..]
    decreases u
  {
    var c := Chain(qs, u);
    if i == 0 {
      assert c[0..] == c;
    } else {
      var p := qs[u].parent.value;
      ChainSuffix(qs, p, i - 1);
      assert c == [u] + Chain(qs, p);
      assert c[i..] == Chain(qs, p)[i - 1..];
    }
  }

  /** The questions at every other place of a chain. */
  ghost function Every2nd(qs: Queries, c: seq<Uid>, k: nat): set<Question>
    requires forall i | 0 <= i < |c| :: c[i] in qs && qs[c[i]].question.Some?
    decreases |c| - k
  {
    if k >= |c| then {} else {qs[c[k]].question.value} + Every2nd(qs, c, k + 2)
  }

  lemma {:induction false} Every2ndMember(qs: Queries, c: seq<Uid>, k: nat, q: Question)
    requires forall i | 0 <= i < |c| :: c[i] in qs && qs[c[i]].question.Some?
    requires q in Every2nd(qs, c, k)
    ensures exists i | k <= i < |c| :: qs[c[i]].question == Some(q)
    decreases |c| - k
  {
    if k < |c| && q != qs[c[k]].question.value {
      Every2ndMember(qs, c, k + 2, q);
    } else if k < |c| {
      assert qs[c[k]].question == Some(q);
    }
  }

  /** Questions two or more places apart differ, so every other one is new. */
  lemma {:induction false} Every2ndCount(qs: Queries, c: seq<Uid>, k: nat)
    requires forall i | 0 <= i < |c| :: c[i] in qs && qs[c[i]].question.Some?
    requires forall i, j | 0 <= i && i + 2 <= j < |c| :: qs[c[i]].question != qs[c[j]].question
    ensures k <= |c| ==> 2 * |Every2nd(qs, c, k)| >= |c| - k
    decreases |c| - k
  {
    if k < |c| {
      Every2ndCount(qs, c, k + 2);
      var rest := Every2nd(qs, c, k + 2);
      var q := qs[c[k]].question.value;
      if q in rest {
        Every2ndMember(qs, c, k + 2, q);
      }
      assert q !in rest;
    }
  }

  lemma {:induction false} Every2ndWithin(qs: Queries, c: seq<Uid>, k: nat, all: set<Question>)
    requires forall i | 0 <= i < |c| :: c[i] in qs && qs[c[i]].question.Some? && qs[c[i]].question.value in all
    ensures Every2nd(qs, c, k) <= all
    decreases |c| - k
  {
    if k < |c| {
      Every2ndWithin(qs, c, k + 2, all);
    }
  }

  /** The first `n` queries of a chain, all of them for name servers' addresses out of a set of questions, are at
      most twice as many as there are questions: dependencies between name servers do not go on for ever. */
  lemma DependenciesBounded(qs: Queries, u: Uid, n: nat, all: set<Question>)
    requires ParentsOlder(qs) && u in qs && n <= |Chain(qs, u)|
    requires forall v: Uid | v in qs :: NsOk(qs, v)
    requires forall i | 0 <= i < n :: Chain(qs, u)[i] in qs && qs[Chain(qs, u)[i]].forNs
    requires forall i | 0 <= i < n :: qs[Chain(qs, u)[i]].question.Some? && qs[Chain(qs, u)[i]].question.value in all
    ensures n <= 2 * |all|
  {
    var full := Chain(qs, u);
    var c := full[..n];
    forall i, j | 0 <= i && i + 2 <= j < |c| ensures qs[c[i]].question != qs[c[j]].question {
      ChainSuffix(qs, u, i);
      assert full[i..][j - i] == full[j];
      NoRepeats(qs, full[i], j - i);
    }
    Every2ndCount(qs, c, 0);
    Every2ndWithin(qs, c, 0, all);
    SubsetSize(Every2nd(qs, c, 0), all);
  }

  // The plan

  /** Removes the element at `i` by sliding the rest. */
  method Slide(s: seq<Uid>, i: nat) returns (r: seq<Uid>)
    requires i < |s|
    ensures r == s[..i] + s[i + 1..]
  {
    r := s;
    var j := i + 1;
    while j < |r|
      invariant i + 1 <= j <= |s| == |r|
      invariant r == s[..i] + s[i + 1..j] + s[j - 1..]
    {
      r := r[j - 1 := r[j]];
      j := j + 1;
    }
    r := r[..|r| - 1];
  }

  /** The address type to ask for next. */
  function NextQuestion(q: Query, ns: Name, noV4: bool, noV6: bool): Option<Question> {
    if !q.awaitV6 && !noV6 then Some(Question(ns, CLASS_IN, TYPE_AAAA))
    else if !q.awaitV4 && !noV4 then Some(Question(ns, CLASS_IN, TYPE_A))
    else None
  }

  datatype NsResult = NsPushed(uid: Uid) | NsAgain | NsUnreachable

  class Plan {
    var queries: Queries
    var pending: seq<Uid>
    var resolved: seq<Uid>
    var nextUid: Uid

    /** Every query has its own number and is either pending or resolved, and not both. */
    ghost predicate Valid()
      reads this
    {
      && (forall u: Uid :: u in queries <==> u < nextUid)
      && multiset(pending) + multiset(resolved) == multiset(queries.Keys)
      && ParentsOlder(queries) && TimesOk(queries)
      && (forall u: Uid | u in queries :: NsOk(queries, u))
    }

    constructor ()
      ensures Valid() && nextUid == 0 && pending == [] && resolved == []
    {
      queries, pending, resolved, nextUid := map[], [], [], 0;
    }

    /** Adds a query on top of the pending ones. */
    method Push(parent: Option<Uid>, question: Option<Question>, now: nat) returns (u: Uid)
      requires Valid() && (parent.Some? ==> parent.value in queries)
      modifies this
      ensures Valid() && u == old(nextUid) && nextUid == u + 1
      ensures u !in old(queries) && u in queries && queries == old(queries)[u := queries[u]]
      ensures queries[u] == Query(question, parent, now, queries[u].created, false, false, false)
      ensures pending == old(pending) + [u] && resolved == old(resolved)
    {
      u := AddQuery(parent, question, now, false);
    }

    method AddQuery(parent: Option<Uid>, question: Option<Question>, now: nat, forNs: bool) returns (u: Uid)
      requires Valid() && (parent.Some? ==> parent.value in queries)
      requires forNs ==>
        && parent.Some? && question.Some?
        && (queries[parent.value].parent.Some? ==>
              !AskedAbove(queries, queries[parent.value].parent.value, question.value))
      modifies this
      ensures Valid() && u == old(nextUid) && nextUid == u + 1
      ensures u !in old(queries) && u in queries && queries == old(queries)[u := queries[u]]
      ensures queries[u] == Query(question, parent, now, queries[u].created, forNs, false, false)
      ensures pending == old(pending) + [u] && resolved == old(resolved)
    {
      u := nextUid;
      var created := if parent.Some? then queries[parent.value].created else now;
      ghost var qs := queries;
      queries := queries[u := Query(question, parent, now, created, forNs, false, false)];
      nextUid := nextUid + 1;
      pending := pending + [u];
      assert queries.Keys == qs.Keys + {u};
      assert multiset(queries.Keys) == multiset(qs.Keys) + multiset{u};
      assert multiset(pending) == multiset(old(pending)) + multiset{u};
      Added(qs, queries, u);
    }

    /** Whether a query or one above it asks the question. */
    method Satisfies(closure: Option<Uid>, q: Question) returns (r: bool)
      requires Valid() && (closure.Some? ==> closure.value in queries)
      ensures r <==> closure.Some? && AskedAbove(queries, closure.value, q)
    {
      var at := closure;
      while at.Some?
        invariant at.Some? ==> at.value in queries
        invariant (closure.Some? && AskedAbove(queries, closure.value, q))
             <==> (at.Some? && AskedAbove(queries, at.value, q))
        decreases if at.Some? then at.value + 1 else 0
      {
        if queries[at.value].question == Some(q) {
          return true;
        }
        at := queries[at.value].parent;
      }
      return false;
    }

    /** Asks for the address of a name server on behalf of query `u`: IPv6 first, then IPv4, and never a question
        that is already asked above. */
    method NsResolveAddr(u: Uid, ns: Name, noV4: bool, noV6: bool, cutIsRoot: bool, now: nat) returns (r: NsResult)
      requires Valid() && u in queries
      modifies this
      ensures Valid() && old(queries.Keys) <= queries.Keys
      ensures var q := NextQuestion(old(queries)[u], ns, noV4, noV6);
        r.NsPushed? <==> q.Some? && (old(queries)[u].parent.Some? ==>
                                       !AskedAbove(old(queries), old(queries)[u].parent.value, q.value))
      ensures r.NsPushed? ==>
        && r.uid == old(nextUid) && pending == old(pending) + [r.uid]
        && r.uid in queries && queries[r.uid].forNs
        && queries[r.uid].parent == Some(u)
        && queries[r.uid].question == NextQuestion(old(queries)[u], ns, noV4, noV6)
      ensures r == NsAgain ==> NextQuestion(old(queries)[u], ns, noV4, noV6).None? && cutIsRoot
      ensures !r.NsPushed? ==> pending == old(pending) && nextUid == old(nextUid)
      ensures resolved == old(resolved)
    {
      var q := NextQuestion(queries[u], ns, noV4, noV6);
      var qs := queries;
      if q.Some? {
        queries := queries[u := if q.value.rrtype == TYPE_AAAA then queries[u].(awaitV6 := true)
                                else queries[u].(awaitV4 := true)];
        Flagged(qs, queries, u);
        assert queries.Keys == qs.Keys;
      }
      var asked := false;
      if q.Some? {
        asked := Satisfies(queries[u].parent, q.value);
        if queries[u].parent.Some? {
          ChainKept(qs, queries, queries[u].parent.value);
        }
      }
      if q.None? || asked {
        return if q.None? && cutIsRoot then NsAgain else NsUnreachable;
      }
      var v := AddQuery(Some(u), q, now, true);
      return NsPushed(v);
    }

    /** Moves a query from the pending ones to the resolved ones; the others keep their order. */
    method Pop(u: Uid)
      requires Valid()
      modifies this
      ensures Valid() && queries == old(queries) && nextUid == old(nextUid)
      ensures u !in old(pending) ==> pending == old(pending) && resolved == old(resolved)
      ensures u in old(pending) ==> resolved == old(resolved) + [u] && exists i ::
        0 <= i < |old(pending)| && old(pending)[i] == u && pending == old(pending)[..i] + old(pending)[i + 1..]
    {
      var i := Find(pending, u);
      if i < |pending| {
        SlideKeeps(pending, i);
        pending := Slide(pending, i);
        resolved := resolved + [u];
      }
    }
  }

  /** Where a query is, searching from the top; the length if it is not there. */
  method Find(s: seq<Uid>, u: Uid) returns (i: nat)
    ensures i <= |s| && (i < |s| ==> s[i] == u) && (i == |s| ==> u !in s)
  {
    i := |s|;
    while i > 0
      invariant 0 <= i <= |s| && u !in s[i..]
    {
      if s[i - 1] == u {
        return i - 1;
      }
      i := i - 1;
    }
    return |s|;
  }

  lemma SlideKeeps(s: seq<Uid>, i: nat)
    requires i < |s|
    ensures multiset(s) == multiset(s[..i] + s[i + 1..]) + multiset{s[i]}
  {
    assert s == s[..i] + [s[i]] + s[i + 1..];
  }

  lemma {:induction false} ChainKept(qs: Queries, qs': Queries, u: Uid)
    requires ParentsOlder(qs) && ParentsOlder(qs') && u in qs
    requires forall v: Uid | v in qs ::
      v in qs' && qs'[v].question == qs[v].question && qs'[v].parent == qs[v].parent
    ensures u in qs' && forall q :: AskedAbove(qs', u, q) <==> AskedAbove(qs, u, q)
    decreases u
  {
    if qs[u].parent.Some? {
      ChainKept(qs, qs', qs[u].parent.value);
    }
  }

  /** Adding a query does not change what is above the others. */
  lemma Added(qs: Queries, qs': Queries, u: Uid)
    requires ParentsOlder(qs) && u !in qs && (forall v: Uid | v in qs :: v < u)
    requires u in qs' && qs' == qs[u := qs'[u]] && (qs'[u].parent.Some? ==> qs'[u].parent.value in qs)
    requires TimesOk(qs) && (forall v: Uid | v in qs :: NsOk(qs, v))
    requires qs'[u].created == if qs'[u].parent.Some? then qs[qs'[u].parent.value].created else qs'[u].stamp
    requires qs'[u].forNs ==>
      && qs'[u].parent.Some? && qs'[u].question.Some?
      && var above := qs[qs'[u].parent.value].parent;
        above.Some? ==> !AskedAbove(qs, above.value, qs'[u].question.value)
    ensures ParentsOlder(qs') && TimesOk(qs') && forall v: Uid | v in qs' :: NsOk(qs', v)
  {
    assert ParentsOlder(qs');
    forall v: Uid | v in qs' ensures NsOk(qs', v) {
      if qs'[v].forNs {
        var p := qs'[v].parent.value;
        if qs[p].parent.Some? {
          ChainKept(qs, qs', qs[p].parent.value);
        }
        if v != u {
          assert NsOk(qs, v);
        }
      }
    }
  }

  /** The flags of a query play no part in what the plan keeps. */
  lemma Flagged(qs: Queries, qs': Queries, u: Uid)
    requires ParentsOlder(qs) && TimesOk(qs) && u in qs && (forall v: Uid | v in qs :: NsOk(qs, v))
    requires u in qs' && qs' == qs[u := qs'[u]]
    requires qs'[u] == qs[u].(awaitV4 := qs'[u].awaitV4, awaitV6 := qs'[u].awaitV6)
    ensures ParentsOlder(qs') && TimesOk(qs') && forall v: Uid | v in qs' :: NsOk(qs', v)
  {
    assert ParentsOlder(qs');
    forall v: Uid | v in qs' ensures NsOk(qs', v) {
      assert NsOk(qs, v);
      if qs[v].forNs {
        var p := qs[v].parent.value;
        if qs[p].parent.Some? {
          ChainKept(qs, qs', qs[p].parent.value);
        }
      }
    }
  }
}
