/**
 The baseline query as a sorted flattening: its containers are the same whatever order the cache
 lists the deployments in, and exactly when their sequence is, the sort not being stable.
 */
module Baseline {
  import opened Cluster

  ghost predicate ByCreation(items: seq<Deployment>) {
    forall i, j :: 0 <= i < j < |items| ==> items[i].created <= items[j].created
  }

  predicate InBaseline(d: Deployment, cluster: string) {
    ClusterOf(d) != "" && ClusterOf(d) == cluster
  }

  function Matching(items: seq<Deployment>, cluster: string): seq<Deployment> {
    if items == [] then []
    else (if InBaseline(items[0], cluster) then [items[0]] else []) + Matching(items[1..], cluster)
  }

  function Flatten(items: seq<Deployment>): seq<Container> {
    if items == [] then [] else items[0].containers + Flatten(items[1..])
  }

  function Answer(items: seq<Deployment>, cluster: string): seq<Container> {
    Flatten(Matching(items, cluster))
  }

  // ---------- what Matching and Flatten mean ----------

  lemma {:induction false} MatchingAppend(a: seq<Deployment>, b: seq<Deployment>, cluster: string)
    ensures Matching(a + b, cluster) == Matching(a, cluster) + Matching(b, cluster)
    decreases |a|
  {
    if a == [] {
      assert a + b == b;
    } else {
      var first := if InBaseline(a[0], cluster) then [a[0]] else [];
      assert (a + b)[0] == a[0] && (a + b)[1..] == a[1..] + b;
      MatchingAppend(a[1..], b, cluster);
      assert first + (Matching(a[1..], cluster) + Matching(b, cluster)) ==
             first + Matching(a[1..], cluster) + Matching(b, cluster);
    }
  }

  lemma {:induction false} FlattenAppend(a: seq<Deployment>, b: seq<Deployment>)
    ensures Flatten(a + b) == Flatten(a) + Flatten(b)
    decreases |a|
  {
    if a == [] {
      assert a + b == b;
    } else {
      assert (a + b)[1..] == a[1..] + b;
      FlattenAppend(a[1..], b);
    }
  }

  lemma {:induction false} MatchingKeeps(items: seq<Deployment>, cluster: string, d: Deployment)
    ensures multiset(Matching(items, cluster))[d] == if InBaseline(d, cluster) then multiset(items)[d] else 0
    decreases |items|
  {
    if items != [] {
      assert items == [items[0]] + items[1..];
      MatchingKeeps(items[1..], cluster, d);
    }
  }

  lemma {:induction false} MatchingFits(items: seq<Deployment>, cluster: string, d: Deployment)
    requires d in Matching(items, cluster)
    ensures d in items && InBaseline(d, cluster)
    decreases |items|
  {
    if d != items[0] || !InBaseline(items[0], cluster) {
      MatchingFits(items[1..], cluster, d);
    }
  }

  lemma {:induction false} MatchingSorted(items: seq<Deployment>, cluster: string)
    requires ByCreation(items)
    ensures ByCreation(Matching(items, cluster))
    decreases |items|
  {
    if items != [] {
      var rest := Matching(items[1..], cluster);
      MatchingSorted(items[1..], cluster);
      forall k | 0 <= k < |rest|
        ensures items[0].created <= rest[k].created
      {
        MatchingFits(items[1..], cluster, rest[k]);
        var i :| 0 <= i < |items[1..]| && items[1..][i] == rest[k];
        assert items[i + 1] == rest[k];
      }
    }
  }

  lemma SameMatches(a: seq<Deployment>, b: seq<Deployment>, cluster: string)
    requires multiset(a) == multiset(b)
    ensures multiset(Matching(a, cluster)) == multiset(Matching(b, cluster))
  {
    forall d: Deployment
      ensures multiset(Matching(a, cluster))[d] == multiset(Matching(b, cluster))[d]
    {
      MatchingKeeps(a, cluster, d);
      MatchingKeeps(b, cluster, d);
    }
  }

  lemma FlattenInsert(p: seq<Deployment>, d: Deployment, q: seq<Deployment>)
    ensures Flatten(p + [d] + q) == Flatten(p) + d.containers + Flatten(q)
  {
    assert p + [d] + q == p + ([d] + q);
    FlattenAppend(p, [d] + q);
    assert ([d] + q)[1..] == q;
    assert Flatten([d] + q) == d.containers + Flatten(q);
    assert Flatten(p) + (d.containers + Flatten(q)) == Flatten(p) + d.containers + Flatten(q);
  }

  /** Taking one occurrence out of each side. */
  lemma WithoutOne<T>(x: T, rest: seq<T>, p: seq<T>, q: seq<T>)
    requires multiset([x] + rest) == multiset(p + [x] + q)
    ensures multiset(rest) == multiset(p + q)
  {
    assert multiset([x] + rest) == multiset{x} + multiset(rest);
    assert multiset(p + [x] + q) == multiset(p) + multiset{x} + multiset(q);
    assert multiset(p + q) == multiset(p) + multiset(q);
    assert multiset(rest) == multiset([x] + rest) - multiset{x};
  }

  lemma SplitAt<T>(x: T, s: seq<T>) returns (p: seq<T>, q: seq<T>)
    requires x in s
    ensures s == p + [x] + q
  {
    var k :| 0 <= k < |s| && s[k] == x;
    p, q := s[..k], s[k + 1..];
  }

  lemma {:induction false} FlattenMultiset(a: seq<Deployment>, b: seq<Deployment>)
    requires multiset(a) == multiset(b)
    ensures multiset(Flatten(a)) == multiset(Flatten(b))
    decreases |a|
  {
    if a == [] {
      assert |b| == |multiset(b)| == 0;
    } else {
      assert a[0] in multiset(b);
      var p, q := SplitAt(a[0], b);
      assert a == [a[0]] + a[1..];
      WithoutOne(a[0], a[1..], p, q);
      FlattenMultiset(a[1..], p + q);
      FlattenAppend(p, q);
      FlattenInsert(p, a[0], q);
    }
  }

  /**
   The answer is a concatenation over the list: each deployment adds its containers in their order if
   it is of this cluster and the cluster has a name, and nothing otherwise.
   */
  lemma AnswerOfEach(p: seq<Deployment>, d: Deployment, q: seq<Deployment>, cluster: string)
    ensures Answer([], cluster) == []
    ensures Answer(p + [d] + q, cluster) ==
            Answer(p, cluster) + (if cluster != "" && ClusterOf(d) == cluster then d.containers else [])
            + Answer(q, cluster)
  {
    MatchingAppend(p + [d], q, cluster);
    MatchingAppend(p, [d], cluster);
    assert [d][1..] == [];
    assert Matching([d], cluster) == if InBaseline(d, cluster) then [d] else [];
    FlattenAppend(Matching(p + [d], cluster), Matching(q, cluster));
    FlattenAppend(Matching(p, cluster), Matching([d], cluster));
    assert InBaseline(d, cluster) ==> Flatten([d]) == d.containers;
  }

  ghost predicate Holds(all: seq<Container>, part: seq<Container>) {
    exists p, q :: all == p + part + q
  }

  ghost predicate HoldsInOrder(all: seq<Container>, first: seq<Container>, second: seq<Container>) {
    exists p, q, r :: all == p + first + (q + second + r)
  }

  lemma AnswerHolds(items: seq<Deployment>, cluster: string, d: Deployment)
    requires d in items && InBaseline(d, cluster)
    ensures Holds(Answer(items, cluster), d.containers)
  {
    var p, q := SplitAt(d, items);
    AnswerOfEach(p, d, q, cluster);
  }

  lemma AnswerHoldsInOrder(items: seq<Deployment>, cluster: string, d: Deployment, e: Deployment)
    requires ByCreation(items) && d in items && e in items && d.created < e.created
    requires InBaseline(d, cluster) && InBaseline(e, cluster)
    ensures HoldsInOrder(Answer(items, cluster), d.containers, e.containers)
  {
    var i :| 0 <= i < |items| && items[i] == d;
    var j :| 0 <= j < |items| && items[j] == e;
    assert i < j;
    var p, q, r := items[..i], items[i + 1..j], items[j + 1..];
    assert items == p + [d] + (q + [e] + r);
    AnswerOfEach(p, d, q + [e] + r, cluster);
    AnswerOfEach(q, e, r, cluster);
  }

  lemma {:induction false} AnswerComesFrom(items: seq<Deployment>, cluster: string, c: Container)
    returns (d: Deployment)
    requires c in Answer(items, cluster)
    ensures d in items && cluster != "" && ClusterOf(d) == cluster && c in d.containers
    decreases |items|
  {
    var p: seq<Deployment> := [];
    assert p + [items[0]] + items[1..] == items;
    AnswerOfEach(p, items[0], items[1..], cluster);
    if InBaseline(items[0], cluster) && c in items[0].containers {
      d := items[0];
    } else {
      d := AnswerComesFrom(items[1..], cluster, c);
    }
  }

  // ---------- order independence ----------

  /** The answer's containers, with multiplicity, do not depend on the listing order or the sort. */
  lemma AnswerMultisetIsFixed(a: seq<Deployment>, b: seq<Deployment>, cluster: string)
    requires multiset(a) == multiset(b)
    ensures multiset(Answer(a, cluster)) == multiset(Answer(b, cluster))
  {
    SameMatches(a, b, cluster);
    FlattenMultiset(Matching(a, cluster), Matching(b, cluster));
  }

  /** Deployments created at one time hold containers that read the same either way round. */
  ghost predicate TiesCommute(items: seq<Deployment>) {
    forall d, e :: d in items && e in items && d.created == e.created ==>
      d.containers + e.containers == e.containers + d.containers
  }

  /** Every order by creation time of these deployments gives the answer this one gives. */
  ghost predicate AnswerIsFixed(sorted: seq<Deployment>, cluster: string) {
    forall b :: multiset(b) == multiset(sorted) && ByCreation(b) ==> Answer(b, cluster) == Answer(sorted, cluster)
  }

  // commuting ties are enough

  lemma {:induction false} CommutesPast(p: seq<Deployment>, x: Deployment)
    requires forall i :: 0 <= i < |p| ==> p[i].containers + x.containers == x.containers + p[i].containers
    ensures Flatten(p) + x.containers == x.containers + Flatten(p)
    decreases |p|
  {
    if p == [] {
      assert Flatten(p) == [];
    } else {
      var head, tail := p[0].containers, Flatten(p[1..]);
      CommutesPast(p[1..], x);
      calc {
        Flatten(p) + x.containers;
        head + (tail + x.containers);
        head + (x.containers + tail);
        (head + x.containers) + tail;
        (x.containers + head) + tail;
        x.containers + Flatten(p);
      }
    }
  }

  /** What stands before x in one sorted order and behind it in another was created with it. */
  lemma TiedBefore(a: seq<Deployment>, p: seq<Deployment>, x: Deployment, q: seq<Deployment>, i: nat)
    requires ByCreation([x] + a) && ByCreation(p + [x] + q) && multiset([x] + a) == multiset(p + [x] + q)
    requires i < |p|
    ensures p[i] in [x] + a && p[i].created == x.created
  {
    var b := p + [x] + q;
    assert b[i] == p[i] && b[|p|] == x;
    assert p[i] in multiset(b);
    var k :| 0 <= k < |[x] + a| && ([x] + a)[k] == p[i];
    assert ([x] + a)[0] == x;
  }

  lemma SortedWithout(p: seq<Deployment>, x: Deployment, q: seq<Deployment>)
    requires ByCreation(p + [x] + q)
    ensures ByCreation(p + q)
  {
    var b := p + [x] + q;
    assert forall i :: 0 <= i < |p + q| ==> (p + q)[i] == b[if i < |p| then i else i + 1];
  }

  /** Taking x to the front past what it ties with. */
  lemma ToTheFront(p: seq<Deployment>, x: Deployment, q: seq<Deployment>)
    requires forall i :: 0 <= i < |p| ==> p[i].containers + x.containers == x.containers + p[i].containers
    ensures Flatten(p + [x] + q) == x.containers + Flatten(p + q)
  {
    FlattenInsert(p, x, q);
    FlattenAppend(p, q);
    CommutesPast(p, x);
    assert x.containers + Flatten(p) + Flatten(q) == x.containers + (Flatten(p) + Flatten(q));
  }

  lemma AllBeforeCommute(a: seq<Deployment>, p: seq<Deployment>, x: Deployment, q: seq<Deployment>)
    requires ByCreation([x] + a) && ByCreation(p + [x] + q) && multiset([x] + a) == multiset(p + [x] + q)
    requires TiesCommute([x] + a)
    ensures Flatten(p + [x] + q) == x.containers + Flatten(p + q)
  {
    forall i | 0 <= i < |p|
      ensures p[i].containers + x.containers == x.containers + p[i].containers
    {
      TiedBefore(a, p, x, q, i);
      assert ([x] + a)[0] == x;
    }
    ToTheFront(p, x, q);
  }

  lemma TailKeeps(a: seq<Deployment>)
    requires a != [] && ByCreation(a) && TiesCommute(a)
    ensures ByCreation(a[1..]) && TiesCommute(a[1..])
  {
    assert forall d :: d in a[1..] ==> d in a;
  }

  lemma {:induction false} CommutingTiesFlattenAlike(a: seq<Deployment>, b: seq<Deployment>)
    requires multiset(a) == multiset(b) && ByCreation(a) && ByCreation(b) && TiesCommute(a)
    ensures Flatten(a) == Flatten(b)
    decreases |a|
  {
    if a == [] {
      assert |b| == |multiset(b)| == 0;
    } else {
      var x, rest := a[0], a[1..];
      assert a == [x] + rest;
      assert x in multiset(b);
      var p, q := SplitAt(x, b);
      AllBeforeCommute(rest, p, x, q);
      TailKeeps(a);
      SortedWithout(p, x, q);
      WithoutOne(x, rest, p, q);
      CommutingTiesFlattenAlike(rest, p + q);
    }
  }

  // and needed

  /** Between two deployments created together, all were; so they can stand side by side. */
  function SideBySide(a: seq<Deployment>, i: nat, j: nat, d: Deployment, e: Deployment): seq<Deployment>
    requires i < j < |a|
  {
    a[..i] + [d, e] + (a[i + 1..j] + a[j + 1..])
  }

  /** Position k of the rearranged list holds the time that position held in the list it came from. */
  lemma SideBySideTime(a: seq<Deployment>, i: nat, j: nat, d: Deployment, e: Deployment, k: nat)
    requires i < j < |a| && d.created == e.created == a[i].created && k < |a|
    ensures SideBySide(a, i, j, d, e)[k].created == a[if k <= i then k else if k <= j then k - 1 else k].created
  {
    var b := SideBySide(a, i, j, d, e);
    if k < i {
      assert b[k] == a[k];
    } else if k > j {
      assert b[k] == a[k];
    } else if k >= i + 2 {
      assert b[k] == a[k - 1];
    }
  }

  lemma SideBySideIsSorted(a: seq<Deployment>, i: nat, j: nat, d: Deployment, e: Deployment)
    requires ByCreation(a) && i < j < |a| && a[i].created == a[j].created
    requires d.created == e.created == a[i].created
    ensures ByCreation(SideBySide(a, i, j, d, e))
  {
    var b := SideBySide(a, i, j, d, e);
    forall k, l | 0 <= k < l < |b|
      ensures b[k].created <= b[l].created
    {
      SideBySideTime(a, i, j, d, e, k);
      SideBySideTime(a, i, j, d, e, l);
    }
  }

  lemma BroughtTogether<T>(p: seq<T>, x: T, m: seq<T>, y: T, q: seq<T>)
    ensures multiset(p + [x, y] + (m + q)) == multiset(p + [x] + (m + [y] + q))
    ensures multiset(p + [y, x] + (m + q)) == multiset(p + [x] + (m + [y] + q))
  {
  }

  lemma SplitTwice<T>(s: seq<T>, i: nat, j: nat)
    requires i < j < |s|
    ensures s == s[..i] + [s[i]] + (s[i + 1..j] + [s[j]] + s[j + 1..])
  {
  }

  lemma {:induction false} SideBySideIsPermuted(a: seq<Deployment>, i: nat, j: nat)
    requires i < j < |a|
    ensures multiset(SideBySide(a, i, j, a[i], a[j])) == multiset(a)
    ensures multiset(SideBySide(a, i, j, a[j], a[i])) == multiset(a)
  {
    SplitTwice(a, i, j);
    BroughtTogether(a[..i], a[i], a[i + 1..j], a[j], a[j + 1..]);
  }

  lemma SideBySideAnswer(p: seq<Deployment>, d: Deployment, e: Deployment, q: seq<Deployment>, cluster: string)
    requires InBaseline(d, cluster) && InBaseline(e, cluster)
    ensures Answer(p + [d, e] + q, cluster) ==
            Answer(p, cluster) + (d.containers + e.containers) + Answer(q, cluster)
  {
    assert p + [d, e] + q == p + [d] + ([e] + q);
    AnswerOfEach(p, d, [e] + q, cluster);
    AnswerOfFirst(e, q, cluster);
    Regroup(Answer(p, cluster), d.containers, e.containers, Answer(q, cluster));
  }

  lemma AnswerOfFirst(d: Deployment, q: seq<Deployment>, cluster: string)
    requires InBaseline(d, cluster)
    ensures Answer([d] + q, cluster) == d.containers + Answer(q, cluster)
  {
    assert ([d] + q)[1..] == q;
    assert ([d] + Matching(q, cluster))[1..] == Matching(q, cluster);
  }

  lemma Regroup<T>(a: seq<T>, b: seq<T>, c: seq<T>, d: seq<T>)
    ensures a + b + (c + d) == a + (b + c) + d
  {
  }

  lemma Cancel<T>(p: seq<T>, u: seq<T>, v: seq<T>, q: seq<T>)
    requires p + u + q == p + v + q
    ensures u == v
  {
    assert |p + u + q| == |p| + |u| + |q| && |p + v + q| == |p| + |v| + |q|;
    assert u == (p + u + q)[|p|..|p| + |u|];
    assert v == (p + v + q)[|p|..|p| + |v|];
  }

  lemma FixedAnswerCommutes(a: seq<Deployment>, cluster: string, i: nat, j: nat)
    requires ByCreation(a) && AnswerIsFixed(a, cluster) && i < j < |a| && a[i].created == a[j].created
    requires InBaseline(a[i], cluster) && InBaseline(a[j], cluster)
    ensures a[i].containers + a[j].containers == a[j].containers + a[i].containers
  {
    var d, e := a[i], a[j];
    var p, q := a[..i], a[i + 1..j] + a[j + 1..];
    SideBySideIsSorted(a, i, j, d, e);
    SideBySideIsSorted(a, i, j, e, d);
    SideBySideIsPermuted(a, i, j);
    SideBySideAnswer(p, d, e, q, cluster);
    SideBySideAnswer(p, e, d, q, cluster);
    Cancel(Answer(p, cluster), d.containers + e.containers, e.containers + d.containers, Answer(q, cluster));
  }

  lemma CommutingTiesFixTheAnswer(a: seq<Deployment>, b: seq<Deployment>, cluster: string)
    requires ByCreation(a) && ByCreation(b) && multiset(a) == multiset(b) && TiesCommute(Matching(a, cluster))
    ensures Answer(b, cluster) == Answer(a, cluster)
  {
    SameMatches(a, b, cluster);
    MatchingSorted(a, cluster);
    MatchingSorted(b, cluster);
    CommutingTiesFlattenAlike(Matching(a, cluster), Matching(b, cluster));
  }

  lemma FixedAnswerTies(a: seq<Deployment>, cluster: string, d: Deployment, e: Deployment)
    requires ByCreation(a) && AnswerIsFixed(a, cluster)
    requires d in Matching(a, cluster) && e in Matching(a, cluster) && d.created == e.created
    ensures d.containers + e.containers == e.containers + d.containers
  {
    MatchingFits(a, cluster, d);
    MatchingFits(a, cluster, e);
    var i :| 0 <= i < |a| && a[i] == d;
    var j :| 0 <= j < |a| && a[j] == e;
    if i < j {
      FixedAnswerCommutes(a, cluster, i, j);
    } else if j < i {
      FixedAnswerCommutes(a, cluster, j, i);
    }
  }

  /**
   The sequence of the answer is the same in every order by creation time if and only if matching
   deployments created at one time hold containers that read the same either way round.
   */
  lemma {:induction false} AnswerFixedIffTiesCommute(a: seq<Deployment>, cluster: string)
    requires ByCreation(a)
    ensures AnswerIsFixed(a, cluster) <==> TiesCommute(Matching(a, cluster))
  {
    if TiesCommute(Matching(a, cluster)) {
      forall b | multiset(b) == multiset(a) && ByCreation(b)
        ensures Answer(b, cluster) == Answer(a, cluster)
      {
        CommutingTiesFixTheAnswer(a, b, cluster);
      }
    }
    if AnswerIsFixed(a, cluster) {
      forall d, e | d in Matching(a, cluster) && e in Matching(a, cluster) && d.created == e.created
        ensures d.containers + e.containers == e.containers + d.containers
      {
        FixedAnswerTies(a, cluster, d, e);
      }
    }
  }

  /** In particular it is when the matching deployments were created at distinct times. */
  lemma {:induction false} DistinctTimesFixTheAnswer(a: seq<Deployment>, cluster: string)
    requires ByCreation(a)
    requires var found := Matching(a, cluster);
             forall i, j :: 0 <= i < j < |found| ==> found[i].created != found[j].created
    ensures AnswerIsFixed(a, cluster)
  {
    AnswerFixedIffTiesCommute(a, cluster);
  }
}
