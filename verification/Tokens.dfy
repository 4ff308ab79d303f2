/** The multiset of tags carried by the elements of a queue. */
module Tokens {
  import opened Base

  function Collect<T>(q: seq<T>, tag: T -> Option<nat>): multiset<nat> {
    if q == [] then multiset{}
    else (match tag(q[0]) case None => multiset{} case Some(x) => multiset{x}) + Collect(q[1..], tag)
  }

  lemma {:induction false} CollectConcat<T>(a: seq<T>, b: seq<T>, tag: T -> Option<nat>)
    ensures Collect(a + b, tag) == Collect(a, tag) + Collect(b, tag)
  {
    if a == [] {
      assert a + b == b;
    } else {
      assert (a + b)[1..] == a[1..] + b;
      CollectConcat(a[1..], b, tag);
    }
  }

  /** A set that grows by one element, as a multiset. */
  lemma SetInsert(ids: set<nat>, id: nat)
    requires id !in ids
    ensures multiset(ids + {id}) == multiset(ids) + multiset{id}
  {
    assert forall x :: multiset(ids + {id})[x] == (multiset(ids) + multiset{id})[x];
  }

  lemma CollectOne<T>(x: T, tag: T -> Option<nat>)
    ensures Collect([x], tag) == match tag(x) case None => multiset{} case Some(n) => multiset{n}
  {
    assert [x][1..] == [];
  }

  lemma CollectPush<T>(q: seq<T>, x: T, tag: T -> Option<nat>)
    ensures Collect(q + [x], tag) ==
            Collect(q, tag) + match tag(x) case None => multiset{} case Some(n) => multiset{n}
  {
    CollectConcat(q, [x], tag);
    CollectOne(x, tag);
  }

  lemma CollectRemove<T>(q: seq<T>, i: nat, tag: T -> Option<nat>)
    requires i < |q|
    ensures Collect(q, tag) ==
            Collect(q[..i] + q[i + 1..], tag) + match tag(q[i]) case None => multiset{} case Some(n) => multiset{n}
  {
    assert q == q[..i] + ([q[i]] + q[i + 1..]);
    CollectConcat(q[..i], [q[i]] + q[i + 1..], tag);
    CollectConcat([q[i]], q[i + 1..], tag);
    CollectConcat(q[..i], q[i + 1..], tag);
    CollectOne(q[i], tag);
  }

  lemma {:induction false} CollectMember<T>(q: seq<T>, i: nat, tag: T -> Option<nat>)
    requires i < |q| && tag(q[i]).Some?
    ensures tag(q[i]).value in Collect(q, tag)
  {
    CollectRemove(q, i, tag);
  }

  lemma {:induction false} CollectWitness<T>(q: seq<T>, x: nat, tag: T -> Option<nat>) returns (i: nat)
    requires x in Collect(q, tag)
    ensures i < |q| && tag(q[i]) == Some(x)
  {
    if tag(q[0]) == Some(x) {
      i := 0;
    } else {
      i := CollectWitness(q[1..], x, tag);
      i := i + 1;
    }
  }
}
