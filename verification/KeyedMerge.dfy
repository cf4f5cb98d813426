/** One section of an import: a file lists entries by key, each entry makes the object it leaves out of
    the object that is there, and writing the section may stop part way through any object. */
module KeyedMerge {
  import opened Prelude

  function Get<K(==), S>(m: map<K, S>, k: K): Option<S> {
    if k in m then Some(m[k]) else None
  }

  /** The maps differ at k at most. */
  ghost predicate OnlyKey<K(!new), V>(a: map<K, V>, b: map<K, V>, k: K) { forall j :: j != k ==> Get(a, j) == Get(b, j) }

  /** What an entry makes of the object under its key; None refuses the file. */
  type Rule<!S, !E> = (Option<S>, E) -> Option<S>

  /** Of (old, now, target): now is a state in which writing target over old can stop. */
  type Partial<!S> = (Option<S>, Option<S>, S) -> bool

  ghost predicate Distinct<K(!new), E>(keyOf: E -> K, es: seq<E>) {
    forall i, j :: 0 <= i < j < |es| ==> keyOf(es[i]) != keyOf(es[j])
  }

  ghost predicate Accepted<K, S, E>(next: Rule<S, E>, keyOf: E -> K, m: map<K, S>, es: seq<E>) {
    forall i :: 0 <= i < |es| ==> next(Get(m, keyOf(es[i])), es[i]).Some?
  }

  /** The section after its first n entries, every one judged on the snapshot m. */
  function Applied<K(==), S, E>(next: Rule<S, E>, keyOf: E -> K, m: map<K, S>, es: seq<E>, n: nat): map<K, S>
    requires n <= |es|
  {
    if n == 0 then m else
    var before := Applied(next, keyOf, m, es, n - 1);
    match next(Get(m, keyOf(es[n - 1])), es[n - 1])
    case Some(t) => before[keyOf(es[n - 1]) := t]
    case None => before
  }

  /** w is m with some entries written, some half written and the rest as they were. */
  ghost predicate Between<K(!new), S, E>(next: Rule<S, E>, half: Partial<S>, keyOf: E -> K, m: map<K, S>, w: map<K, S>, es: seq<E>) {
    && (forall i :: 0 <= i < |es| ==>
          var k := keyOf(es[i]);
          next(Get(m, k), es[i]).Some? && half(Get(m, k), Get(w, k), next(Get(m, k), es[i]).value))
    && (forall k :: (forall i :: 0 <= i < |es| ==> keyOf(es[i]) != k) ==> Get(w, k) == Get(m, k))
  }

  /** An entry judged again on anything its own writing can leave comes out the same. */
  ghost predicate Stable<K, S(!new), E>(next: Rule<S, E>, half: Partial<S>, keyOf: E -> K, m: map<K, S>, es: seq<E>) {
    forall i, s :: 0 <= i < |es| && next(Get(m, keyOf(es[i])), es[i]).Some?
      && half(Get(m, keyOf(es[i])), s, next(Get(m, keyOf(es[i])), es[i]).value)
      ==> next(s, es[i]) == next(Get(m, keyOf(es[i])), es[i])
  }

  /** Entry by entry, what a merge leaves. */
  lemma {:induction false} AppliedAt<K(!new), S, E>(next: Rule<S, E>, keyOf: E -> K, m: map<K, S>, es: seq<E>, n: nat, k: K)
    requires n <= |es| && Distinct(keyOf, es) && Accepted(next, keyOf, m, es)
    ensures (forall i :: 0 <= i < n ==> keyOf(es[i]) != k) ==> Get(Applied(next, keyOf, m, es, n), k) == Get(m, k)
    ensures forall i :: 0 <= i < n && keyOf(es[i]) == k ==>
      Get(Applied(next, keyOf, m, es, n), k) == next(Get(m, k), es[i])
  {
    if n > 0 {
      AppliedAt(next, keyOf, m, es, n - 1, k);
    }
  }

  lemma {:induction false} AppliedKeys<K, S, E>(next: Rule<S, E>, keyOf: E -> K, m: map<K, S>, es: seq<E>, n: nat, keys: set<K>)
    requires n <= |es| && Accepted(next, keyOf, m, es) && forall i :: 0 <= i < n ==> keyOf(es[i]) in keys
    ensures m.Keys <= Applied(next, keyOf, m, es, n).Keys <= m.Keys + keys
    ensures forall i :: 0 <= i < n ==> keyOf(es[i]) in Applied(next, keyOf, m, es, n)
  {
    if n > 0 { AppliedKeys(next, keyOf, m, es, n - 1, keys); }
  }

  /** The fixed point at the heart of an import that is run again: from any state the first attempt can
      have stopped in, the same file is accepted and ends where the first would have ended. */
  lemma Converges<K(!new), S(!new), E>(next: Rule<S, E>, half: Partial<S>, keyOf: E -> K, m: map<K, S>, w: map<K, S>, es: seq<E>)
    requires Distinct(keyOf, es) && Between(next, half, keyOf, m, w, es) && Stable(next, half, keyOf, m, es)
    ensures Accepted(next, keyOf, w, es)
    ensures Applied(next, keyOf, w, es, |es|) == Applied(next, keyOf, m, es, |es|)
  {
    var a, b := Applied(next, keyOf, m, es, |es|), Applied(next, keyOf, w, es, |es|);
    forall i | 0 <= i < |es| ensures next(Get(w, keyOf(es[i])), es[i]) == next(Get(m, keyOf(es[i])), es[i]) {
    }
    forall k ensures Get(a, k) == Get(b, k) {
      AppliedAt(next, keyOf, m, es, |es|, k);
      AppliedAt(next, keyOf, w, es, |es|, k);
    }
    SameByKey(a, b);
  }

  lemma SameByKey<K(!new), S>(a: map<K, S>, b: map<K, S>)
    requires forall k :: Get(a, k) == Get(b, k)
    ensures a == b
  {
    forall k ensures k in a <==> k in b { assert Get(a, k) == Get(b, k); }
    forall k | k in a ensures a[k] == b[k] { assert Get(a, k) == Get(b, k); }
  }

  /** A finished section is one of the states between. */
  lemma FinishedIsBetween<K(!new), S(!new), E>(next: Rule<S, E>, half: Partial<S>, keyOf: E -> K, m: map<K, S>, es: seq<E>, n: nat)
    requires n <= |es| && Distinct(keyOf, es) && Accepted(next, keyOf, m, es)
    requires forall s, t :: half(s, Some(t), t) && half(s, s, t)
    ensures Between(next, half, keyOf, m, Applied(next, keyOf, m, es, n), es)
  {
    var w := Applied(next, keyOf, m, es, n);
    forall i | 0 <= i < |es| ensures half(Get(m, keyOf(es[i])), Get(w, keyOf(es[i])), next(Get(m, keyOf(es[i])), es[i]).value) {
      AppliedAt(next, keyOf, m, es, n, keyOf(es[i]));
      var t := next(Get(m, keyOf(es[i])), es[i]).value;
      assert half(Get(m, keyOf(es[i])), Some(t), t) && half(Get(m, keyOf(es[i])), Get(m, keyOf(es[i])), t);
    }
    forall k | forall i :: 0 <= i < |es| ==> keyOf(es[i]) != k ensures Get(w, k) == Get(m, k) {
      AppliedAt(next, keyOf, m, es, n, k);
    }
  }

  /** So is one that stops inside entry n. */
  lemma StoppedIsBetween<K(!new), S(!new), E>(next: Rule<S, E>, half: Partial<S>, keyOf: E -> K, m: map<K, S>, es: seq<E>, n: nat,
                                   w: map<K, S>)
    requires n < |es| && Distinct(keyOf, es) && Accepted(next, keyOf, m, es)
    requires forall s, t :: half(s, Some(t), t) && half(s, s, t)
    requires half(Get(m, keyOf(es[n])), Get(w, keyOf(es[n])), next(Get(m, keyOf(es[n])), es[n]).value)
    requires forall k :: k != keyOf(es[n]) ==> Get(w, k) == Get(Applied(next, keyOf, m, es, n), k)
    ensures Between(next, half, keyOf, m, w, es)
  {
    FinishedIsBetween(next, half, keyOf, m, es, n);
    var v := Applied(next, keyOf, m, es, n);
    forall i | 0 <= i < |es| ensures half(Get(m, keyOf(es[i])), Get(w, keyOf(es[i])), next(Get(m, keyOf(es[i])), es[i]).value) {
      if i != n {
        assert keyOf(es[i]) != keyOf(es[n]);
      }
    }
    forall k | forall i :: 0 <= i < |es| ==> keyOf(es[i]) != k ensures Get(w, k) == Get(m, k) {
      assert keyOf(es[n]) != k;
    }
  }
}
