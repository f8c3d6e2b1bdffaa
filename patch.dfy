/**
 * Values and patches of the store. A value is a map from field name to
 * data; a patch (a `Partial<T>` of the store's value type) is a map holding
 * a subset of the fields. Every merge in the store is the shallow, key-wise
 * `Object.assign({}, base, patch)`: a fresh map with all keys of `base`,
 * where the keys of `patch` win.
 */
module Patch {
  import opened Wrappers

  /** `Object.assign({}, base, patch)`: right-biased, shallow merge. */
  function Apply<K, V>(base: map<K, V>, patch: map<K, V>): (r: map<K, V>)
    ensures r.Keys == base.Keys + patch.Keys
    ensures forall k :: k in patch ==> r[k] == patch[k]
    ensures forall k :: k in base && k !in patch ==> r[k] == base[k]
  {
    base + patch
  }

  /**
   * The pending patch after `patch` is submitted: `patch` itself when
   * nothing is pending, otherwise the older pending patch with the keys of
   * `patch` written over it.
   */
  function Accumulate<K, V>(pending: Option<map<K, V>>, patch: map<K, V>): (r: map<K, V>)
    ensures pending.None? ==> r == patch
    ensures pending.Some? ==> r.Keys == pending.value.Keys + patch.Keys
    ensures forall k :: k in patch ==> k in r && r[k] == patch[k]
    ensures pending.Some? ==> forall k :: k in pending.value && k !in patch ==> r[k] == pending.value[k]
  {
    match pending
    case None => patch
    case Some(older) => Apply(older, patch)
  }

  /** What the store's value will be once the pending patch, if any, is applied. */
  function Settled<K, V>(value: map<K, V>, pending: Option<map<K, V>>): (r: map<K, V>)
    ensures pending.None? ==> r == value
    ensures pending.Some? ==> r.Keys == value.Keys + pending.value.Keys
    ensures pending.Some? ==> forall k :: k in pending.value ==> r[k] == pending.value[k]
  {
    match pending
    case None => value
    case Some(p) => Apply(value, p)
  }

  /** `base` with every patch of `patches` applied, first to last. */
  function ApplyAll<K, V>(base: map<K, V>, patches: seq<map<K, V>>): (r: map<K, V>)
    ensures base.Keys <= r.Keys
    ensures forall i :: 0 <= i < |patches| ==> patches[i].Keys <= r.Keys
    decreases |patches|
  {
    if patches == [] then base
    else Apply(ApplyAll(base, patches[..|patches| - 1]), patches[|patches| - 1])
  }

  /** Merging is associative: applying two patches one after the other is applying their merge. */
  lemma ApplyAssociative<K, V>(base: map<K, V>, p: map<K, V>, q: map<K, V>)
    ensures Apply(Apply(base, p), q) == Apply(base, Apply(p, q))
  {
  }

  /** Patches on disjoint keys commute. */
  lemma ApplyDisjointCommutes<K, V>(base: map<K, V>, p: map<K, V>, q: map<K, V>)
    requires p.Keys !! q.Keys
    ensures Apply(Apply(base, p), q) == Apply(Apply(base, q), p)
  {
    var l, r := Apply(Apply(base, p), q), Apply(Apply(base, q), p);
    assert l.Keys == r.Keys;
    forall k | k in l
      ensures l[k] == r[k]
    {
      if k in q {
        assert k !in p;
      }
    }
  }

  /**
   * Folding a new patch into the pending one and then applying it gives
   * the same value as applying the old pending patch and then the new one:
   * no submitted key is lost, and later patches win.
   */
  lemma SettledAccumulate<K, V>(value: map<K, V>, pending: Option<map<K, V>>, patch: map<K, V>)
    ensures Settled(value, Some(Accumulate(pending, patch))) == Apply(Settled(value, pending), patch)
  {
    match pending
    case None =>
    case Some(older) => ApplyAssociative(value, older, patch);
  }

  lemma ApplyAllSnoc<K, V>(base: map<K, V>, patches: seq<map<K, V>>, p: map<K, V>)
    ensures ApplyAll(base, patches + [p]) == Apply(ApplyAll(base, patches), p)
  {
    assert (patches + [p])[..|patches|] == patches;
  }

  /** Applying two runs of patches one after the other is applying their concatenation. */
  lemma {:induction false} ApplyAllConcat<K, V>(base: map<K, V>, ps: seq<map<K, V>>, qs: seq<map<K, V>>)
    ensures ApplyAll(base, ps + qs) == ApplyAll(ApplyAll(base, ps), qs)
    decreases |qs|
  {
    if qs == [] {
      assert ps + qs == ps;
    } else {
      var front, last := qs[..|qs| - 1], qs[|qs| - 1];
      assert qs == front + [last];
      assert ps + qs == (ps + front) + [last];
      ApplyAllSnoc(base, ps + front, last);
      ApplyAllConcat(base, ps, front);
      ApplyAllSnoc(ApplyAll(base, ps), front, last);
    }
  }

  /** Every key a patch run mentions ends up with the value the last patch mentioning it gives. */
  lemma {:induction false} ApplyAllLastWins<K, V>(base: map<K, V>, patches: seq<map<K, V>>, k: K, j: nat)
    requires j < |patches| && k in patches[j]
    requires forall i :: j < i < |patches| ==> k !in patches[i]
    ensures k in ApplyAll(base, patches) && ApplyAll(base, patches)[k] == patches[j][k]
    decreases |patches|
  {
    if j < |patches| - 1 {
      ApplyAllLastWins(base, patches[..|patches| - 1], k, j);
    }
  }

  /** A key no patch mentions keeps its value. */
  lemma {:induction false} ApplyAllUntouched<K, V>(base: map<K, V>, patches: seq<map<K, V>>, k: K)
    requires forall i :: 0 <= i < |patches| ==> k !in patches[i]
    ensures k in ApplyAll(base, patches) <==> k in base
    ensures k in base ==> ApplyAll(base, patches)[k] == base[k]
    decreases |patches|
  {
    if patches != [] {
      ApplyAllUntouched(base, patches[..|patches| - 1], k);
    }
  }
}
