/**
 * Spend lists: the `[{'date': …, 'duration': …}, …]` and
 * `[{'month': …, 'duration': …}, …]` lists that Brand.get_daily_spend and
 * Brand.get_monthly_spend build, written once over any key type.
 *
 * `Merge` is one step of those methods' inner loop: find the first entry
 * with the same key, add to its duration in place, or append a new entry.
 * `Merged` folds that step over a list of entries from the left, which is
 * the order the loops visit them. The lemmas say what the result means:
 * keys in first-seen order, each key once, and each key's duration the sum
 * of the durations merged under it.
 */
module SpendLists {

  import opened Wrappers

  datatype Spend<K> = Spend(key: K, duration: int)

  /** The keys of a list, in order. */
  function Keys<K>(list: seq<Spend<K>>): (ks: seq<K>)
    ensures |ks| == |list|
    ensures forall i :: 0 <= i < |list| ==> ks[i] == list[i].key
  {
    seq(|list|, i requires 0 <= i < |list| => list[i].key)
  }

  /** No value occurs twice. */
  predicate Distinct<K(==)>(ks: seq<K>)
  {
    forall i, j :: 0 <= i < j < |ks| ==> ks[i] != ks[j]
  }

  /** Index of the first entry with key `k`: the search the merge and the lookups share. */
  function FirstIndex<K(==)>(list: seq<Spend<K>>, k: K): (r: Option<nat>)
    ensures r.None? <==> forall i :: 0 <= i < |list| ==> list[i].key != k
    ensures r.Some? ==> r.value < |list| && list[r.value].key == k
    ensures r.Some? ==> forall j :: 0 <= j < r.value ==> list[j].key != k
  {
    if list == [] then None
    else if list[0].key == k then Some(0)
    else match FirstIndex(list[1..], k)
      case None => None
      case Some(i) => Some(i + 1)
  }

  /**
   * The duration recorded under `k`, or 0 when no entry has that key:
   * Brand.get_date_spend and Brand.get_month_spend on an already built list.
   */
  function Lookup<K(==)>(list: seq<Spend<K>>, k: K): (d: int)
    ensures (forall i :: 0 <= i < |list| ==> list[i].key != k) ==> d == 0
    ensures Distinct(Keys(list)) ==> forall i :: 0 <= i < |list| && list[i].key == k ==> d == list[i].duration
  {
    match FirstIndex(list, k)
    case None => 0
    case Some(i) =>
      assert Keys(list)[i] == k;
      list[i].duration
  }

  /** One step of the merge loop. */
  function Merge<K(==)>(list: seq<Spend<K>>, e: Spend<K>): seq<Spend<K>>
  {
    match FirstIndex(list, e.key)
    case Some(i) => list[i := Spend(e.key, e.duration + list[i].duration)]
    case None => list + [e]
  }

  /** The list the merge loop builds from the entries `es`, visited in order. */
  function Merged<K(==)>(es: seq<Spend<K>>): seq<Spend<K>>
  {
    if es == [] then [] else Merge(Merged(es[..|es| - 1]), es[|es| - 1])
  }

  /** Sum of the durations of the entries with key `k`. */
  function SumFor<K(==)>(es: seq<Spend<K>>, k: K): int
  {
    if es == [] then 0
    else SumFor(es[..|es| - 1], k) + (if es[|es| - 1].key == k then es[|es| - 1].duration else 0)
  }

  /** Sum of all durations. */
  function Total<K>(es: seq<Spend<K>>): int
  {
    if es == [] then 0 else Total(es[..|es| - 1]) + es[|es| - 1].duration
  }

  /** The distinct values of `ks` in the order of their first occurrence. */
  function FirstSeen<K(==)>(ks: seq<K>): seq<K>
  {
    if ks == [] then []
    else
      var seen := FirstSeen(ks[..|ks| - 1]);
      if ks[|ks| - 1] in seen then seen else seen + [ks[|ks| - 1]]
  }

  lemma {:induction false} FirstSeenMembers<K>(ks: seq<K>)
    ensures forall k :: k in FirstSeen(ks) <==> k in ks
    ensures Distinct(FirstSeen(ks))
  {
    if ks != [] {
      var init := ks[..|ks| - 1];
      FirstSeenMembers(init);
      assert ks == init + [ks[|ks| - 1]];
    }
  }

  /** A merge step keeps every key where it was and appends a key it has not seen. */
  lemma MergeKeys<K>(list: seq<Spend<K>>, e: Spend<K>)
    ensures Keys(Merge(list, e)) == if e.key in Keys(list) then Keys(list) else Keys(list) + [e.key]
  {
    match FirstIndex(list, e.key)
    case Some(i) =>
      assert Keys(list)[i] == e.key;
    case None =>
      assert e.key !in Keys(list);
  }

  /** A merge step adds `e.duration` to the amount looked up under `e.key` and changes no other key's. */
  lemma MergeLookup<K>(list: seq<Spend<K>>, e: Spend<K>, k: K)
    ensures Lookup(Merge(list, e), k) == Lookup(list, k) + (if e.key == k then e.duration else 0)
  {
    var m := Merge(list, e);
    match FirstIndex(list, e.key)
    case Some(i) =>
      assert forall j :: 0 <= j < |m| ==> m[j].key == list[j].key;
      assert FirstIndex(m, k) == FirstIndex(list, k) by {
        FirstIndexSameKeys(list, m, k);
      }
    case None =>
      assert forall j :: 0 <= j < |list| ==> m[j] == list[j];
      if e.key == k {
        assert FirstIndex(m, k) == Some(|list|) by {
          FirstIndexUnique(m, k, |list|);
        }
      } else {
        match FirstIndex(list, k)
        case None =>
        case Some(j) =>
          FirstIndexUnique(m, k, j);
      }
  }

  /** Two lists with the same keys at the same places have the same first index for every key. */
  lemma FirstIndexSameKeys<K>(a: seq<Spend<K>>, b: seq<Spend<K>>, k: K)
    requires |a| == |b|
    requires forall j :: 0 <= j < |a| ==> a[j].key == b[j].key
    ensures FirstIndex(a, k) == FirstIndex(b, k)
  {
    match FirstIndex(a, k)
    case None =>
    case Some(i) => FirstIndexUnique(b, k, i);
  }

  /** The first index is the only index holding `k` with no `k` before it. */
  lemma FirstIndexUnique<K>(list: seq<Spend<K>>, k: K, i: nat)
    requires i < |list| && list[i].key == k
    requires forall j :: 0 <= j < i ==> list[j].key != k
    ensures FirstIndex(list, k) == Some(i)
  {
  }

  /** A merge step adds exactly `e.duration` to the grand total. */
  lemma {:induction false} TotalUpdate<K>(list: seq<Spend<K>>, i: nat, x: Spend<K>)
    requires i < |list|
    ensures Total(list[i := x]) == Total(list) - list[i].duration + x.duration
  {
    var n := |list| - 1;
    if i < n {
      TotalUpdate(list[..n], i, x);
      assert list[i := x][..n] == list[..n][i := x];
    } else {
      assert list[i := x][..n] == list[..n];
    }
  }

  lemma MergeTotal<K>(list: seq<Spend<K>>, e: Spend<K>)
    ensures Total(Merge(list, e)) == Total(list) + e.duration
  {
    match FirstIndex(list, e.key)
    case Some(i) =>
      TotalUpdate(list, i, Spend(e.key, e.duration + list[i].duration));
    case None =>
      assert (list + [e])[..|list|] == list;
  }

  /**
   * What the merge loop builds: one entry per key, keys in the order they
   * first occur, each key's duration the sum of the durations merged under
   * it, and the grand total unchanged.
   */
  lemma {:induction false} MergedSpec<K>(es: seq<Spend<K>>)
    ensures Keys(Merged(es)) == FirstSeen(Keys(es))
    ensures Distinct(Keys(Merged(es)))
    ensures forall k :: Lookup(Merged(es), k) == SumFor(es, k)
    ensures Total(Merged(es)) == Total(es)
  {
    FirstSeenMembers(Keys(es));
    if es != [] {
      var init := es[..|es| - 1];
      var e := es[|es| - 1];
      MergedSpec(init);
      assert Keys(es)[..|es| - 1] == Keys(init);
      MergeKeys(Merged(init), e);
      MergeTotal(Merged(init), e);
      forall k ensures Lookup(Merged(es), k) == SumFor(es, k) {
        MergeLookup(Merged(init), e, k);
      }
    }
  }

  /** Sums over a concatenation split over its parts. */
  lemma {:induction false} SumForAppend<K>(a: seq<Spend<K>>, b: seq<Spend<K>>, k: K)
    ensures SumFor(a + b, k) == SumFor(a, k) + SumFor(b, k)
    ensures Total(a + b) == Total(a) + Total(b)
  {
    if b != [] {
      var n := |b| - 1;
      SumForAppend(a, b[..n], k);
      assert (a + b)[..|a + b| - 1] == a + b[..n];
    } else {
      assert a + b == a;
    }
  }

  /** Merging one more entry is one more merge step. */
  lemma MergedAppend<K>(es: seq<Spend<K>>, e: Spend<K>)
    ensures Merged(es + [e]) == Merge(Merged(es), e)
  {
    assert (es + [e])[..|es|] == es;
  }

  /** The same, for a loop that merges the entries of `more` one at a time. */
  lemma MergedSnoc<K>(before: seq<Spend<K>>, more: seq<Spend<K>>, j: nat)
    requires j < |more|
    ensures Merged(before + more[..j + 1]) == Merge(Merged(before + more[..j]), more[j])
  {
    assert before + more[..j + 1] == (before + more[..j]) + [more[j]];
    MergedAppend(before + more[..j], more[j]);
  }

  /** The same entries with every key replaced by its image under `f`. */
  function Rekey<K, L>(es: seq<Spend<K>>, f: K -> L): (ms: seq<Spend<L>>)
    ensures |ms| == |es|
    ensures forall i :: 0 <= i < |es| ==> ms[i] == Spend(f(es[i].key), es[i].duration)
  {
    seq(|es|, i requires 0 <= i < |es| => Spend(f(es[i].key), es[i].duration))
  }

  /** Re-keying a concatenation re-keys its parts. */
  lemma RekeyAppend<K, L>(a: seq<Spend<K>>, b: seq<Spend<K>>, f: K -> L)
    ensures Rekey(a + b, f) == Rekey(a, f) + Rekey(b, f)
  {
  }

  /** Re-keying one more entry of `more`, for a loop that merges re-keyed entries one at a time. */
  lemma RekeySnoc<K, L>(before: seq<Spend<K>>, more: seq<Spend<K>>, j: nat, f: K -> L)
    requires j < |more|
    ensures Merged(Rekey(before + more[..j + 1], f))
         == Merge(Merged(Rekey(before + more[..j], f)), Spend(f(more[j].key), more[j].duration))
  {
    var ms := Rekey(before + more[..j + 1], f);
    assert ms[..|ms| - 1] == Rekey(before + more[..j], f);
  }

  /** Re-keying changes no duration, so the grand total stays. */
  lemma {:induction false} RekeyTotal<K, L>(es: seq<Spend<K>>, f: K -> L)
    ensures Total(Rekey(es, f)) == Total(es)
  {
    if es != [] {
      var n := |es| - 1;
      RekeyTotal(es[..n], f);
      assert Rekey(es, f)[..n] == Rekey(es[..n], f);
    }
  }

}
