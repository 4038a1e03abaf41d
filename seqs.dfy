/** Generic facts about the array idioms the system uses: mapping,
    filtering, dropping nulls, keeping the first occurrence of each value,
    and the "copy the map, then file each item under its key" update. */
module Seqs {
  import opened Wrappers

  function Last<T>(s: seq<T>): T
    requires |s| > 0
  {
    s[|s| - 1]
  }

  function Init<T>(s: seq<T>): seq<T>
    requires |s| > 0
  {
    s[..|s| - 1]
  }

  /** `xs` can be obtained from `ys` by deleting elements, keeping order. */
  predicate IsSubsequence<T(==)>(xs: seq<T>, ys: seq<T>)
    decreases |ys|
  {
    if xs == [] then true
    else if ys == [] then false
    else if Last(xs) == Last(ys) then IsSubsequence(Init(xs), Init(ys))
    else IsSubsequence(xs, Init(ys))
  }

  /** Dropping the last element of a subsequence keeps it a subsequence. */
  lemma {:induction false} SubsequenceDropLast<T>(xs: seq<T>, ys: seq<T>)
    requires xs != [] && IsSubsequence(xs, ys)
    ensures IsSubsequence(Init(xs), ys)
    decreases |ys|, 1
  {
    assert ys != [];
    if Last(xs) == Last(ys) {
      SubsequenceExtend(Init(xs), Init(ys), Last(ys));
      assert Init(ys) + [Last(ys)] == ys;
    } else {
      SubsequenceDropLast(xs, Init(ys));
      SubsequenceExtend(Init(xs), Init(ys), Last(ys));
      assert Init(ys) + [Last(ys)] == ys;
    }
  }

  /** A subsequence of `ys` is a subsequence of any extension of `ys`. */
  lemma {:induction false} SubsequenceExtend<T>(xs: seq<T>, ys: seq<T>, y: T)
    requires IsSubsequence(xs, ys)
    ensures IsSubsequence(xs, ys + [y])
    decreases |ys| + 1, 0
  {
    var ys' := ys + [y];
    assert Last(ys') == y && Init(ys') == ys;
    if xs != [] && Last(xs) == y {
      SubsequenceDropLast(xs, ys);
    }
  }

  /** The element-wise image of `s` under `f`. */
  function Map<T, U>(s: seq<T>, f: T -> U): (r: seq<U>)
    ensures |r| == |s|
    ensures forall i :: 0 <= i < |s| ==> r[i] == f(s[i])
  {
    seq(|s|, i requires 0 <= i < |s| => f(s[i]))
  }

  /** Mapping one more element appends its image. */
  lemma MapSnoc<T, U>(s: seq<T>, x: T, f: T -> U)
    ensures Map(s + [x], f) == Map(s, f) + [f(x)]
  {
    assert forall i :: 0 <= i < |s| ==> (s + [x])[i] == s[i];
  }

  /** The elements of `s` for which `keep` holds, in order. */
  function Filter<T>(s: seq<T>, keep: T -> bool): (r: seq<T>)
    ensures |r| <= |s|
    ensures forall x :: x in r ==> x in s && keep(x)
    decreases |s|
  {
    if s == [] then []
    else Filter(Init(s), keep) + (if keep(Last(s)) then [Last(s)] else [])
  }

  /** Appending `x` adds one to the count of `x` and nothing to any other value's. */
  lemma MultisetSnoc<T>(s: seq<T>, x: T, y: T)
    ensures multiset(s + [x])[y] == multiset(s)[y] + (if x == y then 1 else 0)
  {
    assert multiset(s + [x]) == multiset(s) + multiset{x};
  }

  /** Each kept value occurs in the filter as often as in `s`, and a
      dropped value not at all; with `FilterIsSubsequence` this pins the
      filter down completely. */
  lemma {:induction false} FilterMultiplicity<T>(s: seq<T>, keep: T -> bool, x: T)
    ensures multiset(Filter(s, keep))[x] == if keep(x) then multiset(s)[x] else 0
    decreases |s|
  {
    if s != [] {
      FilterMultiplicity(Init(s), keep, x);
      assert s == Init(s) + [Last(s)];
    }
  }

  /** Every kept element of `s` survives the filter. */
  lemma {:induction false} FilterComplete<T>(s: seq<T>, keep: T -> bool, x: T)
    requires x in s && keep(x)
    ensures x in Filter(s, keep)
    decreases |s|
  {
    if x != Last(s) {
      assert s == Init(s) + [Last(s)];
      FilterComplete(Init(s), keep, x);
    }
  }

  /** The filter keeps the original order. */
  lemma {:induction false} FilterIsSubsequence<T>(s: seq<T>, keep: T -> bool)
    ensures IsSubsequence(Filter(s, keep), s)
    decreases |s|
  {
    if s != [] {
      var f := Filter(Init(s), keep);
      FilterIsSubsequence(Init(s), keep);
      if keep(Last(s)) {
        assert Filter(s, keep) == f + [Last(s)];
        assert Last(f + [Last(s)]) == Last(s) && Init(f + [Last(s)]) == f;
      } else {
        assert Filter(s, keep) == f;
        SubsequenceExtend(f, Init(s), Last(s));
        assert Init(s) + [Last(s)] == s;
      }
    }
  }

  /** The present values of `s`, in order (a filter that drops nulls). */
  function Somes<T>(s: seq<Option<T>>): (r: seq<T>)
    ensures |r| <= |s|
    ensures forall x :: x in r ==> Some(x) in s
    decreases |s|
  {
    if s == [] then []
    else Somes(Init(s)) + (match Last(s) case Some(x) => [x] case None => [])
  }

  /** Every present value survives the dropping of nulls. */
  lemma {:induction false} SomesComplete<T>(s: seq<Option<T>>, x: T)
    requires Some(x) in s
    ensures x in Somes(s)
    decreases |s|
  {
    if Some(x) != Last(s) {
      assert s == Init(s) + [Last(s)];
      SomesComplete(Init(s), x);
    }
  }

  /** When nothing is null, nothing is dropped. */
  lemma {:induction false} SomesAllPresent<T>(s: seq<Option<T>>)
    requires forall i :: 0 <= i < |s| ==> s[i].Some?
    ensures |Somes(s)| == |s|
    decreases |s|
  {
    if s != [] {
      SomesAllPresent(Init(s));
    }
  }

  /** When each present value of `s` carries the key at its position in
      `keys`, the keys of the present values follow the order of `keys`. */
  lemma {:induction false} SomesKeysInOrder<T, K>(s: seq<Option<T>>, keys: seq<K>, key: T -> K)
    requires |s| == |keys|
    requires forall i :: 0 <= i < |s| && s[i].Some? ==> key(s[i].value) == keys[i]
    ensures IsSubsequence(Map(Somes(s), key), keys)
    decreases |s|
  {
    if s != [] {
      var before := Somes(Init(s));
      forall i | 0 <= i < |Init(s)| && Init(s)[i].Some? ensures key(Init(s)[i].value) == Init(keys)[i] {
        assert Init(s)[i] == s[i] && Init(keys)[i] == keys[i];
      }
      SomesKeysInOrder(Init(s), Init(keys), key);
      assert keys == Init(keys) + [Last(keys)];
      match Last(s)
      case Some(x) =>
        assert Somes(s) == before + [x];
        MapSnoc(before, x, key);
        var ys := Map(before, key) + [key(x)];
        assert Init(ys) == Map(before, key) && Last(ys) == Last(keys);
      case None =>
        assert Somes(s) == before;
        SubsequenceExtend(Map(before, key), Init(keys), Last(keys));
    }
  }

  /** Dropping the nulls of all-null values leaves nothing. */
  lemma {:induction false} SomesOfNothing<T>(s: seq<Option<T>>)
    requires forall i :: 0 <= i < |s| ==> s[i].None?
    ensures Somes(s) == []
    decreases |s|
  {
    if s != [] {
      SomesOfNothing(Init(s));
    }
  }

  predicate NoDuplicates<T(==)>(s: seq<T>)
  {
    forall i, j :: 0 <= i < j < |s| ==> s[i] != s[j]
  }

  /** Each distinct element of `s` once, in order of first occurrence, as a
      set built by inserting the elements in order lists them. */
  function Dedup<T(==)>(s: seq<T>): (r: seq<T>)
    ensures forall x :: x in r ==> x in s
    ensures forall x :: x in s ==> x in r
    ensures NoDuplicates(r)
    decreases |s|
  {
    if s == [] then []
    else
      var d := Dedup(Init(s));
      assert s == Init(s) + [Last(s)];
      if Last(s) in d then d else d + [Last(s)]
  }

  /** Deduplication keeps the original order. */
  lemma {:induction false} DedupIsSubsequence<T>(s: seq<T>)
    ensures IsSubsequence(Dedup(s), s)
    decreases |s|
  {
    if s != [] {
      var d := Dedup(Init(s));
      DedupIsSubsequence(Init(s));
      if Last(s) in d {
        SubsequenceExtend(d, Init(s), Last(s));
        assert Init(s) + [Last(s)] == s;
      } else {
        assert Last(d + [Last(s)]) == Last(s) && Init(d + [Last(s)]) == d;
      }
    }
  }

  /** Deduplicating a longer list only appends: the values of the prefix
      keep their places, so each value sits where it first occurred. */
  lemma {:induction false} DedupPrefix<T>(s: seq<T>, t: seq<T>)
    ensures |Dedup(s)| <= |Dedup(s + t)|
    ensures Dedup(s + t)[..|Dedup(s)|] == Dedup(s)
    decreases |t|
  {
    if t == [] {
      assert s + t == s;
    } else {
      DedupPrefix(s, Init(t));
      assert Init(s + t) == s + Init(t) && Last(s + t) == Last(t);
    }
  }

  /** A value not seen before is appended at the end. */
  lemma DedupAppendsNew<T>(s: seq<T>, x: T)
    requires x !in s
    ensures Dedup(s + [x]) == Dedup(s) + [x]
  {
    assert Init(s + [x]) == s && Last(s + [x]) == x;
  }

  /** The map obtained from `m` by filing each `v` of `items` under
      `key(v)`, in order, each filing replacing what was there. */
  function Upsert<K, V>(m: map<K, V>, items: seq<V>, key: V -> K): (r: map<K, V>)
    ensures r.Keys == m.Keys + (set v | v in items :: key(v))
    decreases |items|
  {
    if items == [] then m
    else
      assert items == Init(items) + [Last(items)];
      Upsert(m, Init(items), key)[key(Last(items)) := Last(items)]
  }

  /** The last item carrying a key is the one the key maps to. */
  lemma {:induction false} UpsertLastWins<K, V>(m: map<K, V>, items: seq<V>, key: V -> K, i: nat)
    requires i < |items|
    requires forall j :: i < j < |items| ==> key(items[j]) != key(items[i])
    ensures key(items[i]) in Upsert(m, items, key)
    ensures Upsert(m, items, key)[key(items[i])] == items[i]
    decreases |items|
  {
    if i < |items| - 1 {
      UpsertLastWins(m, Init(items), key, i);
    }
  }

  /** A key that no item carries keeps the entry it had. */
  lemma {:induction false} UpsertUntouched<K, V>(m: map<K, V>, items: seq<V>, key: V -> K, k: K)
    requires k in m
    requires forall j :: 0 <= j < |items| ==> key(items[j]) != k
    ensures k in Upsert(m, items, key) && Upsert(m, items, key)[k] == m[k]
    decreases |items|
  {
    if items != [] {
      UpsertUntouched(m, Init(items), key, k);
    }
  }

  /** Every entry of the result is either an item filed under its own key
      or an untouched entry of `m`. */
  lemma {:induction false} UpsertEntryOrigin<K, V>(m: map<K, V>, items: seq<V>, key: V -> K, k: K)
    requires k in Upsert(m, items, key)
    ensures (exists j :: 0 <= j < |items| && key(items[j]) == k && Upsert(m, items, key)[k] == items[j])
         || (k in m && Upsert(m, items, key)[k] == m[k])
    decreases |items|
  {
    if items != [] && key(Last(items)) != k {
      UpsertEntryOrigin(m, Init(items), key, k);
    }
  }

  /** Filing one more item is a single map update. */
  lemma UpsertSnoc<K, V>(m: map<K, V>, items: seq<V>, x: V, key: V -> K)
    ensures Upsert(m, items + [x], key) == Upsert(m, items, key)[key(x) := x]
  {
    assert Init(items + [x]) == items && Last(items + [x]) == x;
  }
}
