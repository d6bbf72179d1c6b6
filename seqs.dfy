/** Sequence and map operations shared by the record store, the channel
    editor, the dashboard and the spreadsheet export: the JavaScript array
    methods `findIndex`, `filter` and `reduce` that the application relies
    on, stated once with the facts the rest of the model needs. */
module Seqs {

  datatype Option<T> = None | Some(value: T)

  // ---------------------------------------------------------------------
  // findIndex, upsert by id

  /** True when some element of `s` has id `id`. */
  ghost predicate HasId<T>(s: seq<T>, idOf: T -> string, id: string)
  {
    exists j :: 0 <= j < |s| && idOf(s[j]) == id
  }

  /** `Array.prototype.findIndex` with an id test: the first index whose
      element has id `id`, or -1 when there is none. */
  function FindIndex<T>(s: seq<T>, idOf: T -> string, id: string): (r: int)
    ensures -1 <= r < |s|
    ensures 0 <= r ==> idOf(s[r]) == id && forall j :: 0 <= j < r ==> idOf(s[j]) != id
    ensures r == -1 ==> forall j :: 0 <= j < |s| ==> idOf(s[j]) != id
  {
    if s == [] then -1
    else if idOf(s[0]) == id then 0
    else
      var k := FindIndex(s[1..], idOf, id);
      if k < 0 then -1 else k + 1
  }

  /** Read-modify-write upsert of the record store: if an element with the
      id of `x` exists, the first one is overwritten by `replacement`,
      otherwise `x` is appended. */
  function Upsert<T>(s: seq<T>, idOf: T -> string, x: T, replacement: T): seq<T>
  {
    var i := FindIndex(s, idOf, idOf(x));
    if i >= 0 then s[i := replacement] else s + [x]
  }

  /** An absent id: the record is appended verbatim and nothing before it moves. */
  lemma UpsertAbsent<T>(s: seq<T>, idOf: T -> string, x: T, replacement: T)
    requires !HasId(s, idOf, idOf(x))
    ensures var r := Upsert(s, idOf, x, replacement);
      |r| == |s| + 1 && r[..|s|] == s && r[|s|] == x
  {
    var r := Upsert(s, idOf, x, replacement);
    assert r == s + [x];
  }

  /** A present id: the length is kept, the first match is overwritten and
      every other index is untouched. */
  lemma UpsertPresent<T>(s: seq<T>, idOf: T -> string, x: T, replacement: T, i: nat)
    requires i < |s| && idOf(s[i]) == idOf(x)
    requires forall j :: 0 <= j < i ==> idOf(s[j]) != idOf(x)
    ensures var r := Upsert(s, idOf, x, replacement);
      |r| == |s| && r[i] == replacement &&
      forall j :: 0 <= j < |s| && j != i ==> r[j] == s[j]
  {
  }

  /** Save-then-load: after an upsert whose replacement keeps the id, looking
      the id up again finds the record that was written. */
  lemma UpsertThenFind<T>(s: seq<T>, idOf: T -> string, x: T, replacement: T)
    requires idOf(replacement) == idOf(x)
    ensures var r := Upsert(s, idOf, x, replacement);
      var k := FindIndex(r, idOf, idOf(x));
      0 <= k && r[k] == (if HasId(s, idOf, idOf(x)) then replacement else x)
  {
    var r := Upsert(s, idOf, x, replacement);
    var i := FindIndex(s, idOf, idOf(x));
    var k := FindIndex(r, idOf, idOf(x));
    if i >= 0 {
      assert HasId(s, idOf, idOf(x));
      assert idOf(r[i]) == idOf(x);
      assert k != -1;
    } else {
      assert !HasId(s, idOf, idOf(x));
      assert r == s + [x];
      assert idOf(r[|s|]) == idOf(x);
      assert k != -1;
    }
  }

  /** Saving the same record twice verbatim is the same as saving it once. */
  lemma {:induction false} UpsertIdempotent<T>(s: seq<T>, idOf: T -> string, x: T)
    ensures Upsert(Upsert(s, idOf, x, x), idOf, x, x) == Upsert(s, idOf, x, x)
  {
    var r := Upsert(s, idOf, x, x);
    UpsertThenFind(s, idOf, x, x);
    var k := FindIndex(r, idOf, idOf(x));
    assert r[k := x] == r;
  }

  // ---------------------------------------------------------------------
  // filter

  /** `Array.prototype.filter`: the elements satisfying `p`, in order. */
  function Filter<T>(s: seq<T>, p: T -> bool): (r: seq<T>)
    ensures |r| <= |s|
    ensures forall j :: 0 <= j < |r| ==> r[j] in s && p(r[j])
    ensures forall j :: 0 <= j < |s| && p(s[j]) ==> s[j] in r
  {
    if s == [] then []
    else (if p(s[0]) then [s[0]] else []) + Filter(s[1..], p)
  }

  /** Order-preserving subsequence: `a` is `b` with some elements dropped. */
  ghost predicate IsSubsequence<T>(a: seq<T>, b: seq<T>)
    decreases |b|
  {
    if a == [] then true
    else if b == [] then false
    else (a[0] == b[0] && IsSubsequence(a[1..], b[1..])) || IsSubsequence(a, b[1..])
  }

  lemma {:induction false} FilterIsSubsequence<T>(s: seq<T>, p: T -> bool)
    ensures IsSubsequence(Filter(s, p), s)
  {
    if s != [] {
      FilterIsSubsequence(s[1..], p);
      var r := Filter(s, p);
      if p(s[0]) {
        assert r[0] == s[0] && r[1..] == Filter(s[1..], p);
      } else {
        assert r == Filter(s[1..], p);
      }
    }
  }

  /** How often each value survives a filter. */
  lemma {:induction false} FilterCount<T>(s: seq<T>, p: T -> bool, x: T)
    ensures multiset(Filter(s, p))[x] == if p(x) then multiset(s)[x] else 0
  {
    if s != [] {
      FilterCount(s[1..], p, x);
      MultisetCons(s);
      var kept := if p(s[0]) then [s[0]] else [];
      assert multiset(kept + Filter(s[1..], p)) == multiset(kept) + multiset(Filter(s[1..], p));
    }
  }

  lemma MultisetCons<T>(s: seq<T>)
    requires s != []
    ensures multiset(s) == multiset{s[0]} + multiset(s[1..])
  {
    assert s == [s[0]] + s[1..];
  }

  lemma {:induction false} FilterAll<T>(s: seq<T>, p: T -> bool)
    requires forall j :: 0 <= j < |s| ==> p(s[j])
    ensures Filter(s, p) == s
  {
    if s != [] {
      FilterAll(s[1..], p);
    }
  }

  lemma {:induction false} FilterConcat<T>(a: seq<T>, b: seq<T>, p: T -> bool)
    ensures Filter(a + b, p) == Filter(a, p) + Filter(b, p)
  {
    if a != [] {
      assert (a + b)[1..] == a[1..] + b;
      FilterConcat(a[1..], b, p);
    } else {
      assert a + b == b;
    }
  }

  /** Filtering first by `q` keeps at most as many `p` elements as there are in all of `s`. */
  lemma {:induction false} FilterOfFilterShorter<T>(s: seq<T>, p: T -> bool, q: T -> bool)
    ensures |Filter(Filter(s, q), p)| <= |Filter(s, p)|
  {
    if s != [] {
      FilterOfFilterShorter(s[1..], p, q);
      if q(s[0]) {
        assert Filter(s, q) == [s[0]] + Filter(s[1..], q);
        FilterConcat([s[0]], Filter(s[1..], q), p);
      } else {
        assert Filter(s, q) == Filter(s[1..], q);
      }
    }
  }

  /** `filter(x => idOf(x) !== id)`, the delete-by-id of the store and the editor. */
  function RemoveId<T>(s: seq<T>, idOf: T -> string, id: string): seq<T>
  {
    Filter(s, x => idOf(x) != id)
  }

  /** Deleting by id, one record at a time from the front. */
  lemma RemoveIdCons<T>(s: seq<T>, idOf: T -> string, id: string)
    requires s != []
    ensures RemoveId(s, idOf, id) == (if idOf(s[0]) != id then [s[0]] else []) + RemoveId(s[1..], idOf, id)
  {
  }

  /** Deleting by id removes every record with that id and no other record,
      keeps the survivors in their original relative order, and is a no-op
      when the id is absent. */
  lemma RemoveIdSpec<T>(s: seq<T>, idOf: T -> string, id: string)
    ensures var r := RemoveId(s, idOf, id);
      (forall j :: 0 <= j < |r| ==> idOf(r[j]) != id) &&
      (forall x :: x in r <==> x in s && idOf(x) != id) &&
      (forall x :: idOf(x) != id ==> multiset(r)[x] == multiset(s)[x]) &&
      IsSubsequence(r, s) &&
      (!HasId(s, idOf, id) ==> r == s)
  {
    var p := x => idOf(x) != id;
    var r := Filter(s, p);
    forall j | 0 <= j < |r| ensures idOf(r[j]) != id {
      assert r[j] in r;
    }
    forall x | idOf(x) != id ensures multiset(r)[x] == multiset(s)[x] {
      FilterCount(s, p, x);
    }
    FilterIsSubsequence(s, p);
    if !HasId(s, idOf, id) {
      FilterAll(s, p);
    }
  }

  /** Appending a record under a new id and then deleting that id gives
      back the original sequence. */
  lemma UpsertAbsentThenRemove<T>(s: seq<T>, idOf: T -> string, rec: T, replacement: T)
    requires !HasId(s, idOf, idOf(rec))
    ensures RemoveId(Upsert(s, idOf, rec, replacement), idOf, idOf(rec)) == s
  {
    var id := idOf(rec);
    var p := x => idOf(x) != id;
    UpsertAbsent(s, idOf, rec, replacement);
    assert Upsert(s, idOf, rec, replacement) == s + [rec];
    FilterConcat(s, [rec], p);
    FilterAll(s, p);
    assert Filter([rec], p) == [];
  }

  // ---------------------------------------------------------------------
  // map

  /** `s.map(f)`: one image per element, in order. */
  function Map<A, B>(s: seq<A>, f: A -> B): (r: seq<B>)
    ensures |r| == |s|
    ensures forall i :: 0 <= i < |s| ==> r[i] == f(s[i])
  {
    if s == [] then [] else Map(s[..|s| - 1], f) + [f(s[|s| - 1])]
  }

  // ---------------------------------------------------------------------
  // reduce with +

  /** `s.reduce((total, x) => total + f(x), 0)`: a left fold. */
  function Sum<T>(s: seq<T>, f: T -> real): real
  {
    if s == [] then 0.0 else Sum(s[..|s| - 1], f) + f(s[|s| - 1])
  }

  lemma {:induction false} SumConcat<T>(a: seq<T>, b: seq<T>, f: T -> real)
    ensures Sum(a + b, f) == Sum(a, f) + Sum(b, f)
  {
    if b == [] {
      assert a + b == a;
    } else {
      var c := a + b;
      assert c[..|c| - 1] == a + b[..|b| - 1];
      assert c[|c| - 1] == b[|b| - 1];
      SumConcat(a, b[..|b| - 1], f);
    }
  }

  /** Sums of two lists whose terms agree position by position are equal. */
  lemma {:induction false} SumPointwise<T>(a: seq<T>, b: seq<T>, f: T -> real)
    requires |a| == |b| && forall i :: 0 <= i < |a| ==> f(a[i]) == f(b[i])
    ensures Sum(a, f) == Sum(b, f)
  {
    if a != [] {
      SumPointwise(a[..|a| - 1], b[..|b| - 1], f);
    }
  }

  lemma SumRemoveAt<T>(b: seq<T>, i: nat, f: T -> real)
    requires i < |b|
    ensures Sum(b, f) == Sum(b[..i] + b[i + 1..], f) + f(b[i])
  {
    SplitAt(b, i);
    SumAround(b[..i], b[i], b[i + 1..], f);
  }

  lemma SplitAt<T>(b: seq<T>, i: nat)
    requires i < |b|
    ensures b == (b[..i] + [b[i]]) + b[i + 1..]
  {
  }

  lemma SumAround<T>(pre: seq<T>, x: T, post: seq<T>, f: T -> real)
    ensures Sum((pre + [x]) + post, f) == Sum(pre + post, f) + f(x)
  {
    SumConcat(pre + [x], post, f);
    assert (pre + [x])[..|pre|] == pre;
    SumConcat(pre, post, f);
  }

  lemma MultisetRemoveAt<T>(b: seq<T>, i: nat)
    requires i < |b|
    ensures multiset(b[..i] + b[i + 1..]) == multiset(b) - multiset{b[i]}
  {
    assert b == b[..i] + [b[i]] + b[i + 1..];
    assert multiset(b) == multiset(b[..i]) + multiset{b[i]} + multiset(b[i + 1..]);
  }

  /** A sum does not depend on the order of its terms. */
  lemma {:induction false} SumPermutation<T>(a: seq<T>, b: seq<T>, f: T -> real)
    requires multiset(a) == multiset(b)
    ensures Sum(a, f) == Sum(b, f)
    decreases |a|
  {
    if a == [] {
      assert |b| == |multiset(b)| == 0;
    } else {
      var n := |a| - 1;
      var x := a[n];
      assert x in multiset(b) by { assert x in a; }
      var i :| 0 <= i < |b| && b[i] == x;
      MultisetRemoveAt(a, n);
      MultisetRemoveAt(b, i);
      assert a[..n] + a[n + 1..] == a[..n];
      SumPermutation(a[..n], b[..i] + b[i + 1..], f);
      SumRemoveAt(b, i, f);
    }
  }

  // ---------------------------------------------------------------------
  // Object.values(m).flat() over a map of lists

  ghost predicate Distinct(ks: seq<string>)
  {
    forall i, j :: 0 <= i < j < |ks| ==> ks[i] != ks[j]
  }

  /** `order` enumerates the key set `keys`, each key exactly once. JavaScript
      fixes this order itself (integer-like keys first); the model takes it as
      a parameter and promises nothing about it. */
  ghost predicate IsKeyOrder(order: seq<string>, keys: set<string>)
  {
    Distinct(order) && forall k :: k in order <==> k in keys
  }

  /** The lists of `m`, in the enumeration order `order`, concatenated. */
  function Concat<V>(m: map<string, seq<V>>, order: seq<string>): seq<V>
    requires forall k :: k in order ==> k in m
  {
    if order == [] then [] else m[order[0]] + Concat(m, order[1..])
  }

  /** `Object.values(m).reduce((sum, l) => sum + l.length, 0)`. */
  function SizeSum<V>(m: map<string, seq<V>>, order: seq<string>): nat
    requires forall k :: k in order ==> k in m
  {
    if order == [] then 0 else |m[order[0]]| + SizeSum(m, order[1..])
  }

  lemma {:induction false} SizeSumIsLength<V>(m: map<string, seq<V>>, order: seq<string>)
    requires forall k :: k in order ==> k in m
    ensures SizeSum(m, order) == |Concat(m, order)|
  {
    if order != [] {
      SizeSumIsLength(m, order[1..]);
    }
  }

  /** When the list under each key holds `x` exactly as often as `base` does
      if `x` belongs under that key (and never otherwise), the concatenation
      holds `x` as often as `base` does if its key is enumerated at all. */
  lemma {:induction false} ConcatCount<V>(m: map<string, seq<V>>, order: seq<string>,
                                          sel: V -> string, base: multiset<V>, x: V)
    requires forall k :: k in order ==> k in m
    requires Distinct(order)
    requires forall k :: k in order ==> multiset(m[k])[x] == if sel(x) == k then base[x] else 0
    ensures multiset(Concat(m, order))[x] == if sel(x) in order then base[x] else 0
  {
    if order != [] {
      var rest := order[1..];
      assert Distinct(rest) by {
        forall i, j | 0 <= i < j < |rest| ensures rest[i] != rest[j] {
          assert rest[i] == order[i + 1] && rest[j] == order[j + 1];
        }
      }
      ConcatCount(m, rest, sel, base, x);
      assert order[0] !in rest by {
        forall j | 0 <= j < |rest| ensures rest[j] != order[0] {
          assert rest[j] == order[j + 1];
        }
      }
      assert sel(x) in order <==> sel(x) == order[0] || sel(x) in rest by {
        assert order == [order[0]] + rest;
      }
    }
  }
}
