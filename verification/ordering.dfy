/**
 Orders used by the model's sorted reads and views.

 Strings compare code point by code point (the order Firestore's `orderBy`
 uses on string fields, and the order `localeCompare` gives on the
 zero-padded "HH:MM" times the views sort). A sort key is a sequence of parts
 compared lexicographically, so `orderBy('categoria'), orderBy('nome')` is the
 key `[Text(categoria), Text(nome), ...]`.
 */
module Ordering {
  import opened Seqs

  /** Strict lexicographic order on strings. */
  predicate StrLess(a: string, b: string)
    decreases |a|
  {
    if |a| == 0 then |b| > 0
    else |b| > 0 && (a[0] < b[0] || (a[0] == b[0] && StrLess(a[1..], b[1..])))
  }

  lemma {:induction false} StrLessIrreflexive(a: string)
    ensures !StrLess(a, a)
    decreases |a|
  {
    if |a| > 0 {
      StrLessIrreflexive(a[1..]);
    }
  }

  lemma {:induction false} StrLessTransitive(a: string, b: string, c: string)
    requires StrLess(a, b) && StrLess(b, c)
    ensures StrLess(a, c)
    decreases |a|
  {
    if |a| > 0 && a[0] == b[0] && b[0] == c[0] {
      StrLessTransitive(a[1..], b[1..], c[1..]);
    }
  }

  lemma {:induction false} StrLessTotal(a: string, b: string)
    requires a != b
    ensures StrLess(a, b) || StrLess(b, a)
    decreases |a|
  {
    if |a| > 0 && |b| > 0 && a[0] == b[0] {
      assert a == [a[0]] + a[1..] && b == [b[0]] + b[1..];
      StrLessTotal(a[1..], b[1..]);
    }
  }

  /** One component of a sort key: a number (a timestamp) or a string. */
  datatype Part = Num(n: int) | Text(t: string)

  /** Numbers sort before strings, as Firestore orders values of mixed type. */
  predicate PartLess(x: Part, y: Part)
  {
    match (x, y)
    case (Num(m), Num(n)) => m < n
    case (Num(_), Text(_)) => true
    case (Text(_), Num(_)) => false
    case (Text(s), Text(t)) => StrLess(s, t)
  }

  type SortKey = seq<Part>

  /** Strict lexicographic order on sort keys. */
  predicate KeyLess(a: SortKey, b: SortKey)
    decreases |a|
  {
    if |a| == 0 then |b| > 0
    else |b| > 0 && (PartLess(a[0], b[0]) || (a[0] == b[0] && KeyLess(a[1..], b[1..])))
  }

  /** The non-strict companion of `KeyLess`. */
  predicate KeyLe(a: SortKey, b: SortKey)
  {
    !KeyLess(b, a)
  }

  lemma {:induction false} KeyLessIrreflexive(a: SortKey)
    ensures !KeyLess(a, a)
    decreases |a|
  {
    if |a| > 0 {
      if a[0].Text? {
        StrLessIrreflexive(a[0].t);
      }
      KeyLessIrreflexive(a[1..]);
    }
  }

  lemma {:induction false} KeyLessTransitive(a: SortKey, b: SortKey, c: SortKey)
    requires KeyLess(a, b) && KeyLess(b, c)
    ensures KeyLess(a, c)
    decreases |a|
  {
    if |a| > 0 {
      if a[0] == b[0] && b[0] == c[0] {
        if a[0].Text? {
          StrLessIrreflexive(a[0].t);
        }
        assert !PartLess(a[0], a[0]);
        KeyLessTransitive(a[1..], b[1..], c[1..]);
      } else if a[0].Text? && b[0].Text? && c[0].Text? && PartLess(a[0], b[0]) && PartLess(b[0], c[0]) {
        StrLessTransitive(a[0].t, b[0].t, c[0].t);
      }
    }
  }

  lemma {:induction false} KeyLessTotal(a: SortKey, b: SortKey)
    requires a != b
    ensures KeyLess(a, b) || KeyLess(b, a)
    decreases |a|
  {
    if |a| > 0 && |b| > 0 {
      if a[0] == b[0] {
        assert a == [a[0]] + a[1..] && b == [b[0]] + b[1..];
        KeyLessTotal(a[1..], b[1..]);
      } else if a[0].Text? && b[0].Text? {
        StrLessTotal(a[0].t, b[0].t);
      }
    }
  }

  /** `KeyLe` is a total preorder: reflexive, transitive and total. */
  lemma KeyLeTotalPreorder(a: SortKey, b: SortKey, c: SortKey)
    ensures KeyLe(a, a)
    ensures KeyLe(a, b) || KeyLe(b, a)
    ensures KeyLe(a, b) && KeyLe(b, c) ==> KeyLe(a, c)
  {
    KeyLessIrreflexive(a);
    if KeyLess(a, b) && KeyLess(b, a) {
      KeyLessTransitive(a, b, a);
    }
    if KeyLe(a, b) && KeyLe(b, c) && KeyLess(c, a) {
      if a == b {
      } else {
        KeyLessTotal(a, b);
        KeyLessTransitive(c, a, b);
      }
    }
  }

  /** On single-number keys the order is the order of the numbers. */
  lemma NumKeyOrder(m: int, n: int)
    ensures KeyLe([Num(m)], [Num(n)]) <==> m <= n
  {
    assert [Num(m)][1..] == [] && [Num(n)][1..] == [];
    assert !KeyLess([], []);
    assert KeyLess([Num(n)], [Num(m)]) <==> PartLess(Num(n), Num(m));
  }

  /** `s` is non-decreasing under `key`. */
  ghost predicate SortedBy<T>(s: seq<T>, key: T -> SortKey)
  {
    forall i, j :: 0 <= i < j < |s| ==> KeyLe(key(s[i]), key(s[j]))
  }

  /** Inserts `x` before the first element it does not follow. */
  function Insert<T>(x: T, s: seq<T>, key: T -> SortKey): (r: seq<T>)
    requires SortedBy(s, key)
    ensures SortedBy(r, key)
    ensures multiset(r) == multiset(s) + multiset{x}
  {
    if |s| == 0 then [x]
    else if KeyLe(key(x), key(s[0])) then
      assert forall j :: 0 <= j < |s| ==> KeyLe(key(x), key(s[j])) by {
        forall j | 0 <= j < |s| ensures KeyLe(key(x), key(s[j])) {
          KeyLeTotalPreorder(key(x), key(s[0]), key(s[j]));
        }
      }
      ConsSorted(x, s, key);
      [x] + s
    else
      assert s == [s[0]] + s[1..];
      var rest := Insert(x, s[1..], key);
      KeyLeTotalPreorder(key(x), key(s[0]), key(x));
      HeadPrecedesInsertion(x, s, key, rest);
      ConsSorted(s[0], rest, key);
      [s[0]] + rest
  }

  /** A head that precedes every element of a sorted sequence keeps it sorted. */
  lemma ConsSorted<T>(h: T, s: seq<T>, key: T -> SortKey)
    requires SortedBy(s, key)
    requires forall j :: 0 <= j < |s| ==> KeyLe(key(h), key(s[j]))
    ensures SortedBy([h] + s, key)
  {
    var r := [h] + s;
    forall i, j | 0 <= i < j < |r| ensures KeyLe(key(r[i]), key(r[j])) {
      assert r[j] == s[j - 1];
      if i > 0 {
        assert r[i] == s[i - 1];
      }
    }
  }

  /** The head of a sorted sequence precedes every element of its tail with `x` inserted, when it precedes `x`. */
  lemma HeadPrecedesInsertion<T>(x: T, s: seq<T>, key: T -> SortKey, rest: seq<T>)
    requires |s| > 0 && SortedBy(s, key)
    requires KeyLe(key(s[0]), key(x))
    requires multiset(rest) == multiset(s[1..]) + multiset{x}
    ensures forall j :: 0 <= j < |rest| ==> KeyLe(key(s[0]), key(rest[j]))
  {
    forall j | 0 <= j < |rest| ensures KeyLe(key(s[0]), key(rest[j])) {
      assert rest[j] in multiset(rest);
      if rest[j] != x {
        assert rest[j] in multiset(s[1..]);
        var k :| 0 <= k < |s[1..]| && s[1..][k] == rest[j];
        assert s[k + 1] == rest[j];
      }
    }
  }

  /**
   A stable insertion sort: JavaScript's `Array.prototype.sort` with a
   comparator, and Firestore's `orderBy`, on the key `key`.
   */
  function SortBy<T>(s: seq<T>, key: T -> SortKey): (r: seq<T>)
    ensures SortedBy(r, key)
    ensures multiset(r) == multiset(s)
    ensures |r| == |s|
    ensures forall i :: 0 <= i < |r| ==> r[i] in s
    ensures forall i :: 0 <= i < |s| ==> s[i] in r
  {
    if |s| == 0 then []
    else
      assert s == [s[0]] + s[1..];
      var r := Insert(s[0], SortBy(s[1..], key), key);
      PermutationMembers(s, r);
      r
  }

  /**
   Inserting `x` places it before every element of `s` with the same key:
   among the elements whose key is `k`, `x` comes first and the others keep
   their order.
   */
  lemma {:induction false} InsertStable<T>(x: T, s: seq<T>, key: T -> SortKey, k: SortKey, mesmaChave: T -> bool)
    requires SortedBy(s, key)
    requires forall y :: mesmaChave(y) == (key(y) == k)
    ensures Filter(Insert(x, s, key), mesmaChave) == (if key(x) == k then [x] else []) + Filter(s, mesmaChave)
    decreases |s|
  {
    if |s| == 0 {
      FilterSingleton(x, mesmaChave);
    } else if KeyLe(key(x), key(s[0])) {
      FilterAppend([x], s, mesmaChave);
      FilterSingleton(x, mesmaChave);
    } else {
      var rest := Insert(x, s[1..], key);
      assert Insert(x, s, key) == [s[0]] + rest;
      assert s == [s[0]] + s[1..];
      FilterAppend([s[0]], rest, mesmaChave);
      FilterAppend([s[0]], s[1..], mesmaChave);
      FilterSingleton(s[0], mesmaChave);
      FilterSingleton(x, mesmaChave);
      InsertStable(x, s[1..], key, k, mesmaChave);
      if key(x) == k {
        KeyLessIrreflexive(key(x));
      }
    }
  }

  lemma FilterSingleton<T>(x: T, p: T -> bool)
    ensures Filter([x], p) == if p(x) then [x] else []
  {
    assert [x][1..] == [];
  }

  /**
   The sort is stable: for every key, the elements with that key appear in
   the result in the order they had in the input.
   */
  lemma SortByStable<T>(s: seq<T>, key: T -> SortKey, k: SortKey)
    ensures Filter(SortBy(s, key), (y: T) => key(y) == k) == Filter(s, (y: T) => key(y) == k)
  {
    SortByStableFor(s, key, k, (y: T) => key(y) == k);
  }

  lemma {:induction false} SortByStableFor<T>(s: seq<T>, key: T -> SortKey, k: SortKey, mesmaChave: T -> bool)
    requires forall y :: mesmaChave(y) == (key(y) == k)
    ensures Filter(SortBy(s, key), mesmaChave) == Filter(s, mesmaChave)
    decreases |s|
  {
    if |s| > 0 {
      SortByStableFor(s[1..], key, k, mesmaChave);
      InsertStable(s[0], SortBy(s[1..], key), key, k, mesmaChave);
    }
  }

  /** A sorted sequence's elements all belong to the sorted input, and conversely. */
  lemma SortByMembers<T>(s: seq<T>, key: T -> SortKey, x: T)
    ensures x in SortBy(s, key) <==> x in s
  {
    var r := SortBy(s, key);
    assert x in r <==> x in multiset(r);
    assert x in s <==> x in multiset(s);
  }

  /** A key ordered first by a number orders that number. */
  lemma KeyLeNumHead(a: SortKey, b: SortKey)
    requires |a| > 0 && |b| > 0 && a[0].Num? && b[0].Num?
    requires KeyLe(a, b)
    ensures a[0].n <= b[0].n
  {
  }

  /** A key ordered first by a string orders that string. */
  lemma KeyLeTextHead(a: SortKey, b: SortKey)
    requires |a| > 0 && |b| > 0 && a[0].Text? && b[0].Text?
    requires KeyLe(a, b)
    ensures !StrLess(b[0].t, a[0].t)
  {
  }
}
