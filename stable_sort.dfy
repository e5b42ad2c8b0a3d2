/**
 * Collections.sort with a comparator that compares one integer key: a stable sort. It is modelled
 * by the insertion sort below; a sorted, stable permutation of a list is unique, so any stable
 * sort gives the same result.
 */
module StableSort {
  import opened Seqs

  ghost predicate SortedBy<T>(s: seq<T>, key: T -> int) {
    forall i, j :: 0 <= i < j < |s| ==> key(s[i]) <= key(s[j])
  }

  /** The elements whose key is `k`. */
  function HasKey<T>(key: T -> int, k: int): T -> bool {
    x => key(x) == k
  }

  /** Inserts `x` before the first element whose key is not smaller. */
  function Insert<T>(x: T, s: seq<T>, key: T -> int): (r: seq<T>)
    ensures |r| == |s| + 1
  {
    if s == [] then [x]
    else if key(x) <= key(s[0]) then [x] + s
    else [s[0]] + Insert(x, s[1..], key)
  }

  /** The list sorted by `key`, equal keys in their original order. */
  function SortBy<T>(s: seq<T>, key: T -> int): (r: seq<T>)
    ensures |r| == |s|
  {
    if s == [] then [] else Insert(s[0], SortBy(s[1..], key), key)
  }

  lemma {:induction false} InsertPermutes<T>(x: T, s: seq<T>, key: T -> int)
    ensures multiset(Insert(x, s, key)) == multiset(s) + multiset{x}
  {
    if s != [] && key(x) > key(s[0]) {
      InsertPermutes(x, s[1..], key);
      assert s == [s[0]] + s[1..];
    }
  }

  lemma {:induction false} InsertSorted<T>(x: T, s: seq<T>, key: T -> int)
    requires SortedBy(s, key)
    ensures SortedBy(Insert(x, s, key), key)
    ensures |s| > 0 ==> Insert(x, s, key)[0] == (if key(x) <= key(s[0]) then x else s[0])
  {
    if s != [] && key(x) > key(s[0]) {
      var rest := s[1..];
      assert SortedBy(rest, key) by {
        forall i, j | 0 <= i < j < |rest| ensures key(rest[i]) <= key(rest[j]) {
          assert rest[i] == s[i + 1] && rest[j] == s[j + 1];
        }
      }
      InsertSorted(x, rest, key);
      var r := Insert(x, rest, key);
      assert forall j :: 0 <= j < |r| ==> key(s[0]) <= key(r[j]) by {
        forall j | 0 <= j < |r| ensures key(s[0]) <= key(r[j]) {
          InsertPermutes(x, rest, key);
          assert r[j] in multiset(r);
          assert r[j] in multiset(rest) || r[j] == x;
          if r[j] != x {
            var m :| 0 <= m < |rest| && rest[m] == r[j];
            assert s[m + 1] == r[j];
          }
        }
      }
      var out := [s[0]] + r;
      forall i, j | 0 <= i < j < |out| ensures key(out[i]) <= key(out[j]) {
        if i > 0 {
          assert out[i] == r[i - 1] && out[j] == r[j - 1];
        } else {
          assert out[j] == r[j - 1];
        }
      }
    }
  }

  /** Filtering a one-element list. */
  lemma FilterSingle<T>(f: T -> bool, x: T)
    ensures Filter(f, [x]) == if f(x) then [x] else []
  {
    assert Filter(f, [x]) == if f(x) then [x] + Filter(f, []) else Filter(f, []);
  }

  /** Inserting `x` adds `x` to the elements of its own key, in front of them, and to no others. */
  lemma {:induction false} InsertFilter<T>(x: T, s: seq<T>, key: T -> int, k: int)
    ensures Filter(HasKey(key, k), Insert(x, s, key)) ==
            (if key(x) == k then [x] else []) + Filter(HasKey(key, k), s)
  {
    var f := HasKey(key, k);
    FilterSingle(f, x);
    if s == [] {
    } else if key(x) <= key(s[0]) {
      FilterAppend(f, [x], s);
    } else {
      InsertFilter(x, s[1..], key, k);
      InsertFilterStep(x, s, key, k);
    }
  }

  /** The step of InsertFilter where `x` goes after the head of `s`. */
  lemma InsertFilterStep<T>(x: T, s: seq<T>, key: T -> int, k: int)
    requires s != [] && key(x) > key(s[0])
    requires Filter(HasKey(key, k), Insert(x, s[1..], key)) ==
             (if key(x) == k then [x] else []) + Filter(HasKey(key, k), s[1..])
    ensures Filter(HasKey(key, k), Insert(x, s, key)) ==
            (if key(x) == k then [x] else []) + Filter(HasKey(key, k), s)
  {
    var f := HasKey(key, k);
    var mid := if key(x) == k then [x] else [];
    var tail := Insert(x, s[1..], key);
    FilterAppend(f, [s[0]], tail);
    FilterAppend(f, [s[0]], s[1..]);
    assert s == [s[0]] + s[1..];
    FilterSingle(f, s[0]);
    var head := Filter(f, [s[0]]);
    assert Insert(x, s, key) == [s[0]] + tail;
    assert key(x) == k ==> head == [];
    assert head + mid == mid + head;
  }

  /** SortBy's result is ordered by the key. */
  lemma {:induction false} SortBySorted<T>(s: seq<T>, key: T -> int)
    ensures SortedBy(SortBy(s, key), key)
  {
    if s != [] {
      SortBySorted(s[1..], key);
      InsertSorted(s[0], SortBy(s[1..], key), key);
    }
  }

  /** SortBy's result is a permutation of its input. */
  lemma {:induction false} SortByPermutes<T>(s: seq<T>, key: T -> int)
    ensures multiset(SortBy(s, key)) == multiset(s)
  {
    if s != [] {
      SortByPermutes(s[1..], key);
      InsertPermutes(s[0], SortBy(s[1..], key), key);
      assert s == [s[0]] + s[1..];
    }
  }

  /** SortBy is stable: the elements of each key keep their order. */
  lemma {:induction false} SortByStable<T>(s: seq<T>, key: T -> int, k: int)
    ensures Filter(HasKey(key, k), SortBy(s, key)) == Filter(HasKey(key, k), s)
  {
    if s != [] {
      SortByStable(s[1..], key, k);
      InsertFilter(s[0], SortBy(s[1..], key), key, k);
    }
  }

  /** The first element of a sorted result has the least key of the input. */
  lemma SortByFirstIsLeast<T>(s: seq<T>, key: T -> int)
    requires |s| > 0
    ensures forall i :: 0 <= i < |s| ==> key(SortBy(s, key)[0]) <= key(s[i])
  {
    var r := SortBy(s, key);
    SortBySorted(s, key);
    SortByPermutes(s, key);
    forall i | 0 <= i < |s| ensures key(r[0]) <= key(s[i]) {
      assert s[i] in multiset(r);
      var j :| 0 <= j < |r| && r[j] == s[i];
    }
  }
}
