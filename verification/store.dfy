/**
 * The list operations every page applies to its saved records: the next
 * id, `map` with an update for the matching record, `filter`, `sort` with
 * a key comparator, the `reduce` that counts records per key, and the
 * distinct values a `new Set(...)` collects.
 */
module Store {
  import opened Js

  // ---------------------------------------------------------------------
  // Ids
  // ---------------------------------------------------------------------

  function Max(xs: seq<int>): (m: int)
    requires xs != []
    ensures m in xs && forall x :: x in xs ==> x <= m
  {
    if |xs| == 1 then xs[0]
    else
      var t := Max(xs[1..]);
      assert xs == [xs[0]] + xs[1..];
      if xs[0] >= t then xs[0] else t
  }

  /**
   * `ids.length > 0 ? Math.max(...ids) + 1 : 1`: an id larger than every id
   * in use, one past the largest, or 1 for an empty list.
   */
  function NextId(ids: seq<int>): (r: int)
    ensures forall x :: x in ids ==> x < r
    ensures ids == [] ==> r == 1
    ensures ids != [] ==> r - 1 in ids
  {
    if ids == [] then 1 else Max(ids) + 1
  }

  /**
   * `s.length > 0 ? Math.max(...s.map(id)) + 1 : 1`: the id a new record
   * receives, above the id of every record in `s`.
   */
  function FreshId<T>(s: seq<T>, id: T -> int): (r: int)
    ensures forall i :: 0 <= i < |s| ==> id(s[i]) < r
    ensures s == [] ==> r == 1
    ensures s != [] ==> exists i :: 0 <= i < |s| && id(s[i]) == r - 1
  {
    var ids := Map(s, id);
    assert forall i :: 0 <= i < |s| ==> id(s[i]) in ids by {
      forall i | 0 <= i < |s| ensures id(s[i]) in ids { assert ids[i] == id(s[i]); }
    }
    NextId(ids)
  }

  /** `s.map(f)` */
  function Map<T, U>(s: seq<T>, f: T -> U): (r: seq<U>)
    ensures |r| == |s| && forall i :: 0 <= i < |s| ==> r[i] == f(s[i])
  {
    if s == [] then [] else [f(s[0])] + Map(s[1..], f)
  }

  // ---------------------------------------------------------------------
  // Update the matching records
  // ---------------------------------------------------------------------

  /**
   * `s.map(x => hit(x) ? change(x) : x)`: every matching record is
   * replaced by its changed copy, every other record stays where it is.
   */
  function Update<T>(s: seq<T>, hit: T -> bool, change: T -> T): (r: seq<T>)
    ensures |r| == |s|
    ensures forall i :: 0 <= i < |s| ==> r[i] == (if hit(s[i]) then change(s[i]) else s[i])
    ensures (forall i :: 0 <= i < |s| ==> !hit(s[i])) ==> r == s
  {
    if s == [] then [] else [if hit(s[0]) then change(s[0]) else s[0]] + Update(s[1..], hit, change)
  }

  /** `s.reduce((sum, x) => sum + f(x), 0)` */
  function Sum<T>(s: seq<T>, f: T -> int): int {
    if s == [] then 0 else f(s[0]) + Sum(s[1..], f)
  }

  /** An update that adds one to a field adds one to its total per updated record. */
  lemma {:induction false} UpdateSum<T>(s: seq<T>, hit: T -> bool, change: T -> T, f: T -> int)
    requires forall x :: hit(x) ==> f(change(x)) == f(x) + 1
    ensures Sum(Update(s, hit, change), f) == Sum(s, f) + Count(s, hit)
  {
    if s != [] {
      UpdateSum(s[1..], hit, change, f);
      assert Update(s, hit, change)[1..] == Update(s[1..], hit, change);
    }
  }

  /** An update that leaves a field alone leaves the column of that field alone. */
  lemma UpdateKeeps<T, U>(s: seq<T>, hit: T -> bool, change: T -> T, g: T -> U)
    requires forall x :: hit(x) ==> g(change(x)) == g(x)
    ensures Map(Update(s, hit, change), g) == Map(s, g)
  {
  }

  /** No two records share a key. */
  predicate UniqueBy<T>(s: seq<T>, id: T -> int) {
    forall i, j :: 0 <= i < j < |s| ==> id(s[i]) != id(s[j])
  }

  /** With unique ids, selecting by id selects exactly the one record that has it, if any. */
  lemma {:induction false} CountUnique<T>(s: seq<T>, id: T -> int, k: int, hit: T -> bool)
    requires UniqueBy(s, id)
    requires forall x :: hit(x) <==> id(x) == k
    ensures Count(s, hit) == if k in Map(s, id) then 1 else 0
  {
    if s != [] {
      assert UniqueBy(s[1..], id) by {
        forall i, j | 0 <= i < j < |s[1..]| ensures id(s[1..][i]) != id(s[1..][j]) {
          assert s[1..][i] == s[i + 1] && s[1..][j] == s[j + 1];
        }
      }
      CountUnique(s[1..], id, k, hit);
      if hit(s[0]) {
        forall i | 0 <= i < |s[1..]| ensures Map(s[1..], id)[i] != k {
          assert s[1..][i] == s[i + 1];
        }
      }
      assert Map(s, id) == [id(s[0])] + Map(s[1..], id);
    }
  }

  /** Putting a record with a fresh id in front keeps the ids unique. */
  lemma PrependFresh<T>(x: T, s: seq<T>, id: T -> int)
    requires UniqueBy(s, id)
    requires forall i :: 0 <= i < |s| ==> id(s[i]) < id(x)
    ensures UniqueBy([x] + s, id)
  {
    var r := [x] + s;
    forall i, j | 0 <= i < j < |r| ensures id(r[i]) != id(r[j]) {
      assert r[j] == s[j - 1];
      if i > 0 { assert r[i] == s[i - 1]; }
    }
  }

  // ---------------------------------------------------------------------
  // Comment threads
  // ---------------------------------------------------------------------

  /**
   * A comment under a complaint, request or notice. `badge` is the flag the
   * source stores as `isAdmin`, `isStaff` or `isOfficial`; a missing flag is false.
   */
  datatype Comment = Comment(id: int, user: string, text: string, date: string, badge: bool)

  function CommentId(c: Comment): int {
    c.id
  }

  /**
   * `[...comments, { id: next id, user: "You", text, date }]`: the thread
   * grows by one comment at the end, with an id above every id in it.
   */
  function Reply(comments: seq<Comment>, text: string, date: string): (r: seq<Comment>)
    ensures |r| == |comments| + 1 && r[..|comments|] == comments
    ensures forall i :: 0 <= i < |comments| ==> comments[i].id < r[|comments|].id
    ensures r[|comments|] == Comment(r[|comments|].id, "You", text, date, false)
    ensures UniqueBy(comments, CommentId) ==> UniqueBy(r, CommentId)
  {
    var r := comments + [Comment(FreshId(comments, CommentId), "You", text, date, false)];
    assert UniqueBy(comments, CommentId) ==> UniqueBy(r, CommentId) by {
      if UniqueBy(comments, CommentId) {
        forall i, j | 0 <= i < j < |r| ensures r[i].id != r[j].id {
          if j == |comments| { assert r[i] == comments[i]; }
        }
      }
    }
    r
  }

  // ---------------------------------------------------------------------
  // Filter
  // ---------------------------------------------------------------------

  /** `r` is `s` with some elements left out and the others in their order. */
  ghost predicate Subsequence<T>(r: seq<T>, s: seq<T>)
    decreases |s|
  {
    if r == [] then true
    else if s == [] then false
    else (r[0] == s[0] && Subsequence(r[1..], s[1..])) || Subsequence(r, s[1..])
  }

  /** A subsequence holds no element more often than the sequence does. */
  lemma {:induction false} SubsequenceMultiset<T>(r: seq<T>, s: seq<T>)
    requires Subsequence(r, s)
    ensures multiset(r) <= multiset(s)
    decreases |s|
  {
    if r != [] {
      assert s == [s[0]] + s[1..];
      if r[0] == s[0] && Subsequence(r[1..], s[1..]) {
        SubsequenceMultiset(r[1..], s[1..]);
        assert r == [r[0]] + r[1..];
      } else {
        SubsequenceMultiset(r, s[1..]);
      }
    }
  }

  /**
   * `s.filter(keep)`: the kept records, in their original order, each as
   * often as in `s`.
   */
  function Filter<T>(s: seq<T>, keep: T -> bool): (r: seq<T>)
    ensures |r| <= |s|
    ensures forall i :: 0 <= i < |r| ==> r[i] in s && keep(r[i])
    ensures forall i :: 0 <= i < |s| && keep(s[i]) ==> s[i] in r
    ensures multiset(r) <= multiset(s)
    ensures (forall i :: 0 <= i < |s| ==> keep(s[i])) ==> r == s
  {
    if s == [] then []
    else
      assert s == [s[0]] + s[1..];
      (if keep(s[0]) then [s[0]] else []) + Filter(s[1..], keep)
  }

  /** Every kept value occurs in the filter exactly as often as in `s`; every other value not at all. */
  lemma {:induction false} FilterCounts<T>(s: seq<T>, keep: T -> bool)
    ensures forall i :: 0 <= i < |s| ==>
      multiset(Filter(s, keep))[s[i]] == if keep(s[i]) then multiset(s)[s[i]] else 0
    decreases |s|
  {
    if s != [] {
      FilterCounts(s[1..], keep);
      FilterStepCounts(s, keep, Filter(s[1..], keep));
    }
  }

  /** The filter keeps the records it keeps in their order in `s`. */
  lemma {:induction false} FilterSubsequence<T>(s: seq<T>, keep: T -> bool)
    ensures Subsequence(Filter(s, keep), s)
    decreases |s|
  {
    if s != [] {
      var t := Filter(s[1..], keep);
      FilterSubsequence(s[1..], keep);
      if keep(s[0]) {
        assert Filter(s, keep) == [s[0]] + t;
        assert ([s[0]] + t)[1..] == t;
      } else {
        assert Filter(s, keep) == t;
      }
    }
  }

  /** One step of `FilterCounts`: the head is counted if kept, the tail as before. */
  lemma FilterStepCounts<T>(s: seq<T>, keep: T -> bool, t: seq<T>)
    requires s != [] && multiset(t) <= multiset(s[1..])
    requires forall i :: 0 <= i < |s[1..]| ==> multiset(t)[s[1..][i]] == if keep(s[1..][i]) then multiset(s[1..])[s[1..][i]] else 0
    ensures var r := if keep(s[0]) then [s[0]] + t else t;
            forall i :: 0 <= i < |s| ==> multiset(r)[s[i]] == if keep(s[i]) then multiset(s)[s[i]] else 0
  {
    var r := if keep(s[0]) then [s[0]] + t else t;
    assert s == [s[0]] + s[1..];
    forall i | 0 <= i < |s| ensures multiset(r)[s[i]] == if keep(s[i]) then multiset(s)[s[i]] else 0 {
      var x := s[i];
      if x !in s[1..] {
        assert multiset(t)[x] == 0;
      } else {
        var j :| 0 <= j < |s[1..]| && s[1..][j] == x;
      }
    }
  }

  /** Filtering one record keeps it or drops it; with `FilterAppend` this fixes `Filter` on every list. */
  lemma FilterSingleton<T>(x: T, keep: T -> bool)
    ensures Filter([x], keep) == if keep(x) then [x] else []
  {
    assert [x][1..] == [];
  }

  /** `Filter` one step at a time: the head is kept or dropped, then the rest is filtered. */
  lemma FilterCons<T>(x: T, s: seq<T>, keep: T -> bool)
    ensures Filter([x] + s, keep) == if keep(x) then [x] + Filter(s, keep) else Filter(s, keep)
  {
    assert ([x] + s)[1..] == s;
  }

  /**
   * The order and the counts determine the filter: a subsequence of `s`
   * that holds every kept value as often as `s` does, and nothing else, is
   * `Filter(s, keep)`.
   */
  lemma {:induction false} FilterUnique<T>(s: seq<T>, keep: T -> bool, r: seq<T>)
    requires Subsequence(r, s)
    requires forall x :: multiset(r)[x] == if keep(x) then multiset(s)[x] else 0
    ensures r == Filter(s, keep)
  {
    if s == [] {
      assert r == [];
    } else {
      var a, t := s[0], s[1..];
      assert s == [a] + t;
      if r != [] && r[0] == a && Subsequence(r[1..], t) && (keep(a) || !Subsequence(r, t)) {
        assert r == [a] + r[1..];
        assert multiset(r)[a] >= 1;
        if !keep(a) {
          assert false;
        }
        FilterUnique(t, keep, r[1..]);
      } else {
        assert Subsequence(r, t);
        SubsequenceMultiset(r, t);
        assert multiset(s)[a] == multiset(t)[a] + 1;
        assert multiset(r)[a] <= multiset(t)[a];
        if keep(a) {
          assert false;
        }
        FilterUnique(t, keep, r);
      }
    }
  }

  /** A record is kept by exactly one of a predicate and its negation. */
  lemma {:induction false} FilterComplement<T>(s: seq<T>, p: T -> bool, q: T -> bool)
    requires forall x :: q(x) == !p(x)
    ensures |Filter(s, p)| + |Filter(s, q)| == |s|
  {
    if s != [] { FilterComplement(s[1..], p, q); }
  }

  lemma {:induction false} FilterAppend<T>(a: seq<T>, b: seq<T>, p: T -> bool)
    ensures Filter(a + b, p) == Filter(a, p) + Filter(b, p)
  {
    if a == [] {
      assert a + b == b;
    } else {
      assert (a + b)[0] == a[0];
      assert (a + b)[1..] == a[1..] + b;
      FilterAppend(a[1..], b, p);
    }
  }

  /** `s.filter(p).length` */
  function Count<T>(s: seq<T>, p: T -> bool): (n: nat)
    ensures n == |Filter(s, p)|
    ensures n <= |s|
  {
    if s == [] then 0 else (if p(s[0]) then 1 else 0) + Count(s[1..], p)
  }

  // ---------------------------------------------------------------------
  // Sort
  // ---------------------------------------------------------------------

  predicate SortedBy<T>(s: seq<T>, key: T -> int) {
    forall i, j :: 0 <= i < j < |s| ==> key(s[i]) <= key(s[j])
  }

  /** Puts `x` before the first element whose key is not smaller than its own. */
  function Insert<T>(x: T, s: seq<T>, key: T -> int): (r: seq<T>)
    ensures |r| == |s| + 1
    ensures multiset(r) == multiset(s) + multiset{x}
  {
    if s == [] || key(x) <= key(s[0]) then [x] + s
    else
      assert s == [s[0]] + s[1..];
      [s[0]] + Insert(x, s[1..], key)
  }

  lemma {:induction false} InsertSorted<T>(x: T, s: seq<T>, key: T -> int)
    requires SortedBy(s, key)
    ensures SortedBy(Insert(x, s, key), key)
  {
    if s != [] && key(x) > key(s[0]) {
      var t := Insert(x, s[1..], key);
      InsertSorted(x, s[1..], key);
      forall k | 0 <= k < |t| ensures key(s[0]) <= key(t[k]) {
        assert t[k] in multiset(t);
        if t[k] != x {
          assert t[k] in multiset(s[1..]);
          var j :| 0 <= j < |s[1..]| && s[1..][j] == t[k];
          assert s[j + 1] == t[k];
        }
      }
    }
  }

  /**
   * `s.sort((a, b) => key(a) - key(b))`: an insertion sort that keeps
   * records with equal keys in their original order, as the stable sort of
   * ECMAScript does.
   */
  function SortByKey<T>(s: seq<T>, key: T -> int): (r: seq<T>)
    ensures |r| == |s|
    ensures multiset(r) == multiset(s)
    ensures SortedBy(r, key)
  {
    if s == [] then []
    else
      var t := SortByKey(s[1..], key);
      SortStep(s, t, key);
      Insert(s[0], t, key)
  }

  /** Inserting the head into the sorted tail sorts the whole list. */
  lemma SortStep<T>(s: seq<T>, t: seq<T>, key: T -> int)
    requires s != [] && multiset(t) == multiset(s[1..]) && SortedBy(t, key)
    ensures multiset(Insert(s[0], t, key)) == multiset(s) && SortedBy(Insert(s[0], t, key), key)
  {
    InsertSorted(s[0], t, key);
    assert s == [s[0]] + s[1..];
  }

  /** Sorting a list that is already in order changes nothing. */
  lemma {:induction false} SortSortedIdentity<T>(s: seq<T>, key: T -> int)
    requires SortedBy(s, key)
    ensures SortByKey(s, key) == s
  {
    if s != [] {
      SortSortedIdentity(s[1..], key);
      assert s == [s[0]] + s[1..];
      assert s[1..] == [] || key(s[0]) <= key(s[1..][0]);
    }
  }

  /** A comparator that always answers 0 leaves the list as it was. */
  lemma ConstantKeyIdentity<T>(s: seq<T>, key: T -> int)
    requires forall x :: key(x) == 0
    ensures SortByKey(s, key) == s
  {
    SortSortedIdentity(s, key);
  }

  /** Keeps the records whose key is `k`. */
  function KeyIs<T>(key: T -> int, k: int): T -> bool {
    (x: T) => key(x) == k
  }

  /**
   * Inserting `x` passes over smaller keys only, so among the records of
   * one key it lands in front.
   */
  lemma {:induction false} InsertKeyIs<T>(x: T, s: seq<T>, key: T -> int, k: int)
    ensures Filter(Insert(x, s, key), KeyIs(key, k)) == (if key(x) == k then [x] else []) + Filter(s, KeyIs(key, k))
  {
    var keep := KeyIs(key, k);
    var front: seq<T> := if key(x) == k then [x] else [];
    if s == [] || key(x) <= key(s[0]) {
      FilterCons(x, s, keep);
    } else {
      var a, rest := s[0], s[1..];
      assert s == [a] + rest;
      calc {
        Filter(Insert(x, s, key), keep);
        Filter([a] + Insert(x, rest, key), keep);
      == { FilterAppend([a], Insert(x, rest, key), keep); }
        Filter([a], keep) + Filter(Insert(x, rest, key), keep);
      == { InsertKeyIs(x, rest, key, k); }
        Filter([a], keep) + (front + Filter(rest, keep));
      == { FilterSingleton(a, keep); assert key(a) < key(x); SwapEmpty(Filter([a], keep), front, Filter(rest, keep)); }
        front + (Filter([a], keep) + Filter(rest, keep));
      == { FilterAppend([a], rest, keep); }
        front + Filter(s, keep);
      }
    }
  }

  /** Two lists of which one is empty can change places. */
  lemma SwapEmpty<T>(p: seq<T>, q: seq<T>, z: seq<T>)
    requires p == [] || q == []
    ensures p + (q + z) == q + (p + z)
  {
    if p == [] {
      assert p + (q + z) == q + z;
    } else {
      assert q + (p + z) == p + z;
    }
  }

  /**
   * The sort is stable: records with equal keys come out in the order they
   * went in.
   */
  lemma {:induction false} SortStable<T>(s: seq<T>, key: T -> int, k: int)
    ensures Filter(SortByKey(s, key), KeyIs(key, k)) == Filter(s, KeyIs(key, k))
  {
    if s != [] {
      SortStable(s[1..], key, k);
      InsertKeyIs(s[0], SortByKey(s[1..], key), key, k);
    }
  }

  /** The position of the first record `keep` accepts, or `|s|` when there is none. */
  function FirstIndex<T>(s: seq<T>, keep: T -> bool): (j: nat)
    ensures j <= |s|
    ensures j < |s| ==> keep(s[j])
    ensures forall i :: 0 <= i < j ==> !keep(s[i])
  {
    if s == [] then 0
    else if keep(s[0]) then 0
    else
      var j := FirstIndex(s[1..], keep);
      assert forall i :: 0 < i < |s| ==> s[i] == s[1..][i - 1];
      1 + j
  }

  /** The first record the filter keeps is the first record of `s` that `keep` accepts. */
  lemma {:induction false} FilterFirst<T>(s: seq<T>, keep: T -> bool)
    requires Filter(s, keep) != []
    ensures FirstIndex(s, keep) < |s| && s[FirstIndex(s, keep)] == Filter(s, keep)[0]
  {
    if !keep(s[0]) {
      FilterFirst(s[1..], keep);
      assert s[FirstIndex(s, keep)] == s[1..][FirstIndex(s[1..], keep)];
    }
  }

  /**
   * `{ 'High': 1, 'Medium': 2, 'Low': 3 }[p]`, the priority order of the
   * maintenance and notice lists; another priority reads as 0 here (NaN in
   * the source).
   */
  function PriorityRank(p: string): int {
    if p == "High" then 1 else if p == "Medium" then 2 else if p == "Low" then 3 else 0
  }

  predicate StrSorted(s: seq<string>) {
    forall i, j :: 0 <= i < j < |s| ==> StrLessEq(s[i], s[j])
  }

  function InsertStr(x: string, s: seq<string>): (r: seq<string>)
    ensures |r| == |s| + 1
    ensures multiset(r) == multiset(s) + multiset{x}
  {
    if s == [] || StrLessEq(x, s[0]) then [x] + s
    else
      assert s == [s[0]] + s[1..];
      [s[0]] + InsertStr(x, s[1..])
  }

  lemma {:induction false} InsertStrSorted(x: string, s: seq<string>)
    requires StrSorted(s)
    ensures StrSorted(InsertStr(x, s))
  {
    if s == [] {
    } else if StrLessEq(x, s[0]) {
      var r := [x] + s;
      forall i, j | 0 <= i < j < |r| ensures StrLessEq(r[i], r[j]) {
        assert r[j] == s[j - 1];
        if i > 0 {
          assert r[i] == s[i - 1];
        } else if j > 1 && x != s[0] && s[0] != s[j - 1] {
          StrLessTrans(x, s[0], s[j - 1]);
        }
      }
    } else {
      var t := InsertStr(x, s[1..]);
      InsertStrSorted(x, s[1..]);
      StrLessTotal(x, s[0]);
      forall k | 0 <= k < |t| ensures StrLessEq(s[0], t[k]) {
        assert t[k] in multiset(t);
        if t[k] != x {
          assert t[k] in multiset(s[1..]);
          var j :| 0 <= j < |s[1..]| && s[1..][j] == t[k];
          assert s[j + 1] == t[k];
        }
      }
      var r := [s[0]] + t;
      assert InsertStr(x, s) == r;
      forall i, j | 0 <= i < j < |r| ensures StrLessEq(r[i], r[j]) {
        assert r[j] == t[j - 1];
        if i > 0 { assert r[i] == t[i - 1]; }
      }
    }
  }

  /** `keys.sort()`: the same strings in ascending code-point order. */
  function SortStrings(s: seq<string>): (r: seq<string>)
    ensures |r| == |s|
    ensures multiset(r) == multiset(s)
    ensures StrSorted(r)
  {
    if s == [] then []
    else
      var t := SortStrings(s[1..]);
      InsertStrSorted(s[0], t);
      assert s == [s[0]] + s[1..];
      InsertStr(s[0], t)
  }

  // ---------------------------------------------------------------------
  // Counting per key and distinct values
  // ---------------------------------------------------------------------

  /**
   * A JavaScript object used as a counter: keys with their counts, in the
   * order the keys were first seen.
   */
  type Counts = seq<(string, nat)>

  function Keys(h: Counts): (ks: seq<string>)
    ensures |ks| == |h| && forall i :: 0 <= i < |h| ==> ks[i] == h[i].0
  {
    if h == [] then [] else [h[0].0] + Keys(h[1..])
  }

  /** `acc[k] || 0` */
  function Lookup(h: Counts, k: string): nat {
    if h == [] then 0 else if h[0].0 == k then h[0].1 else Lookup(h[1..], k)
  }

  function Total(h: Counts): nat {
    if h == [] then 0 else h[0].1 + Total(h[1..])
  }

  /** `acc[k] = (acc[k] || 0) + 1` */
  function Bump(h: Counts, k: string): (r: Counts)
    ensures Total(r) == Total(h) + 1
    ensures Keys(r) == if k in Keys(h) then Keys(h) else Keys(h) + [k]
    ensures forall k' :: Lookup(r, k') == Lookup(h, k') + (if k' == k then 1 else 0)
  {
    if h == [] then [(k, 1)]
    else if h[0].0 == k then [(k, h[0].1 + 1)] + h[1..]
    else
      var t := Bump(h[1..], k);
      assert Keys(h) == [h[0].0] + Keys(h[1..]);
      [h[0]] + t
  }

  /** `keys.reduce((acc, k) => { acc[k] = (acc[k] || 0) + 1; return acc; }, {})` */
  function Tally(keys: seq<string>): Counts
  {
    if keys == [] then [] else Bump(Tally(keys[..|keys| - 1]), keys[|keys| - 1])
  }

  /** The values of `keys` without repeats, in order of first appearance: `[...new Set(keys)]`. */
  function Distinct(keys: seq<string>): (d: seq<string>)
    ensures forall x :: x in d <==> x in keys
    ensures forall i, j :: 0 <= i < j < |d| ==> d[i] != d[j]
  {
    if keys == [] then []
    else
      var init := keys[..|keys| - 1];
      var d := Distinct(init);
      assert keys == init + [keys[|keys| - 1]];
      if keys[|keys| - 1] in d then d else d + [keys[|keys| - 1]]
  }

  /**
   * Values come out in order of first appearance: before any occurrence of a
   * later value, every earlier value has occurred.
   */
  lemma {:induction false} DistinctFirstSeen(keys: seq<string>, i: nat, j: nat, p: nat)
    requires i < j < |Distinct(keys)| && p < |keys| && keys[p] == Distinct(keys)[j]
    ensures Distinct(keys)[i] in keys[..p]
  {
    var init, last := keys[..|keys| - 1], keys[|keys| - 1];
    var d0, d := Distinct(init), Distinct(keys);
    assert keys == init + [last];
    if j < |d0| {
      assert d[i] == d0[i] && d[j] == d0[j];
      var p' := p;
      if p == |keys| - 1 {
        assert d0[j] in init;
        p' :| 0 <= p' < |init| && init[p'] == d0[j];
      }
      assert init[p'] == keys[p'];
      DistinctFirstSeen(init, i, j, p');
      var q :| 0 <= q < p' && init[..p'][q] == d0[i];
      assert keys[..p][q] == d[i];
    } else {
      assert last !in d0 && d == d0 + [last];
      assert forall q :: 0 <= q < |init| ==> init[q] == keys[q] && init[q] != last;
      assert p == |keys| - 1;
      assert d[i] == d0[i] && d0[i] in init;
      assert keys[..p] == init;
    }
  }

  /** In a list without repeats every value occurs once or not at all. */
  lemma {:induction false} DistinctOnce(d: seq<string>, x: string)
    requires forall i, j :: 0 <= i < j < |d| ==> d[i] != d[j]
    ensures multiset(d)[x] == if x in d then 1 else 0
  {
    if d != [] {
      var init := d[..|d| - 1];
      DistinctOnce(init, x);
      assert d == init + [d[|d| - 1]];
      assert d[|d| - 1] !in init by {
        forall i | 0 <= i < |init| ensures init[i] != d[|d| - 1] { assert init[i] == d[i]; }
      }
    }
  }

  /** The counts add up to the number of records counted. */
  lemma {:induction false} TallyTotal(keys: seq<string>)
    ensures Total(Tally(keys)) == |keys|
  {
    if keys != [] { TallyTotal(keys[..|keys| - 1]); }
  }

  /** The count under each key is the number of times the key occurs. */
  lemma {:induction false} TallyCount(keys: seq<string>, k: string)
    ensures Lookup(Tally(keys), k) == multiset(keys)[k]
  {
    if keys != [] {
      var init := keys[..|keys| - 1];
      TallyCount(init, k);
      TallyCountStep(keys, k);
    }
  }

  /** Counting one more key adds one under that key and nothing under any other. */
  lemma TallyCountStep(keys: seq<string>, k: string)
    requires keys != []
    ensures var init, last := keys[..|keys| - 1], keys[|keys| - 1];
            Lookup(Tally(keys), k) == Lookup(Tally(init), k) + (if k == last then 1 else 0)
            && multiset(keys)[k] == multiset(init)[k] + (if k == last then 1 else 0)
  {
    var init, last := keys[..|keys| - 1], keys[|keys| - 1];
    assert Tally(keys) == Bump(Tally(init), last);
    assert keys == init + [last];
  }

  /** The counter's keys are the distinct values, in order of first appearance. */
  lemma {:induction false} TallyKeys(keys: seq<string>)
    ensures Keys(Tally(keys)) == Distinct(keys)
  {
    if keys != [] { TallyKeys(keys[..|keys| - 1]); }
  }

  /** The comparator `(a, b) => b[1] - a[1]` as a key: larger counts first. */
  function CountDesc(p: (string, nat)): int {
    -(p.1 as int)
  }

  /**
   * `Object.entries(h).sort((a, b) => b[1] - a[1])[0]`: the first entry of
   * the counter whose count no other entry exceeds (the sort is stable, so
   * ties go to the entry listed first).
   */
  function MostCommon(h: Counts): (e: (string, nat))
    requires h != []
    ensures forall i :: 0 <= i < |h| ==> h[i].1 <= e.1
    ensures exists j :: 0 <= j < |h| && h[j] == e && forall i :: 0 <= i < j ==> h[i].1 < e.1
  {
    var sorted := SortByKey(h, CountDesc);
    FirstOfSorted(h);
    sorted[0]
  }

  /** The head of the counter sorted by `CountDesc` is its first entry with the highest count. */
  lemma FirstOfSorted(h: Counts)
    requires h != []
    ensures var e := SortByKey(h, CountDesc)[0];
            (forall i :: 0 <= i < |h| ==> h[i].1 <= e.1)
            && exists j :: 0 <= j < |h| && h[j] == e && forall i :: 0 <= i < j ==> h[i].1 < e.1
  {
    var e := SortByKey(h, CountDesc)[0];
    var keep := KeyIs(CountDesc, CountDesc(e));
    SortedHeadMax(h);
    SortedHeadFirst(h);
    var j := FirstIndex(h, keep);
    forall i | 0 <= i < j ensures h[i].1 < e.1 {
      assert !keep(h[i]) && h[i].1 <= e.1;
    }
    assert h[j] == e;
  }

  /** No entry counts more than the head of the counter sorted by `CountDesc`. */
  lemma SortedHeadMax(h: Counts)
    requires h != []
    ensures forall i :: 0 <= i < |h| ==> h[i].1 <= SortByKey(h, CountDesc)[0].1
  {
    var sorted := SortByKey(h, CountDesc);
    forall i | 0 <= i < |h| ensures h[i].1 <= sorted[0].1 {
      assert h[i] in multiset(sorted);
    }
  }

  /** The stable sort's head is the counter's first entry with the head's count. */
  lemma SortedHeadFirst(h: Counts)
    requires h != []
    ensures var e := SortByKey(h, CountDesc)[0];
            var j := FirstIndex(h, KeyIs(CountDesc, CountDesc(e)));
            j < |h| && h[j] == e
  {
    var sorted := SortByKey(h, CountDesc);
    var keep := KeyIs(CountDesc, CountDesc(sorted[0]));
    assert Filter(sorted, keep)[0] == sorted[0];
    SortStable(h, CountDesc, CountDesc(sorted[0]));
    FilterFirst(h, keep);
  }

  /**
   * The most frequent value of `keys`: the key of the first entry of the
   * counter sorted by count, highest first. Of several values with the
   * highest count it is the one that occurs first.
   */
  function Mode(keys: seq<string>): (k: string)
    requires keys != []
    ensures k in keys
    ensures forall x :: x in keys ==> multiset(keys)[x] <= multiset(keys)[k]
    ensures forall p :: 0 <= p < |keys| && keys[p] != k && multiset(keys)[keys[p]] == multiset(keys)[k] ==> k in keys[..p]
  {
    var e := MostCommon(Tally(keys));
    forall x | x in keys ensures multiset(keys)[x] <= multiset(keys)[e.0] {
      ModeBeats(keys, x);
    }
    ModeIsKey(keys);
    ModeFirst(keys);
    e.0
  }

  /** A value tied with the most common one occurs only after it has occurred. */
  lemma ModeFirst(keys: seq<string>)
    requires keys != []
    ensures var k := MostCommon(Tally(keys)).0;
            forall p :: 0 <= p < |keys| && keys[p] != k && multiset(keys)[keys[p]] == multiset(keys)[k] ==> k in keys[..p]
  {
    var h := Tally(keys);
    var e := MostCommon(h);
    var j :| 0 <= j < |h| && h[j] == e && forall i :: 0 <= i < j ==> h[i].1 < e.1;
    forall p | 0 <= p < |keys| && keys[p] != e.0 && multiset(keys)[keys[p]] == multiset(keys)[e.0]
      ensures e.0 in keys[..p]
    {
      TiedComesLater(keys, j, p);
    }
  }

  /**
   * If no entry before entry `j` of the counter reaches its count, a value
   * with the same count occurs only after entry `j`'s key has occurred.
   */
  lemma TiedComesLater(keys: seq<string>, j: nat, p: nat)
    requires j < |Tally(keys)| && forall i :: 0 <= i < j ==> Tally(keys)[i].1 < Tally(keys)[j].1
    requires p < |keys| && keys[p] != Tally(keys)[j].0
    requires multiset(keys)[keys[p]] == multiset(keys)[Tally(keys)[j].0]
    ensures Tally(keys)[j].0 in keys[..p]
  {
    var h, d := Tally(keys), Distinct(keys);
    TallyEntries(keys);
    assert keys[p] in d;
    var jx :| 0 <= jx < |d| && d[jx] == keys[p];
    assert h[jx].1 == h[j].1 && d[jx] != d[j];
    assert !(jx < j);
    DistinctFirstSeen(keys, j, jx, p);
  }

  /** The counter's entries are the distinct values, in order, each with its number of occurrences. */
  lemma TallyEntries(keys: seq<string>)
    ensures |Tally(keys)| == |Distinct(keys)|
    ensures forall i :: 0 <= i < |Tally(keys)| ==>
              Tally(keys)[i].0 == Distinct(keys)[i] && Tally(keys)[i].1 == multiset(keys)[Distinct(keys)[i]]
  {
    var h := Tally(keys);
    TallyKeys(keys);
    TallyDistinctKeys(keys);
    forall i | 0 <= i < |h| ensures h[i].0 == Distinct(keys)[i] && h[i].1 == multiset(keys)[Distinct(keys)[i]] {
      assert Keys(h)[i] == h[i].0;
      LookupEntry(h, i);
      TallyCount(keys, h[i].0);
    }
  }

  lemma ModeIsKey(keys: seq<string>)
    requires keys != []
    ensures MostCommon(Tally(keys)).0 in keys
  {
    var h := Tally(keys);
    TallyKeys(keys);
    assert keys[0] in Keys(h);
    var e := MostCommon(h);
    var i0 :| 0 <= i0 < |h| && h[i0] == e;
    assert Keys(h)[i0] == e.0;
  }

  lemma ModeBeats(keys: seq<string>, x: string)
    requires x in keys
    ensures multiset(keys)[x] <= multiset(keys)[MostCommon(Tally(keys)).0]
  {
    var h := Tally(keys);
    TallyKeys(keys);
    TallyDistinctKeys(keys);
    MostCommonBeats(h, x);
    TallyCount(keys, MostCommon(h).0);
    TallyCount(keys, x);
  }

  /** In a counter with distinct keys, no key counts more than the most common one. */
  lemma MostCommonBeats(h: Counts, x: string)
    requires x in Keys(h)
    requires forall a, b :: 0 <= a < b < |h| ==> h[a].0 != h[b].0
    ensures Lookup(h, x) <= Lookup(h, MostCommon(h).0)
  {
    var e := MostCommon(h);
    var i0 :| 0 <= i0 < |h| && h[i0] == e;
    LookupEntry(h, i0);
    var i :| 0 <= i < |h| && Keys(h)[i] == x;
    LookupEntry(h, i);
  }

  /** In a counter with distinct keys, looking up an entry's key gives the entry's count. */
  lemma {:induction false} LookupEntry(h: Counts, i: nat)
    requires i < |h|
    requires forall a, b :: 0 <= a < b < |h| ==> h[a].0 != h[b].0
    ensures Lookup(h, h[i].0) == h[i].1
  {
    if i > 0 {
      assert h[0].0 != h[i].0;
      LookupEntry(h[1..], i - 1);
    }
  }

  /** A counter built by `Tally` names every key once. */
  lemma TallyDistinctKeys(keys: seq<string>)
    ensures forall i, j :: 0 <= i < j < |Tally(keys)| ==> Tally(keys)[i].0 != Tally(keys)[j].0
  {
    TallyKeys(keys);
    var h := Tally(keys);
    forall i, j | 0 <= i < j < |h| ensures h[i].0 != h[j].0 {
      assert Keys(h)[i] == h[i].0 && Keys(h)[j] == h[j].0;
    }
  }
}
