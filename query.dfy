/** The collection operations the handlers delegate to the document store and
    to JavaScript's array methods: `filter`, `sort({createdAt: -1})`,
    `skip`/`limit`, grouping by a key, `Math.ceil` of a quotient and
    `Array.prototype.join`. */
module Query {

  predicate Distinct<T(==)>(s: seq<T>) {
    forall i, j :: 0 <= i < j < |s| ==> s[i] != s[j]
  }

  function Min(a: int, b: int): int {
    if a <= b then a else b
  }

  // ---------------------------------------------------------------- filter

  /** `s.filter(p)`: the elements satisfying `p`, in their original order. */
  function Filter<T(!new)>(s: seq<T>, p: T -> bool): (r: seq<T>)
    ensures |r| <= |s|
    ensures forall x :: x in r <==> x in s && p(x)
    ensures forall i :: 0 <= i < |r| ==> p(r[i])
  {
    if s == [] then []
    else if p(s[0]) then [s[0]] + Filter(s[1..], p)
    else Filter(s[1..], p)
  }

  lemma {:induction false} FilterAll<T(!new)>(s: seq<T>, p: T -> bool)
    requires forall i :: 0 <= i < |s| ==> p(s[i])
    ensures Filter(s, p) == s
  {
    if s != [] {
      FilterAll(s[1..], p);
    }
  }

  lemma {:induction false} FilterAppend<T(!new)>(s: seq<T>, t: seq<T>, p: T -> bool)
    ensures Filter(s + t, p) == Filter(s, p) + Filter(t, p)
  {
    if s == [] {
      assert s + t == t;
    } else {
      assert (s + t)[1..] == s[1..] + t;
      FilterAppend(s[1..], t, p);
    }
  }

  /** Filtering a list without repetitions drops exactly the rejected elements. */
  lemma {:induction false} FilterDistinct<T(!new)>(s: seq<T>, p: T -> bool)
    requires Distinct(s)
    ensures Distinct(Filter(s, p))
  {
    if s != [] {
      FilterDistinct(s[1..], p);
      if p(s[0]) {
        var r := Filter(s, p);
        assert s[0] !in s[1..];
        assert r == [s[0]] + Filter(s[1..], p);
        forall i, j | 0 <= i < j < |r| ensures r[i] != r[j] {
          if i == 0 {
            assert r[j] in Filter(s[1..], p);
          }
        }
      }
    }
  }

  /** In a list without repetitions, removing every occurrence of one element
      that is present at index `i` is the same as cutting index `i` out. */
  lemma {:induction false} FilterOutOne<T(!new)>(s: seq<T>, p: T -> bool, i: nat)
    requires Distinct(s) && i < |s|
    requires forall y :: p(y) <==> y != s[i]
    ensures Filter(s, p) == s[..i] + s[i + 1..]
  {
    if i == 0 {
      assert forall k :: 0 <= k < |s[1..]| ==> p(s[1..][k]) by {
        forall k | 0 <= k < |s[1..]| ensures p(s[1..][k]) {
          assert s[1..][k] == s[k + 1];
        }
      }
      FilterAll(s[1..], p);
      assert s[..0] + s[1..] == s[1..];
    } else {
      var t := s[1..];
      assert Distinct(t) by {
        forall a, b | 0 <= a < b < |t| ensures t[a] != t[b] {
          assert t[a] == s[a + 1] && t[b] == s[b + 1];
        }
      }
      assert t[i - 1] == s[i];
      FilterOutOne(t, p, i - 1);
      assert p(s[0]);
      assert s[..i] + s[i + 1..] == [s[0]] + (t[..i - 1] + t[i..]);
    }
  }

  // ---------------------------------------------------------------- sort

  predicate SortedDesc<T>(s: seq<T>, key: T -> int) {
    forall i, j :: 0 <= i < j < |s| ==> key(s[i]) >= key(s[j])
  }

  /** Inserts `x` into a list, after the leading elements whose key is at least
      as large. */
  function InsertDesc<T(!new)>(x: T, s: seq<T>, key: T -> int): (r: seq<T>)
    ensures |r| == |s| + 1
    ensures multiset(r) == multiset(s) + multiset{x}
  {
    if s == [] || key(x) > key(s[0]) then [x] + s
    else
      assert s == [s[0]] + s[1..];
      [s[0]] + InsertDesc(x, s[1..], key)
  }

  /** Inserting into a list sorted by descending key keeps it sorted. */
  lemma {:induction false} InsertDescSorted<T(!new)>(x: T, s: seq<T>, key: T -> int)
    requires SortedDesc(s, key)
    ensures SortedDesc(InsertDesc(x, s, key), key)
  {
    if s != [] && key(x) <= key(s[0]) {
      var t := s[1..];
      assert SortedDesc(t, key) by {
        forall i, j | 0 <= i < j < |t| ensures key(t[i]) >= key(t[j]) {
          assert t[i] == s[i + 1] && t[j] == s[j + 1];
        }
      }
      InsertDescSorted(x, t, key);
      var rest := InsertDesc(x, t, key);
      forall k | 0 <= k < |rest| ensures key(s[0]) >= key(rest[k]) {
        assert rest[k] in multiset(t) + multiset{x};
        if rest[k] != x {
          assert rest[k] in t;
          var m :| 0 <= m < |t| && t[m] == rest[k];
          assert s[m + 1] == rest[k];
        }
      }
      var r := [s[0]] + rest;
      forall i, j | 0 <= i < j < |r| ensures key(r[i]) >= key(r[j]) {
        assert r[j] == rest[j - 1];
        if i > 0 {
          assert r[i] == rest[i - 1];
        }
      }
      assert r == InsertDesc(x, s, key);
    }
  }

  /** The store's `sort({field: -1})`: a permutation ordered by descending key. */
  function SortDesc<T(!new)>(s: seq<T>, key: T -> int): (r: seq<T>)
    ensures |r| == |s|
    ensures SortedDesc(r, key)
    ensures multiset(r) == multiset(s)
    ensures forall y :: y in r <==> y in s
  {
    if s == [] then []
    else
      var init, last := s[..|s| - 1], s[|s| - 1];
      assert s == init + [last];
      var sorted := SortDesc(init, key);
      InsertDescSorted(last, sorted, key);
      var r := InsertDesc(last, sorted, key);
      assert multiset(r) == multiset(s);
      SameMembers(r, s);
      r
  }

  /** Two lists with the same multiset have the same members. */
  lemma {:induction false} SameMembers<T>(a: seq<T>, b: seq<T>)
    requires multiset(a) == multiset(b)
    ensures forall y :: y in a <==> y in b
  {
    forall y ensures y in a <==> y in b {
      assert y in a <==> y in multiset(a);
      assert y in b <==> y in multiset(b);
    }
  }

  // ---------------------------------------------------------------- skip / limit

  /** The store's `.skip(skip).limit(size)` over an already ordered list. */
  function Page<T>(s: seq<T>, skip: nat, size: nat): (r: seq<T>)
    ensures |r| == if skip >= |s| then 0 else Min(size, |s| - skip)
    ensures forall i :: 0 <= i < |r| ==> r[i] == s[skip + i]
  {
    if skip >= |s| then [] else s[skip..skip + Min(size, |s| - skip)]
  }

  /** JavaScript's `Math.ceil(total / limit)` for a non-zero integer `limit`. */
  function CeilDiv(total: nat, limit: int): (r: int)
    requires limit != 0
    ensures limit > 0 ==> (r - 1) * limit < total <= r * limit
    ensures limit < 0 ==> r * limit <= total < (r - 1) * limit
  {
    if limit > 0 then
      var q := (total + limit - 1) / limit;
      assert total + limit - 1 == q * limit + (total + limit - 1) % limit;
      assert (q - 1) * limit == q * limit - limit;
      q
    else
      var q := total / -limit;
      assert total == q * -limit + total % -limit;
      assert (-q - 1) * limit == q * -limit + -limit;
      -q
  }

  /** The test `y => y !== x`. */
  function NotEqual<T(==)>(x: T): T -> bool {
    (y: T) => y != x
  }

  /** `s.filter(y => y !== x)` */
  function Except<T(==,!new)>(s: seq<T>, x: T): (r: seq<T>)
    ensures x !in r
    ensures forall y :: y != x ==> (y in r <==> y in s)
    ensures Distinct(s) ==> Distinct(r)
  {
    if Distinct(s) then FilterDistinct(s, NotEqual(x)); Filter(s, NotEqual(x)) else Filter(s, NotEqual(x))
  }

  /** Filtering a list sorted by descending key keeps it sorted. */
  lemma {:induction false} FilterSorted<T(!new)>(s: seq<T>, p: T -> bool, key: T -> int)
    requires SortedDesc(s, key)
    ensures SortedDesc(Filter(s, p), key)
  {
    if s != [] {
      assert SortedDesc(s[1..], key) by {
        forall i, j | 0 <= i < j < |s[1..]| ensures key(s[1..][i]) >= key(s[1..][j]) {
          assert s[1..][i] == s[i + 1] && s[1..][j] == s[j + 1];
        }
      }
      FilterSorted(s[1..], p, key);
      var rest := Filter(s[1..], p);
      forall y | y in rest ensures key(s[0]) >= key(y) {
        var k :| 0 <= k < |s[1..]| && s[1..][k] == y;
        assert s[k + 1] == y;
      }
      if p(s[0]) {
        var r := [s[0]] + rest;
        forall i, j | 0 <= i < j < |r| ensures key(r[i]) >= key(r[j]) {
          assert r[j] == rest[j - 1] && rest[j - 1] in rest;
          if i > 0 {
            assert r[i] == rest[i - 1];
          }
        }
      }
    }
  }

  /** In a list without repetitions every value occurs at most once. */
  lemma {:induction false} DistinctAtMostOnce<T>(s: seq<T>, x: T)
    requires Distinct(s)
    ensures multiset(s)[x] <= 1
  {
    if s != [] {
      var init := s[..|s| - 1];
      assert s == init + [s[|s| - 1]];
      assert Distinct(init) by {
        forall i, j | 0 <= i < j < |init| ensures init[i] != init[j] {
          assert init[i] == s[i] && init[j] == s[j];
        }
      }
      DistinctAtMostOnce(init, x);
      if s[|s| - 1] == x {
        forall k | 0 <= k < |init| ensures init[k] != x {
          assert init[k] == s[k];
        }
        assert x !in init;
      }
    }
  }

  /** A value at two positions occurs at least twice. */
  lemma {:induction false} TwiceCounted<T>(t: seq<T>, i: nat, j: nat)
    requires i < j < |t| && t[i] == t[j]
    ensures multiset(t)[t[i]] >= 2
  {
    assert t == t[..j] + [t[j]] + t[j + 1..];
    assert t[..j][i] == t[i];
    assert t[i] in multiset(t[..j]);
  }

  /** A reordering of a list without repetitions has none either. */
  lemma {:induction false} DistinctMultiset<T>(s: seq<T>, t: seq<T>)
    requires Distinct(s) && multiset(s) == multiset(t)
    ensures Distinct(t)
  {
    forall i, j | 0 <= i < j < |t| ensures t[i] != t[j] {
      if t[i] == t[j] {
        TwiceCounted(t, i, j);
        DistinctAtMostOnce(s, t[i]);
      }
    }
  }

  // ---------------------------------------------------------------- group

  /** The distinct elements of `s`, in order of first occurrence. */
  function Dedup<T(==,!new)>(s: seq<T>): (r: seq<T>)
    ensures Distinct(r)
    ensures forall x :: x in r <==> x in s
    ensures |r| <= |s|
  {
    if s == [] then []
    else
      var d := Dedup(s[..|s| - 1]);
      assert s == s[..|s| - 1] + [s[|s| - 1]];
      if s[|s| - 1] in d then d else d + [s[|s| - 1]]
  }

  /** How many elements of `s` satisfy `p`. */
  function Count<T(!new)>(s: seq<T>, p: T -> bool): nat {
    |Filter(s, p)|
  }

  lemma {:induction false} CountPositive<T(!new)>(s: seq<T>, p: T -> bool)
    ensures Count(s, p) > 0 <==> exists i :: 0 <= i < |s| && p(s[i])
  {
    var r := Filter(s, p);
    if Count(s, p) > 0 {
      assert r[0] in s;
    }
    if exists i :: 0 <= i < |s| && p(s[i]) {
      var i :| 0 <= i < |s| && p(s[i]);
      assert s[i] in r;
    }
  }

  // ---------------------------------------------------------------- join

  /** `parts.join(sep)` */
  function JoinWith(parts: seq<string>, sep: string): (r: string)
    ensures parts == [] ==> r == ""
    // the first part opens the result and the last closes it
    ensures parts != [] ==> |parts[0]| <= |r| && r[..|parts[0]|] == parts[0]
    ensures parts != [] ==> |parts[|parts| - 1]| <= |r| && r[|r| - |parts[|parts| - 1]|..] == parts[|parts| - 1]
  {
    if |parts| == 0 then ""
    else if |parts| == 1 then parts[0]
    else parts[0] + sep + JoinWith(parts[1..], sep)
  }

  /** The index of the first ',' in `s`, or `|s|` when there is none. */
  function CommaIndex(s: string): (i: nat)
    ensures i <= |s|
    ensures i < |s| ==> s[i] == ','
  {
    if s == [] then 0
    else if s[0] == ',' then 0
    else 1 + CommaIndex(s[1..])
  }

  /** The inverse of joining with ", " for names that contain no comma:
      cut at each comma and drop the one character that follows it. */
  function SplitNames(s: string): seq<string>
    decreases |s|
  {
    var i := CommaIndex(s);
    if i == |s| then [s]
    else if i + 1 == |s| then [s[..i], ""]
    else [s[..i]] + SplitNames(s[i + 2..])
  }

  predicate CommaFree(parts: seq<string>) {
    forall k :: 0 <= k < |parts| ==> ',' !in parts[k]
  }

  /** Joining comma-free names with ", " loses nothing: splitting gives them back. */
  lemma {:induction false} SplitJoin(parts: seq<string>)
    requires |parts| > 0 && CommaFree(parts)
    ensures SplitNames(JoinWith(parts, ", ")) == parts
  {
    if |parts| == 1 {
      NoCommaAt(parts[0]);
      CommaIndexAbsent(parts[0]);
    } else {
      var rest := parts[1..];
      assert JoinWith(parts, ", ") == parts[0] + ", " + JoinWith(rest, ", ");
      SplitPrefix(parts[0], JoinWith(rest, ", "));
      assert CommaFree(rest) by {
        forall k | 0 <= k < |rest| ensures ',' !in rest[k] {
          assert rest[k] == parts[k + 1];
        }
      }
      SplitJoin(rest);
      assert parts == [parts[0]] + rest;
    }
  }

  lemma {:induction false} NoCommaAt(p: string)
    requires ',' !in p
    ensures forall k :: 0 <= k < |p| ==> p[k] != ','
  {
    forall k | 0 <= k < |p| ensures p[k] != ',' {
      assert p[k] in p;
    }
  }

  /** A comma-free name followed by ", " is split off as the first name. */
  lemma {:induction false} SplitPrefix(p: string, rest: string)
    requires ',' !in p
    ensures SplitNames(p + ", " + rest) == [p] + SplitNames(rest)
  {
    var s := p + ", " + rest;
    NoCommaAt(p);
    assert s[..|p|] == p && s[|p|] == ',';
    CommaIndexAfterPrefix(p, s);
    SplitNamesAt(s, |p|);
    assert s[|p| + 2..] == rest;
  }

  /** One step of the split: a name up to the first comma, and the rest after
      the separator. */
  lemma {:induction false} SplitNamesAt(s: string, i: nat)
    requires CommaIndex(s) == i && i + 1 < |s|
    ensures SplitNames(s) == [s[..i]] + SplitNames(s[i + 2..])
  {
    var j := CommaIndex(s);
    assert j != |s| && j + 1 != |s|;
  }

  /** No comma comes before the first one. */
  lemma {:induction false} CommaIndexFirst(s: string)
    ensures forall k :: 0 <= k < CommaIndex(s) ==> s[k] != ','
  {
    if s != [] && s[0] != ',' {
      CommaIndexFirst(s[1..]);
      forall k | 0 <= k < CommaIndex(s) ensures s[k] != ',' {
        if k > 0 {
          assert s[k] == s[1..][k - 1];
        }
      }
    }
  }

  lemma {:induction false} CommaIndexAbsent(s: string)
    requires forall k :: 0 <= k < |s| ==> s[k] != ','
    ensures CommaIndex(s) == |s|
  {
    if s != [] {
      assert forall k :: 0 <= k < |s[1..]| ==> s[1..][k] != ',' by {
        forall k | 0 <= k < |s[1..]| ensures s[1..][k] != ',' {
          assert s[1..][k] == s[k + 1];
        }
      }
      CommaIndexAbsent(s[1..]);
    }
  }

  lemma {:induction false} CommaIndexAfterPrefix(p: string, s: string)
    requires |p| < |s| && s[..|p|] == p && s[|p|] == ','
    requires forall k :: 0 <= k < |p| ==> p[k] != ','
    ensures CommaIndex(s) == |p|
  {
    CommaIndexFirst(s);
    assert forall k :: 0 <= k < |p| ==> s[k] != ',' by {
      forall k | 0 <= k < |p| ensures s[k] != ',' {
        assert s[k] == s[..|p|][k];
      }
    }
  }
}
