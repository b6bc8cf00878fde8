/**
 * Building blocks shared by every route handler: JavaScript truthiness of
 * strings, `String.prototype.trim` and `toLowerCase`, first-match lookup
 * (`Array.prototype.find`, Prisma `findUnique`/`findFirst`), order-preserving
 * filtering and counting (`filter(...).length`, Prisma `count`), and the
 * ordering that Prisma's `orderBy` imposes on a result list.
 */
module Common {

  datatype Option<+T> = None | Some(value: T)

  /** The response of a route handler: a JSON value with a success status, or `{ error }` with an error status. */
  datatype Reply<+T> = Ok(status: int, value: T) | Err(status: int, error: string)

  // ---------------------------------------------------------------------------
  // JavaScript truthiness

  /** A string is truthy in JavaScript exactly when it is not empty. */
  predicate Truthy(s: string) { s != "" }

  /** An optional JSON string field is truthy when it is present and not empty. */
  predicate Given(o: Option<string>) { o.Some? && o.value != "" }

  /** `x || null` on an optional string field. */
  function OrNull(o: Option<string>): Option<string> {
    if Given(o) then o else None
  }

  /** `x || fallback` on an optional string field. */
  function OrElse(o: Option<string>, fallback: string): string {
    if Given(o) then o.value else fallback
  }

  // ---------------------------------------------------------------------------
  // trim() and toLowerCase()

  /** The characters that `String.prototype.trim` removes (WhiteSpace and LineTerminator of ECMAScript). */
  predicate IsSpace(c: char) {
    c == ' ' || c == '\t' || c == '\n' || c == '\r' || c == '\U{000B}' || c == '\U{000C}'
    || c == '\U{00A0}' || c == '\U{1680}' || ('\U{2000}' <= c <= '\U{200A}')
    || c == '\U{2028}' || c == '\U{2029}' || c == '\U{202F}' || c == '\U{205F}'
    || c == '\U{3000}' || c == '\U{FEFF}'
  }

  function TrimStart(s: string): (r: string)
    ensures |r| <= |s| && r == s[|s| - |r|..]
    ensures forall i :: 0 <= i < |s| - |r| ==> IsSpace(s[i])
    ensures r == [] || !IsSpace(r[0])
  {
    if s != [] && IsSpace(s[0]) then TrimStart(s[1..]) else s
  }

  function TrimEnd(s: string): (r: string)
    ensures |r| <= |s| && r == s[..|r|]
    ensures forall i :: |r| <= i < |s| ==> IsSpace(s[i])
    ensures r == [] || !IsSpace(r[|r| - 1])
  {
    if s != [] && IsSpace(s[|s| - 1]) then TrimEnd(s[..|s| - 1]) else s
  }

  /** `s.trim()`: drops the white space at both ends. */
  function Trim(s: string): (r: string)
    ensures |r| <= |s|
    ensures r == [] || (!IsSpace(r[0]) && !IsSpace(r[|r| - 1]))
  {
    TrimEnd(TrimStart(s))
  }

  /** What `trim()` keeps is an infix of the input, and everything it drops is white space. */
  lemma {:induction false} TrimInfix(s: string)
    ensures var r, k := Trim(s), |s| - |TrimStart(s)|;
      && k + |r| <= |s| && r == s[k..k + |r|]
      && (forall i :: 0 <= i < k ==> IsSpace(s[i]))
      && (forall i :: k + |r| <= i < |s| ==> IsSpace(s[i]))
  {
    var t := TrimStart(s);
    var r := TrimEnd(t);
    var k := |s| - |t|;
    assert t == s[k..];
    assert r == t[..|r|];
    forall i | k + |r| <= i < |s| ensures IsSpace(s[i]) {
      assert s[i] == t[i - k];
    }
  }

  /** A trimmed string is empty exactly when the original holds nothing but white space. */
  lemma {:induction false} TrimBlank(s: string)
    ensures Trim(s) == "" <==> forall i :: 0 <= i < |s| ==> IsSpace(s[i])
  {
    TrimInfix(s);
    var r := Trim(s);
    var k := |s| - |TrimStart(s)|;
    if r != "" {
      assert s[k] == r[0];
    }
  }

  /** Trimming a string that already has no white space at either end changes nothing. */
  lemma {:induction false} TrimNoOp(s: string)
    requires s == [] || (!IsSpace(s[0]) && !IsSpace(s[|s| - 1]))
    ensures Trim(s) == s
  {
  }

  /** Trimming twice is trimming once. */
  lemma {:induction false} TrimIdempotent(s: string)
    ensures Trim(Trim(s)) == Trim(s)
  {
    TrimNoOp(Trim(s));
  }

  /** Lower-cases the ASCII capital letters; every other character is kept. */
  function LowerChar(c: char): (r: char)
    ensures IsSpace(r) <==> IsSpace(c)
    ensures !('A' <= r <= 'Z')
  {
    if 'A' <= c <= 'Z' then (c as int + 32) as char else c
  }

  /** `s.toLowerCase()` restricted to ASCII letters. */
  function ToLower(s: string): (r: string)
    ensures |r| == |s|
    ensures forall i :: 0 <= i < |s| ==> r[i] == LowerChar(s[i])
  {
    seq(|s|, i requires 0 <= i < |s| => LowerChar(s[i]))
  }

  /**
   * `String(email).trim().toLowerCase()`: the input from offset `k` on, less
   * the white space around it, each character lower-cased.
   */
  function NormalizeEmail(e: string): (r: string)
    ensures |r| <= |e|
    ensures r == [] || (!IsSpace(r[0]) && !IsSpace(r[|r| - 1]))
    ensures forall i :: 0 <= i < |r| ==> !('A' <= r[i] <= 'Z')
    ensures var k := |e| - |TrimStart(e)|;
      && k + |r| <= |e|
      && (forall i :: 0 <= i < k ==> IsSpace(e[i]))
      && (forall i :: k + |r| <= i < |e| ==> IsSpace(e[i]))
      && (forall i :: 0 <= i < |r| ==> r[i] == LowerChar(e[k + i]))
  {
    TrimInfix(e);
    ToLower(Trim(e))
  }

  /** Normalising an already normalised e-mail address changes nothing. */
  lemma {:induction false} NormalizeEmailIdempotent(e: string)
    ensures NormalizeEmail(NormalizeEmail(e)) == NormalizeEmail(e)
  {
    var n := NormalizeEmail(e);
    TrimNoOp(n);
    assert ToLower(n) == n;
  }

  // ---------------------------------------------------------------------------
  // Lookup, filtering and counting

  /** The index of the first element satisfying `p`, or `|s|` when there is none. */
  function IndexWhere<T>(s: seq<T>, p: T -> bool): (i: nat)
    ensures i <= |s|
    ensures forall j :: 0 <= j < i ==> !p(s[j])
    ensures i < |s| ==> p(s[i])
  {
    if s == [] then 0 else if p(s[0]) then 0 else 1 + IndexWhere(s[1..], p)
  }

  /** The first element satisfying `p` (`Array.prototype.find`, Prisma `findFirst`). */
  function Find<T>(s: seq<T>, p: T -> bool): (r: Option<T>)
    ensures r.Some? ==> r.value in s && p(r.value)
    ensures r.None? <==> forall x :: x in s ==> !p(x)
    ensures r.Some? ==> r.value == s[IndexWhere(s, p)]
  {
    var i := IndexWhere(s, p);
    if i < |s| then Some(s[i]) else None
  }

  /** The elements satisfying `p`, in their original order. */
  function Filter<T(!new)>(s: seq<T>, p: T -> bool): (r: seq<T>)
    ensures |r| <= |s|
    ensures forall x :: x in r <==> x in s && p(x)
    ensures forall x :: p(x) ==> multiset(r)[x] == multiset(s)[x]
    ensures forall x :: !p(x) ==> multiset(r)[x] == 0
  {
    if s == [] then []
    else
      var rest := Filter(s[1..], p);
      assert s == [s[0]] + s[1..];
      if p(s[0]) then [s[0]] + rest else rest
  }

  /** `s.filter(p).length`, also Prisma's `count({ where })`. */
  function Count<T(!new)>(s: seq<T>, p: T -> bool): nat {
    |Filter(s, p)|
  }

  /** Filtering distributes over concatenation. */
  lemma {:induction false} FilterAppend<T(!new)>(s: seq<T>, t: seq<T>, p: T -> bool)
    ensures Filter(s + t, p) == Filter(s, p) + Filter(t, p)
  {
    if s == [] {
      assert s + t == t;
    } else {
      assert (s + t)[1..] == s[1..] + t;
      FilterAppend(s[1..], t, p);
    }
  }

  /** Three mutually exclusive conditions select, together, at most all the elements. */
  lemma {:induction false} CountExclusive<T(!new)>(s: seq<T>, p: T -> bool, q: T -> bool, r: T -> bool)
    requires forall x :: !(p(x) && q(x)) && !(p(x) && r(x)) && !(q(x) && r(x))
    ensures Count(s, p) + Count(s, q) + Count(s, r) <= |s|
  {
    if s != [] {
      CountExclusive(s[1..], p, q, r);
    }
  }

  /** Elements that satisfy `p` and those that do not together make up all of them. */
  lemma {:induction false} CountSplit<T(!new)>(s: seq<T>, p: T -> bool, q: T -> bool)
    requires forall x :: q(x) <==> !p(x)
    ensures Count(s, p) + Count(s, q) == |s|
  {
    if s != [] {
      CountSplit(s[1..], p, q);
    }
  }

  /** A condition every element satisfies selects all of them. */
  lemma {:induction false} CountAll<T(!new)>(s: seq<T>, p: T -> bool)
    requires forall x :: x in s ==> p(x)
    ensures Count(s, p) == |s|
  {
    if s != [] {
      assert s[0] in s;
      assert forall x :: x in s[1..] ==> x in s;
      CountAll(s[1..], p);
    }
  }

  /** Applies `f` to every element satisfying `p` and keeps the others (an update `where` a condition). */
  function MapWhere<T>(s: seq<T>, p: T -> bool, f: T -> T): (r: seq<T>)
    ensures |r| == |s|
    ensures forall i :: 0 <= i < |s| ==> r[i] == if p(s[i]) then f(s[i]) else s[i]
  {
    seq(|s|, i requires 0 <= i < |s| => if p(s[i]) then f(s[i]) else s[i])
  }

  /** `s.map(f)`. */
  function Map<T, U>(s: seq<T>, f: T -> U): (r: seq<U>)
    ensures |r| == |s|
    ensures forall i :: 0 <= i < |s| ==> r[i] == f(s[i])
  {
    seq(|s|, i requires 0 <= i < |s| => f(s[i]))
  }

  /** Every element's image is in the mapped list, and each mapped element is the image of an element. */
  lemma {:induction false} MapMembers<T, U>(s: seq<T>, f: T -> U)
    ensures forall x :: x in s ==> f(x) in Map(s, f)
    ensures forall i :: 0 <= i < |s| ==> s[i] in s && Map(s, f)[i] == f(s[i])
  {
    forall x | x in s ensures f(x) in Map(s, f) {
      var k :| 0 <= k < |s| && s[k] == x;
      assert Map(s, f)[k] == f(x);
    }
  }

  /** Mapping a list sorted by a descending key keeps it sorted when the image carries the same key. */
  lemma {:induction false} MapKeepsDescending<T, U>(s: seq<T>, f: T -> U, key: T -> int, key2: U -> int)
    requires Sorted(s, Descending(key))
    requires forall x :: key2(f(x)) == key(x)
    ensures Sorted(Map(s, f), Descending(key2))
  {
    var r := Map(s, f);
    forall i | 0 < i < |r| ensures Descending(key2)(r[i - 1], r[i]) {
      assert Descending(key)(s[i - 1], s[i]);
    }
  }

  predicate Distinct<T(==)>(s: seq<T>) {
    forall i, j :: 0 <= i < j < |s| ==> s[i] != s[j]
  }

  /** No two elements share a key (a unique column). */
  ghost predicate UniqueBy<T, K>(s: seq<T>, key: T -> K) {
    forall i, j :: 0 <= i < j < |s| ==> key(s[i]) != key(s[j])
  }

  /** Appending a row whose key is new keeps the column unique. */
  lemma {:induction false} UniqueByAppend<T, K>(s: seq<T>, x: T, key: T -> K)
    requires UniqueBy(s, key)
    requires forall y :: y in s ==> key(y) != key(x)
    ensures UniqueBy(s + [x], key)
  {
    var r := s + [x];
    forall i, j | 0 <= i < j < |r| ensures key(r[i]) != key(r[j]) {
      if j == |s| {
        assert r[i] in s;
      }
    }
  }

  /** Prepending a row whose key is new keeps the column unique. */
  lemma {:induction false} UniqueByPrepend<T, K>(x: T, s: seq<T>, key: T -> K)
    requires UniqueBy(s, key)
    requires forall y :: y in s ==> key(y) != key(x)
    ensures UniqueBy([x] + s, key)
  {
    var r := [x] + s;
    forall i, j | 0 <= i < j < |r| ensures key(r[i]) != key(r[j]) {
      assert r[j] == s[j - 1];
      if i > 0 {
        assert r[i] == s[i - 1];
      }
    }
  }

  /** Deleting rows keeps a column unique. */
  lemma {:induction false} UniqueByFilter<T(!new), K>(s: seq<T>, p: T -> bool, key: T -> K)
    requires UniqueBy(s, key)
    ensures UniqueBy(Filter(s, p), key)
  {
    if s != [] {
      var tail := s[1..];
      assert UniqueBy(tail, key) by {
        forall i, j | 0 <= i < j < |tail| ensures key(tail[i]) != key(tail[j]) {
          assert tail[i] == s[i + 1] && tail[j] == s[j + 1];
        }
      }
      UniqueByFilter(tail, p, key);
      if p(s[0]) {
        var rest := Filter(tail, p);
        forall y | y in rest ensures key(y) != key(s[0]) {
          var k :| 0 <= k < |tail| && tail[k] == y;
          assert s[k + 1] == y;
        }
        UniqueByPrepend(s[0], rest, key);
      }
    }
  }

  /** Replacing a row by one whose key no other row has keeps the column unique. */
  lemma UniqueByUpdate<T, K>(s: seq<T>, i: nat, x: T, key: T -> K)
    requires UniqueBy(s, key)
    requires i < |s|
    requires forall j :: 0 <= j < |s| && j != i ==> key(s[j]) != key(x)
    ensures UniqueBy(s[i := x], key)
  {
    var r := s[i := x];
    forall j, k | 0 <= j < k < |r| ensures key(r[j]) != key(r[k]) {
      if j != i && k != i {
        assert r[j] == s[j] && r[k] == s[k];
      }
    }
  }

  /** Replacing a row by one with the same key keeps the column unique. */
  lemma UniqueBySameKey<T, K>(s: seq<T>, i: nat, x: T, key: T -> K)
    requires UniqueBy(s, key)
    requires i < |s| && key(x) == key(s[i])
    ensures UniqueBy(s[i := x], key)
  {
    forall j | 0 <= j < |s| && j != i ensures key(s[j]) != key(x) {
      if j < i {
        assert key(s[j]) != key(s[i]);
      } else {
        assert key(s[i]) != key(s[j]);
      }
    }
    UniqueByUpdate(s, i, x, key);
  }

  /** The position of the first row whose key is `k` (a `findUnique` by that key), or `|s|`. */
  function IndexOfKey<T, K(==)>(s: seq<T>, key: T -> K, k: K): (i: nat)
    ensures i <= |s|
    ensures forall j :: 0 <= j < i ==> key(s[j]) != k
    ensures i < |s| <==> exists j :: 0 <= j < |s| && key(s[j]) == k
    ensures i < |s| ==> key(s[i]) == k
  {
    if s == [] then 0
    else if key(s[0]) == k then 0
    else
      var i := 1 + IndexOfKey(s[1..], key, k);
      assert forall j :: 1 <= j < |s| ==> s[1..][j - 1] == s[j];
      i
  }

  /** Rewriting the row found by a key, keeping its key, leaves it where a new lookup finds it. */
  lemma IndexOfKeyUpdate<T, K>(s: seq<T>, key: T -> K, k: K, x: T)
    requires IndexOfKey(s, key, k) < |s|
    requires key(x) == k
    ensures IndexOfKey(s[IndexOfKey(s, key, k) := x], key, k) == IndexOfKey(s, key, k)
  {
    var i := IndexOfKey(s, key, k);
    var t := s[i := x];
    var m := IndexOfKey(t, key, k);
    assert key(t[i]) == k;
  }

  // ---------------------------------------------------------------------------
  // Ordering (Prisma `orderBy`)

  /** `le` relates every pair one way or the other, as a comparison on a sort key does. */
  ghost predicate Total<T(!new)>(le: (T, T) -> bool) {
    forall a, b :: le(a, b) || le(b, a)
  }

  /** Every element is `le` the one after it. */
  predicate Sorted<T>(s: seq<T>, le: (T, T) -> bool) {
    forall i :: 0 < i < |s| ==> le(s[i - 1], s[i])
  }

  function Insert<T(!new)>(x: T, s: seq<T>, le: (T, T) -> bool): (r: seq<T>)
    requires Total(le)
    requires Sorted(s, le)
    ensures Sorted(r, le)
    ensures multiset(r) == multiset(s) + multiset{x}
    ensures |r| == |s| + 1
    ensures r[0] == x || (s != [] && r[0] == s[0])
  {
    if s == [] then [x]
    else if le(x, s[0]) then [x] + s
    else
      assert le(s[0], x);
      assert s == [s[0]] + s[1..];
      [s[0]] + Insert(x, s[1..], le)
  }

  /** The list ordered by `le` (insertion sort): a permutation of `s` in which every element is `le` the next. */
  function SortBy<T(!new)>(s: seq<T>, le: (T, T) -> bool): (r: seq<T>)
    requires Total(le)
    ensures Sorted(r, le)
    ensures multiset(r) == multiset(s)
    ensures |r| == |s|
  {
    if s == [] then []
    else
      assert s == [s[0]] + s[1..];
      Insert(s[0], SortBy(s[1..], le), le)
  }

  /** Descending order of an integer key (`orderBy: { createdAt: "desc" }`). */
  function Descending<T>(key: T -> int): (T, T) -> bool {
    (a: T, b: T) => key(a) >= key(b)
  }

  /** Ascending order of an integer key (`orderBy: { createdAt: "asc" }`). */
  function Ascending<T>(key: T -> int): (T, T) -> bool {
    (a: T, b: T) => key(a) <= key(b)
  }

  lemma {:induction false} DescendingIsTotal<T(!new)>(key: T -> int)
    ensures Total(Descending(key))
  {
  }

  lemma {:induction false} AscendingIsTotal<T(!new)>(key: T -> int)
    ensures Total(Ascending(key))
  {
  }

  /** Character-by-character lexicographic order on names. */
  predicate LexLe(a: string, b: string) {
    a == [] || (b != [] && (a[0] < b[0] || (a[0] == b[0] && LexLe(a[1..], b[1..]))))
  }

  lemma {:induction false} LexLeTotal(a: string, b: string)
    ensures LexLe(a, b) || LexLe(b, a)
  {
    if a != [] && b != [] && a[0] == b[0] {
      LexLeTotal(a[1..], b[1..]);
    }
  }

  /** In a list sorted by an ascending key, a later element's key is never smaller. */
  lemma {:induction false} AscendingChain<T>(s: seq<T>, key: T -> int, i: int, j: int)
    requires Sorted(s, Ascending(key))
    requires 0 <= i <= j < |s|
    ensures key(s[i]) <= key(s[j])
    decreases j - i
  {
    if i < j {
      AscendingChain(s, key, i, j - 1);
      assert Ascending(key)(s[j - 1], s[j]);
    }
  }

  /** Ascending order of a string key (`orderBy: { name: "asc" }`). */
  function ByName<T>(name: T -> string): (T, T) -> bool {
    (a: T, b: T) => LexLe(name(a), name(b))
  }

  lemma {:induction false} ByNameIsTotal<T(!new)>(name: T -> string)
    ensures Total(ByName(name))
  {
    forall a: T, b: T ensures LexLe(name(a), name(b)) || LexLe(name(b), name(a)) {
      LexLeTotal(name(a), name(b));
    }
  }

  // ---------------------------------------------------------------------------
  // Prisma `findMany({ where, orderBy })`

  /** The rows satisfying `where`, ordered by `order`; each kept row keeps its multiplicity. */
  function Query<T(!new)>(s: seq<T>, where: T -> bool, order: (T, T) -> bool): (r: seq<T>)
    requires Total(order)
    ensures Sorted(r, order)
    ensures forall x :: multiset(r)[x] == if where(x) then multiset(s)[x] else 0
    ensures forall x :: x in r <==> x in s && where(x)
    ensures |r| <= |s|
  {
    SortBy(Filter(s, where), order)
  }

  /** `findMany` ordered by `key` descending, newest first for `createdAt`. */
  function NewestFirst<T(!new)>(s: seq<T>, where: T -> bool, key: T -> int): (r: seq<T>)
    ensures Sorted(r, Descending(key))
    ensures forall x :: multiset(r)[x] == if where(x) then multiset(s)[x] else 0
    ensures forall x :: x in r <==> x in s && where(x)
  {
    DescendingIsTotal(key);
    Query(s, where, Descending(key))
  }

  /** `findMany` ordered by `key` ascending, oldest first for `createdAt`. */
  function OldestFirst<T(!new)>(s: seq<T>, where: T -> bool, key: T -> int): (r: seq<T>)
    ensures Sorted(r, Ascending(key))
    ensures forall x :: multiset(r)[x] == if where(x) then multiset(s)[x] else 0
    ensures forall x :: x in r <==> x in s && where(x)
  {
    AscendingIsTotal(key);
    Query(s, where, Ascending(key))
  }

  /** `take: n`: the first `n` elements. */
  function Take<T>(s: seq<T>, n: nat): (r: seq<T>)
    ensures |r| == if |s| <= n then |s| else n
    ensures r == s[..|r|]
  {
    if |s| <= n then s else s[..n]
  }

  /** Keeping the first `n` of a list sorted by an ascending key drops only elements no earlier than every kept one. */
  lemma {:induction false} TakeDropsLatest<T>(s: seq<T>, n: nat, key: T -> int)
    requires Sorted(s, Ascending(key))
    ensures forall x, y :: x in s && x !in Take(s, n) && y in Take(s, n) ==> key(y) <= key(x)
  {
    var r := Take(s, n);
    forall x, y | x in s && x !in r && y in r ensures key(y) <= key(x) {
      var k :| 0 <= k < |s| && s[k] == x;
      var i :| 0 <= i < |r| && r[i] == y;
      assert k >= |r|;
      AscendingChain(s, key, i, k);
    }
  }

  /** The last `n` elements. */
  function Last<T>(s: seq<T>, n: nat): (r: seq<T>)
    ensures |r| == if |s| <= n then |s| else n
    ensures r == s[|s| - |r|..]
  {
    if |s| <= n then s else s[|s| - n..]
  }

  /** Keeping the last `n` of a list sorted by an ascending key drops only elements no later than every kept one. */
  lemma {:induction false} LastKeepsLatest<T>(s: seq<T>, n: nat, key: T -> int)
    requires Sorted(s, Ascending(key))
    ensures forall x, y :: x in s && x !in Last(s, n) && y in Last(s, n) ==> key(x) <= key(y)
    ensures s != [] && n > 0 ==> s[|s| - 1] in Last(s, n)
  {
    var r := Last(s, n);
    var start := |s| - |r|;
    forall x, y | x in s && x !in r && y in r ensures key(x) <= key(y) {
      var k :| 0 <= k < |s| && s[k] == x;
      var i :| 0 <= i < |r| && r[i] == y;
      assert s[start + i] == y;
      AscendingChain(s, key, k, start + i);
    }
    if s != [] && n > 0 {
      assert r[|r| - 1] == s[|s| - 1];
    }
  }

  /** `findMany` ordered by a name ascending. */
  function NameOrder<T(!new)>(s: seq<T>, where: T -> bool, name: T -> string): (r: seq<T>)
    ensures Sorted(r, ByName(name))
    ensures forall x :: multiset(r)[x] == if where(x) then multiset(s)[x] else 0
    ensures forall x :: x in r <==> x in s && where(x)
  {
    ByNameIsTotal(name);
    Query(s, where, ByName(name))
  }
}
