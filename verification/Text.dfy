/** Strings as the program handles them: byte-order sorting (Go's `sort.Strings` and
    `sort.Slice`), splitting and joining, prefixes and suffixes, decimal numerals. */
module Text {

  // ---------------------------------------------------------------- order

  predicate Le(a: string, b: string) {
    a == "" || (b != "" && (a[0] < b[0] || (a[0] == b[0] && Le(a[1..], b[1..]))))
  }

  /** a and b agree up to k, where a has the smaller byte. */
  predicate LessAt(a: string, b: string, k: nat) {
    k < |a| && k < |b| && a[..k] == b[..k] && a[k] < b[k]
  }

  /** Byte order: a is a prefix of b, or smaller where they first differ. */
  lemma {:induction false} LeExactly(a: string, b: string)
    ensures Le(a, b) <==> a <= b || exists k: nat :: LessAt(a, b, k)
  {
    if a != "" && b != "" {
      LeExactly(a[1..], b[1..]);
      assert a == [a[0]] + a[1..] && b == [b[0]] + b[1..];
      if a[0] < b[0] { assert LessAt(a, b, 0); }
      if a[0] == b[0] {
        if k: nat :| LessAt(a[1..], b[1..], k) {
          assert a[..k + 1] == [a[0]] + a[1..][..k] && b[..k + 1] == [b[0]] + b[1..][..k];
          assert LessAt(a, b, k + 1);
        }
      }
      if k: nat :| LessAt(a, b, k) {
        if k > 0 {
          assert a[0] == a[..k][0] && b[0] == b[..k][0];
          assert a[1..][..k - 1] == a[..k][1..] && b[1..][..k - 1] == b[..k][1..];
          assert LessAt(a[1..], b[1..], k - 1);
        }
      }
    }
  }

  lemma LeTotal(a: string, b: string)
    ensures Le(a, b) || Le(b, a)
  {
  }

  lemma LeAntisymmetric(a: string, b: string)
    requires Le(a, b) && Le(b, a)
    ensures a == b
  {
    if a != "" {
      LeAntisymmetric(a[1..], b[1..]);
      assert a == [a[0]] + a[1..] && b == [b[0]] + b[1..];
    }
  }

  lemma LeTransitive(a: string, b: string, c: string)
    requires Le(a, b) && Le(b, c)
    ensures Le(a, c)
  {
  }

  lemma LeReflexive(a: string)
    ensures Le(a, a)
  {
  }

  // ---------------------------------------------------------------- sorting by a string key

  function Self(s: string): string { s }

  ghost predicate SortedBy<T(!new)>(xs: seq<T>, key: T -> string) {
    forall i, j :: 0 <= i < j < |xs| ==> Le(key(xs[i]), key(xs[j]))
  }

  function Insert<T>(x: T, xs: seq<T>, key: T -> string): (r: seq<T>)
    ensures multiset(r) == multiset(xs) + multiset{x}
  {
    if xs == [] then [x]
    else if Le(key(x), key(xs[0])) then
      assert [x] + xs == [x] + xs;
      [x] + xs
    else
      assert xs == [xs[0]] + xs[1..];
      [xs[0]] + Insert(x, xs[1..], key)
  }

  /** The rows of xs ordered by key, rows with equal keys keeping their order. */
  function Sort<T>(xs: seq<T>, key: T -> string): (r: seq<T>)
    ensures multiset(r) == multiset(xs)
  {
    if xs == [] then []
    else
      assert xs == [xs[0]] + xs[1..];
      Insert(xs[0], Sort(xs[1..], key), key)
  }

  lemma MembersOf<T>(a: seq<T>, b: seq<T>)
    requires multiset(a) == multiset(b)
    ensures |a| == |b|
    ensures forall x :: x in a <==> x in b
  {
    assert |multiset(a)| == |multiset(b)|;
    forall x ensures x in a <==> x in b {
      assert x in a <==> x in multiset(a);
      assert x in b <==> x in multiset(b);
    }
  }

  lemma {:induction false} InsertSorts<T(!new)>(x: T, xs: seq<T>, key: T -> string)
    requires SortedBy(xs, key)
    ensures SortedBy(Insert(x, xs, key), key)
  {
    if xs != [] {
      var r := Insert(x, xs, key);
      if Le(key(x), key(xs[0])) {
        forall i, j | 0 <= i < j < |r| ensures Le(key(r[i]), key(r[j])) {
          if i == 0 && j > 1 { LeTransitive(key(x), key(xs[0]), key(xs[j - 1])); }
        }
      } else {
        var rest := Insert(x, xs[1..], key);
        InsertSorts(x, xs[1..], key);
        LeTotal(key(x), key(xs[0]));
        forall i, j | 0 <= i < j < |r| ensures Le(key(r[i]), key(r[j])) {
          if i == 0 {
            assert r[j] in multiset(rest);
            assert r[j] == x || r[j] in xs[1..];
          } else {
            assert r[i] == rest[i - 1] && r[j] == rest[j - 1];
          }
        }
      }
    }
  }

  lemma {:induction false} SortSorts<T(!new)>(xs: seq<T>, key: T -> string)
    ensures SortedBy(Sort(xs, key), key)
  {
    if xs != [] {
      SortSorts(xs[1..], key);
      InsertSorts(xs[0], Sort(xs[1..], key), key);
    }
  }

  /** No two different rows of xs share a key. */
  ghost predicate KeyIdentifies<T(!new)>(xs: seq<T>, key: T -> string) {
    forall x, y :: x in xs && y in xs && key(x) == key(y) ==> x == y
  }

  lemma SameHead<T(!new)>(a: seq<T>, b: seq<T>, key: T -> string)
    requires SortedBy(a, key) && SortedBy(b, key)
    requires a != [] && b != [] && a[0] in b && b[0] in a
    requires KeyIdentifies(a, key)
    ensures a[0] == b[0]
  {
    hide Le;
    var i :| 0 <= i < |b| && b[i] == a[0];
    var j :| 0 <= j < |a| && a[j] == b[0];
    if i > 0 && j > 0 { LeAntisymmetric(key(a[0]), key(b[0])); }
  }

  lemma SameTails<T>(a: seq<T>, b: seq<T>)
    requires a != [] && b != [] && a[0] == b[0]
    requires multiset(a) == multiset(b)
    ensures multiset(a[1..]) == multiset(b[1..])
  {
    assert a == [a[0]] + a[1..] && b == [b[0]] + b[1..];
    assert multiset(a[1..]) == multiset(a) - multiset{a[0]};
  }

  /** Whatever sorting algorithm is used, there is one sorted arrangement of rows that
      their keys identify. */
  lemma {:induction false} SortedUnique<T(!new)>(a: seq<T>, b: seq<T>, key: T -> string)
    requires SortedBy(a, key) && SortedBy(b, key)
    requires multiset(a) == multiset(b)
    requires KeyIdentifies(a, key)
    ensures a == b
  {
    hide Le;
    MembersOf(a, b);
    if a != [] {
      SameHead(a, b, key);
      SameTails(a, b);
      SortedUnique(a[1..], b[1..], key);
      assert a == [a[0]] + a[1..] && b == [b[0]] + b[1..];
    }
  }

  lemma SortUnique<T(!new)>(a: seq<T>, b: seq<T>, key: T -> string)
    requires multiset(a) == multiset(b)
    requires KeyIdentifies(a, key)
    ensures Sort(a, key) == Sort(b, key)
  {
    SortSorts(a, key);
    SortSorts(b, key);
    MembersOf(a, Sort(a, key));
    SortedUnique(Sort(a, key), Sort(b, key), key);
  }

  // ---------------------------------------------------------------- the elements of a set, in order

  ghost predicate Increasing(xs: seq<string>) {
    forall i, j :: 0 <= i < j < |xs| ==> Le(xs[i], xs[j]) && xs[i] != xs[j]
  }

  lemma {:induction false} LeastExists(s: set<string>) returns (m: string)
    requires s != {}
    ensures m in s && forall x :: x in s ==> Le(m, x)
  {
    hide Le;
    var a :| a in s;
    var rest := s - {a};
    LeReflexive(a);
    m := a;
    if rest == {} {
      assert s == {a};
    } else {
      var b := LeastExists(rest);
      LeTotal(a, b);
      m := if Le(a, b) then a else b;
      forall x | x in s ensures Le(m, x) {
        if x != a && m == a { LeTransitive(a, b, x); }
      }
    }
  }

  lemma LeastIsOne(s: set<string>)
    requires s != {}
    ensures exists m :: m in s && forall x :: x in s ==> Le(m, x)
    ensures forall a, b :: a in s && b in s && Le(a, b) && Le(b, a) ==> a == b
  {
    hide Le;
    var m := LeastExists(s);
    forall a, b | a in s && b in s && Le(a, b) && Le(b, a) ensures a == b { LeAntisymmetric(a, b); }
  }

  function Least(s: set<string>): (m: string)
    requires s != {}
    ensures m in s && forall x :: x in s ==> Le(m, x)
  {
    LeastIsOne(s);
    var m :| m in s && forall x :: x in s ==> Le(m, x);
    m
  }

  lemma PrependMember(s: set<string>, m: string, rest: seq<string>, x: string)
    requires m in s && (x in rest <==> x in s - {m})
    ensures x in [m] + rest <==> x in s
  {
  }

  lemma PrependIncreasing(m: string, rest: seq<string>)
    requires Increasing(rest)
    requires forall j :: 0 <= j < |rest| ==> Le(m, rest[j]) && rest[j] != m
    ensures Increasing([m] + rest)
  {
  }

  lemma PrependLeast(s: set<string>, m: string, rest: seq<string>)
    requires m in s && forall x :: x in s ==> Le(m, x)
    requires forall x :: x in rest <==> x in s - {m}
    requires Increasing(rest) && |rest| == |s - {m}|
    ensures forall x :: x in [m] + rest <==> x in s
    ensures Increasing([m] + rest) && |[m] + rest| == |s|
  {
    hide Le, Increasing;
    forall x ensures x in [m] + rest <==> x in s { PrependMember(s, m, rest, x); }
    forall j | 0 <= j < |rest| ensures Le(m, rest[j]) && rest[j] != m {
      assert rest[j] in rest;
    }
    PrependIncreasing(m, rest);
    assert |s| == |s - {m}| + 1;
  }

  function InOrder(s: set<string>): (r: seq<string>)
    ensures forall x :: x in r <==> x in s
    ensures Increasing(r)
    ensures |r| == |s|
  {
    if s == {} then []
    else
      var m := Least(s);
      var rest := InOrder(s - {m});
      PrependLeast(s, m, rest);
      [m] + rest
  }

  lemma {:induction false} IncreasingUnique(a: seq<string>, b: seq<string>)
    requires Increasing(a) && Increasing(b)
    requires forall x :: x in a <==> x in b
    ensures a == b
  {
    if a == [] {
      assert forall i :: 0 <= i < |b| ==> b[i] in a;
    } else {
      assert a[0] in b;
      var i :| 0 <= i < |b| && b[i] == a[0];
      assert b[0] in a;
      var j :| 0 <= j < |a| && a[j] == b[0];
      if i > 0 && j > 0 { LeAntisymmetric(a[0], b[0]); }
      assert a[0] == b[0];
      assert forall x :: x in a[1..] <==> x in b[1..] by {
        forall x ensures x in a[1..] <==> x in b[1..] {
          if x in a[1..] { var k :| 0 <= k < |a[1..]| && a[1..][k] == x; assert x == a[k + 1]; assert x in b; }
          if x in b[1..] { var k :| 0 <= k < |b[1..]| && b[1..][k] == x; assert x == b[k + 1]; assert x in a; }
        }
      }
      IncreasingUnique(a[1..], b[1..]);
      assert a == [a[0]] + a[1..] && b == [b[0]] + b[1..];
    }
  }

  // ---------------------------------------------------------------- parts of strings

  predicate HasPrefix(s: string, p: string) {
    |p| <= |s| && s[..|p|] == p
  }

  predicate HasSuffix(s: string, p: string) {
    |p| <= |s| && s[|s| - |p|..] == p
  }

  function TrimSuffix(s: string, p: string): string {
    if HasSuffix(s, p) then s[..|s| - |p|] else s
  }

  lemma AppendInjective(a: string, b: string, suffix: string)
    ensures a + suffix == b + suffix <==> a == b
    ensures TrimSuffix(a + suffix, suffix) == a
    ensures HasSuffix(a + suffix, suffix)
  {
  }

  lemma TrimmedBack(s: string, suffix: string)
    requires HasSuffix(s, suffix)
    ensures TrimSuffix(s, suffix) + suffix == s
  {
  }

  /** The index of the first c in s, or |s|. */
  function IndexOf(s: string, c: char): (i: nat)
    ensures i <= |s|
    ensures c !in s[..i]
    ensures i < |s| ==> s[i] == c
  {
    if s == "" || s[0] == c then 0
    else
      var i := 1 + IndexOf(s[1..], c);
      assert s[..i] == [s[0]] + s[1..][..i - 1];
      i
  }

  lemma IndexOfFirst(a: string, c: char, rest: string)
    requires c !in a
    ensures IndexOf(a + [c] + rest, c) == |a|
  {
    var s := a + [c] + rest;
    var i := IndexOf(s, c);
    assert s[|a|] == c;
    assert forall k :: 0 <= k < i ==> s[k] in s[..i];
    assert forall k :: 0 <= k < |a| ==> s[k] == a[k];
  }

  /** `strings.Split` by a one-character separator. */
  function Split(s: string, c: char): (parts: seq<string>)
    ensures |parts| > 0
    ensures forall p :: p in parts ==> c !in p
    ensures Join(parts, c) == s
    decreases |s|
  {
    var i := IndexOf(s, c);
    if i == |s| then
      assert s[..i] == s;
      [s]
    else
      var rest := Split(s[i + 1..], c);
      assert s == s[..i] + [c] + s[i + 1..];
      [s[..i]] + rest
  }

  function Join(parts: seq<string>, c: char): string {
    if parts == [] then ""
    else if |parts| == 1 then parts[0]
    else parts[0] + [c] + Join(parts[1..], c)
  }

  /** Splitting what was joined gives the parts back. */
  lemma {:induction false} SplitJoin(parts: seq<string>, c: char)
    requires |parts| > 0
    requires forall p :: p in parts ==> c !in p
    ensures Split(Join(parts, c), c) == parts
  {
    var s := Join(parts, c);
    if |parts| == 1 {
      assert parts == [s];
      assert c !in parts[0];
      assert s[..|s|] == s;
    } else {
      var rest := Join(parts[1..], c);
      IndexOfFirst(parts[0], c, rest);
      assert s[|parts[0]| + 1..] == rest;
      assert s[..|parts[0]|] == parts[0];
      SplitJoin(parts[1..], c);
      assert parts == [parts[0]] + parts[1..];
    }
  }

  lemma {:induction false} JoinAppend(parts: seq<string>, p: string, c: char)
    requires parts != []
    ensures Join(parts + [p], c) == Join(parts, c) + [c] + p
  {
    if |parts| == 1 {
      assert (parts + [p])[1..] == [p];
    } else {
      assert (parts + [p])[1..] == parts[1..] + [p];
      JoinAppend(parts[1..], p, c);
    }
  }

  // ---------------------------------------------------------------- decimal numerals

  function Digit(d: nat): (c: char)
    requires d < 10
    ensures '0' <= c <= '9'
  {
    ('0' as int + d) as char
  }

  predicate IsDigit(c: char) { '0' <= c <= '9' }

  predicate AllDigits(s: string) {
    forall i :: 0 <= i < |s| ==> IsDigit(s[i])
  }

  function Dec(n: nat): (s: string)
    ensures s != "" && AllDigits(s)
  {
    if n < 10 then [Digit(n)] else Dec(n / 10) + [Digit(n % 10)]
  }

  function DigitValue(c: char): nat
    requires IsDigit(c)
  {
    c as int - '0' as int
  }

  function FromDec(s: string): nat
    requires AllDigits(s)
  {
    if s == "" then 0 else FromDec(s[..|s| - 1]) * 10 + DigitValue(s[|s| - 1])
  }

  lemma {:induction false} FromDecDec(n: nat)
    ensures FromDec(Dec(n)) == n
  {
    if n < 10 {
      assert [Digit(n)][..0] == "";
    } else {
      FromDecDec(n / 10);
      assert Dec(n)[..|Dec(n)| - 1] == Dec(n / 10);
    }
  }

  lemma DecInjective(m: nat, n: nat)
    requires Dec(m) == Dec(n)
    ensures m == n
  {
    FromDecDec(m);
    FromDecDec(n);
  }

  /** `%d`. */
  function DecInt(n: int): string {
    if n < 0 then "-" + Dec(-n) else Dec(n)
  }

  predicate IsNegative(s: string) { s != "" && s[0] == '-' }

  predicate IsNumeral(s: string) {
    if IsNegative(s) then AllDigits(s[1..]) else AllDigits(s)
  }

  function FromDecInt(s: string): int
    requires IsNumeral(s)
  {
    if IsNegative(s) then -(FromDec(s[1..]) as int) else FromDec(s)
  }

  lemma FromDecIntDecInt(n: int)
    ensures IsNumeral(DecInt(n))
    ensures FromDecInt(DecInt(n)) == n
    ensures ':' !in DecInt(n) && '\n' !in DecInt(n)
  {
    if n < 0 {
      FromDecDec(-n);
      assert DecInt(n)[1..] == Dec(-n);
    } else {
      FromDecDec(n);
      assert IsDigit(Dec(n)[0]);
    }
  }
}
