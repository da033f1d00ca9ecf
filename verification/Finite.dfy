/** Ordered finite sets with rank access, and sums over duplicate-free lists.

    The source keeps its index in counted B-trees: `Len` is the number of keys and
    `GetAt(k)` is the k-th smallest key. A finite map together with `Ranked` of its
    key set is exactly that.
 */
module Finite {

  datatype Option<+T> = None | Some(value: T) {
    function GetOr(default: T): T { if Some? then value else default }
  }

  /** Identifiers are strings, ordered as the source's `a.ID < b.ID` orders them. */
  datatype Id = Id(text: string)

  predicate Before(a: Id, b: Id) { TextBefore(a.text, b.text) }

  predicate TextBefore(a: string, b: string) {
    b != "" && (a == "" || a[0] < b[0] || (a[0] == b[0] && TextBefore(a[1..], b[1..])))
  }

  lemma {:induction false} TextBeforeIsTransitive(a: string, b: string, c: string)
    requires TextBefore(a, b) && TextBefore(b, c)
    ensures TextBefore(a, c)
  {
    if a != "" && a[0] == b[0] && b[0] == c[0] { TextBeforeIsTransitive(a[1..], b[1..], c[1..]); }
  }

  lemma {:induction false} TextBeforeIsTotal(a: string, b: string)
    ensures a == b || TextBefore(a, b) || TextBefore(b, a)
    ensures !(TextBefore(a, b) && TextBefore(b, a)) && !TextBefore(a, a)
  {
    if a != "" && b != "" && a[0] == b[0] {
      TextBeforeIsTotal(a[1..], b[1..]);
      assert a == [a[0]] + a[1..] && b == [b[0]] + b[1..];
    }
    if a != "" { TextBeforeIsTotal(a[1..], a[1..]); }
  }

  ghost predicate Distinct<T>(s: seq<T>) {
    forall i, j :: 0 <= i < j < |s| ==> s[i] != s[j]
  }

  predicate IsLeast(m: Id, s: set<Id>) {
    m in s && forall x :: x in s && x != m ==> Before(m, x)
  }

  ghost function Members<T(!new)>(s: seq<T>): (r: set<T>)
    ensures forall x :: x in r <==> x in s
  {
    set x | x in s
  }

  lemma NoMembers<T(!new)>()
    ensures Members<T>([]) == {}
  {
  }

  lemma MembersStep<T(!new)>(s: seq<T>, k: nat)
    requires k < |s|
    ensures Members(s[..k+1]) == Members(s[..k]) + {s[k]}
  {
    assert s[..k+1] == s[..k] + [s[k]];
  }

  lemma {:induction false} HasLeast(s: set<Id>)
    requires s != {}
    ensures exists m :: IsLeast(m, s)
  {
    var k :| k in s;
    if s == {k} {
      assert IsLeast(k, s);
    } else {
      HasLeast(s - {k});
      var m :| IsLeast(m, s - {k});
      TextBeforeIsTotal(k.text, m.text);
      if Before(m, k) {
        assert IsLeast(m, s);
      } else {
        forall x | x in s && x != k ensures Before(k, x) {
          assert x in s - {k};
          if x != m { TextBeforeIsTransitive(k.text, m.text, x.text); }
        }
        assert IsLeast(k, s);
      }
    }
  }

  /** r lists the members of s, each before the next. */
  ghost predicate IsRanking(s: set<Id>, r: seq<Id>) {
    |r| == |s| && (forall x :: x in r <==> x in s)
    && forall i :: InOrder(r, i)
  }

  ghost predicate InOrder(r: seq<Id>, i: int) {
    0 <= i < |r| - 1 ==> Before(r[i], r[i+1])
  }

  lemma {:induction false} HasRanking(s: set<Id>)
    ensures exists r :: IsRanking(s, r)
    decreases |s|
  {
    if s == {} {
      assert IsRanking(s, []);
    } else {
      HasLeast(s);
      var m :| IsLeast(m, s);
      HasRanking(s - {m});
      var r :| IsRanking(s - {m}, r);
      forall i ensures InOrder([m] + r, i) {
        if i == 0 && r != [] { assert r[0] in r; }
        assert InOrder(r, i - 1);
      }
      assert IsRanking(s, [m] + r);
    }
  }

  /** The members of s in increasing order: position k holds what `GetAt(k)` returns. */
  ghost function Ranked(s: set<Id>): (r: seq<Id>)
    ensures IsRanking(s, r)
  {
    HasRanking(s);
    var r :| IsRanking(s, r); r
  }

  lemma {:induction false} RankingAscends(s: set<Id>, r: seq<Id>, i: nat, j: nat)
    requires IsRanking(s, r) && i < j < |r|
    ensures Before(r[i], r[j])
    decreases j
  {
    if i + 1 < j {
      RankingAscends(s, r, i, j - 1);
      assert InOrder(r, j - 1);
      TextBeforeIsTransitive(r[i].text, r[j-1].text, r[j].text);
    } else {
      assert InOrder(r, i);
    }
  }

  lemma RankedIsDistinct(s: set<Id>)
    ensures Distinct(Ranked(s))
  {
    var r := Ranked(s);
    forall i, j | 0 <= i < j < |r| ensures r[i] != r[j] {
      RankingAscends(s, r, i, j);
      TextBeforeIsTotal(r[i].text, r[j].text);
    }
  }

  /** A set has one ranking, so the order of a scan is determined by the keys. */
  lemma {:induction false} RankingIsUnique(s: set<Id>, q: seq<Id>, r: seq<Id>)
    requires IsRanking(s, q) && IsRanking(s, r)
    ensures q == r
  {
    forall k | 0 <= k < |q| ensures q[k] == r[k] { RankingAgreesAt(s, q, r, k); }
  }

  lemma {:induction false} RankingAgreesAt(s: set<Id>, q: seq<Id>, r: seq<Id>, k: nat)
    requires IsRanking(s, q) && IsRanking(s, r) && k < |q|
    ensures q[k] == r[k]
  {
    forall i | 0 <= i < k ensures q[i] == r[i] { RankingAgreesAt(s, q, r, i); }
    var i := PlaceOf(s, q, r[k]);
    var j := PlaceOf(s, r, q[k]);
    if i < k { RankingAscends(s, r, i, k); TextBeforeIsTotal(r[i].text, r[k].text); }
    if j < k { RankingAscends(s, q, j, k); TextBeforeIsTotal(q[j].text, q[k].text); }
    if k < i && k < j {
      RankingAscends(s, q, k, i);
      RankingAscends(s, r, k, j);
      TextBeforeIsTotal(q[k].text, r[k].text);
    }
  }

  lemma PlaceOf(s: set<Id>, q: seq<Id>, x: Id) returns (i: nat)
    requires IsRanking(s, q) && x in s
    ensures i < |q| && q[i] == x
  {
    assert x in q;
    i :| i < |q| && q[i] == x;
  }

  /** Visits the keys of a tree in order. */
  method Scan(s: set<Id>) returns (r: seq<Id>)
    ensures r == Ranked(s)
  {
    r := [];
    var rest := s;
    while rest != {}
      invariant |r| + |rest| == |s| && rest <= s
      invariant forall x :: x in s <==> x in r || x in rest
      invariant forall x :: x in r ==> x !in rest
      invariant forall i :: InOrder(r, i)
      invariant r != [] ==> forall x :: x in rest ==> Before(r[|r|-1], x)
      decreases |rest|
    {
      HasLeast(rest);
      var m :| IsLeast(m, rest);
      forall i ensures InOrder(r + [m], i) { assert InOrder(r, i); }
      rest := rest - {m};
      r := r + [m];
    }
    RankingIsUnique(s, r, Ranked(s));
  }

  // ----- sums -----

  ghost function Sum(s: seq<Id>, f: Id -> int): int {
    if s == [] then 0 else Sum(s[..|s|-1], f) + f(s[|s|-1])
  }

  lemma {:induction false} SumSame(s: seq<Id>, f: Id -> int, g: Id -> int)
    requires forall x :: x in s ==> f(x) == g(x)
    ensures Sum(s, f) == Sum(s, g)
  {
    if s != [] { SumSame(s[..|s|-1], f, g); }
  }

  lemma {:induction false} SumSplit(s: seq<Id>, f: Id -> int, g: Id -> int, h: Id -> int)
    requires forall x :: x in s ==> g(x) == f(x) + h(x)
    ensures Sum(s, g) == Sum(s, f) + Sum(s, h)
  {
    if s != [] { SumSplit(s[..|s|-1], f, g, h); }
  }

  /** Changing f at one member of a duplicate-free list moves the sum by that change. */
  lemma {:induction false} SumUpdate(s: seq<Id>, f: Id -> int, g: Id -> int, x: Id)
    requires Distinct(s) && x in s
    requires forall y :: y in s && y != x ==> f(y) == g(y)
    ensures Sum(s, g) == Sum(s, f) + g(x) - f(x)
  {
    var n := |s| - 1;
    if s[n] == x {
      SumSame(s[..n], f, g);
    } else {
      SumUpdate(s[..n], f, g, x);
    }
  }

  lemma {:induction false} SumDrop(s: seq<Id>, k: nat, f: Id -> int)
    requires k < |s|
    ensures Sum(s[..k] + s[k+1..], f) == Sum(s, f) - f(s[k])
  {
    var n := |s| - 1;
    if k == n {
      assert s[..k] + s[k+1..] == s[..n];
    } else {
      SumDrop(s[..n], k, f);
      var t := s[..k] + s[k+1..];
      assert t[..|t|-1] == s[..n][..k] + s[..n][k+1..];
    }
  }

  lemma {:induction false} SumPositive(s: seq<Id>, f: Id -> int) returns (x: Id)
    requires 0 < Sum(s, f)
    ensures x in s && 0 < f(x)
  {
    var n := |s| - 1;
    if 0 < f(s[n]) {
      x := s[n];
    } else {
      x := SumPositive(s[..n], f);
    }
  }

  lemma {:induction false} SumNonNeg(s: seq<Id>, f: Id -> int)
    requires forall x :: x in s ==> 0 <= f(x)
    ensures 0 <= Sum(s, f) && forall x :: x in s ==> f(x) <= Sum(s, f)
  {
    if s != [] { SumNonNeg(s[..|s|-1], f); }
  }

  lemma {:induction false} SumZero(s: seq<Id>, f: Id -> int)
    requires forall x :: x in s ==> f(x) == 0
    ensures Sum(s, f) == 0
  {
    if s != [] { SumZero(s[..|s|-1], f); }
  }

  lemma FirstIsMember<T>(s: seq<T>)
    requires s != []
    ensures s[0] in s
  {
  }

  /** A sum over a duplicate-free list depends only on which members it has. */
  lemma {:induction false} SumOfSameMembers(s: seq<Id>, t: seq<Id>, f: Id -> int)
    requires Distinct(s) && Distinct(t)
    requires forall x :: x in s <==> x in t
    ensures Sum(s, f) == Sum(t, f)
  {
    if s != [] {
      var n := |s| - 1;
      assert s[n] in t;
      var k :| 0 <= k < |t| && t[k] == s[n];
      var t' := t[..k] + t[k+1..];
      assert Distinct(t');
      forall x ensures x in s[..n] <==> x in t' {
        if x in t' { assert x in t && x != t[k]; }
        if x in s[..n] {
          assert x in s && x in t && x != s[n];
        }
      }
      SumDrop(t, k, f);
      SumOfSameMembers(s[..n], t', f);
    } else if t != [] {
      FirstIsMember(t);
    }
  }

  // ----- cardinality -----

  lemma {:induction false} CardBelow<T>(a: set<T>, b: set<T>)
    requires a <= b
    ensures |a| <= |b|
    ensures |a| == |b| ==> a == b
  {
    if a != {} {
      var x :| x in a;
      CardBelow(a - {x}, b - {x});
    }
  }

  /** An injection from a into b bounds |a| by |b|. */
  lemma {:induction false} CardInjection(a: set<Id>, b: set<Id>, f: map<Id, Id>)
    requires f.Keys == a
    requires forall x :: x in a ==> f[x] in b
    requires forall x, y :: x in a && y in a && f[x] == f[y] ==> x == y
    ensures |a| <= |b|
  {
    if a != {} {
      var x :| x in a;
      CardInjection(a - {x}, b - {f[x]}, f - {x});
    }
  }
}
