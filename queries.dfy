/**
 * The LINQ part of the demonstration: sorting a list of bikes by brand with
 * List.Sort and a comparison lambda, and filtering and projecting it with
 * Where and Select. The list is modelled by the views of the bikes in it.
 */
module Queries {
  import opened Numbers
  import opened Bikes

  /** Enumerable.Where: the elements satisfying p, in their original order. */
  function Where<T>(s: seq<T>, p: T -> bool): (r: seq<T>)
    ensures |r| <= |s|
    ensures forall i :: 0 <= i < |r| ==> p(r[i])
  {
    if s == [] then [] else (if p(s[0]) then [s[0]] else []) + Where(s[1..], p)
  }

  /** Where keeps every occurrence of an element satisfying p and drops every other. */
  lemma {:induction false} WhereCounts<T>(s: seq<T>, p: T -> bool, x: T)
    ensures multiset(Where(s, p))[x] == if p(x) then multiset(s)[x] else 0
  {
    if s != [] {
      WhereCounts(s[1..], p, x);
      assert s == [s[0]] + s[1..];
    }
  }

  /** Filtering a concatenation filters each part: Where keeps the order of the list. */
  lemma {:induction false} WhereAppend<T>(a: seq<T>, b: seq<T>, p: T -> bool)
    ensures Where(a + b, p) == Where(a, p) + Where(b, p)
  {
    if a != [] {
      assert (a + b)[1..] == a[1..] + b;
      WhereAppend(a[1..], b, p);
      var h := if p(a[0]) then [a[0]] else [];
      assert h + Where(a[1..], p) + Where(b, p) == h + (Where(a[1..], p) + Where(b, p));
    } else {
      assert a + b == b;
    }
  }

  /** Enumerable.Select: f applied to each element, in order. */
  function Select<T, U>(s: seq<T>, f: T -> U): (r: seq<U>)
    ensures |r| == |s|
    ensures forall i :: 0 <= i < |s| ==> r[i] == f(s[i])
  {
    if s == [] then [] else [f(s[0])] + Select(s[1..], f)
  }

  predicate SortedBy<T>(s: seq<T>, key: T -> int) {
    forall i, j :: 0 <= i < j < |s| ==> key(s[i]) <= key(s[j])
  }

  /** x placed into s before the first element whose key is at least key(x)'s. */
  function Insert<T>(x: T, s: seq<T>, key: T -> int): (r: seq<T>)
    ensures |r| == |s| + 1
  {
    if s == [] then [x]
    else if key(x) <= key(s[0]) then [x] + s
    else [s[0]] + Insert(x, s[1..], key)
  }

  /** Insertion adds exactly one occurrence of x. */
  lemma {:induction false} InsertPermutes<T>(x: T, s: seq<T>, key: T -> int)
    ensures multiset(Insert(x, s, key)) == multiset(s) + multiset{x}
  {
    if s != [] && key(s[0]) < key(x) {
      InsertPermutes(x, s[1..], key);
      assert s == [s[0]] + s[1..];
    }
  }

  /** Every element of Insert(x, s) is an element of s or x itself. */
  lemma InsertElements<T>(x: T, s: seq<T>, key: T -> int, i: int)
    requires 0 <= i < |Insert(x, s, key)|
    ensures Insert(x, s, key)[i] == x || Insert(x, s, key)[i] in s
  {
    InsertPermutes(x, s, key);
    assert Insert(x, s, key)[i] in multiset(Insert(x, s, key));
  }

  /** Insertion into a sorted sequence keeps it sorted. */
  lemma {:induction false} InsertSorted<T>(x: T, s: seq<T>, key: T -> int)
    requires SortedBy(s, key)
    ensures SortedBy(Insert(x, s, key), key)
  {
    if s != [] && key(s[0]) < key(x) {
      var rest := Insert(x, s[1..], key);
      InsertSorted(x, s[1..], key);
      forall i | 0 <= i < |rest|
        ensures key(s[0]) <= key(rest[i])
      {
        InsertElements(x, s[1..], key, i);
      }
      assert Insert(x, s, key) == [s[0]] + rest;
    }
  }

  /**
   * List.Sort with a comparison of keys: the result is ordered by key and is a
   * permutation of the input. List.Sort is not stable, so nothing is promised
   * about the relative order of elements with equal keys.
   */
  function SortBy<T>(s: seq<T>, key: T -> int): (r: seq<T>)
    ensures SortedBy(r, key)
    ensures multiset(r) == multiset(s)
  {
    if s == [] then []
    else
      var rest := SortBy(s[1..], key);
      InsertSorted(s[0], rest, key);
      InsertPermutes(s[0], rest, key);
      assert s == [s[0]] + s[1..];
      Insert(s[0], rest, key)
  }

  /** The comparison `b1.Brand.CompareTo(b2.Brand)`: brands compare by their underlying values. */
  function BrandKey(b: BikeView): int {
    BrandValue(b.brand) as int
  }

  /** `bikes.Sort((b1, b2) => b1.Brand.CompareTo(b2.Brand))`. */
  function SortByBrand(bikes: seq<BikeView>): (r: seq<BikeView>)
    ensures forall i, j :: 0 <= i < j < |r| ==> BrandValue(r[i].brand) <= BrandValue(r[j].brand)
    ensures multiset(r) == multiset(bikes)
  {
    SortBy(bikes, BrandKey)
  }

  /** Keys are pairwise distinct. */
  predicate DistinctKeys<T>(s: seq<T>, key: T -> int) {
    forall i, j :: 0 <= i < j < |s| ==> key(s[i]) != key(s[j])
  }

  lemma SortedPermutationHead<T>(a: seq<T>, b: seq<T>, key: T -> int)
    requires SortedBy(a, key) && SortedBy(b, key) && DistinctKeys(a, key)
    requires multiset(a) == multiset(b) && a != []
    ensures b != [] && a[0] == b[0]
  {
    assert a[0] in multiset(b);
    var j :| 0 <= j < |b| && b[j] == a[0];
    assert b[0] in multiset(a);
    var i :| 0 <= i < |a| && a[i] == b[0];
    assert key(a[0]) <= key(a[i]) && key(b[0]) <= key(b[j]);
  }

  /** Removing the equal heads of two permutations leaves permutations. */
  lemma TailPermutation<T>(a: seq<T>, b: seq<T>)
    requires a != [] && b != [] && a[0] == b[0] && multiset(a) == multiset(b)
    ensures multiset(a[1..]) == multiset(b[1..])
  {
    assert a == [a[0]] + a[1..] && b == [b[0]] + b[1..];
    assert multiset(a[1..]) == multiset(a) - multiset{a[0]};
    assert multiset(b[1..]) == multiset(b) - multiset{b[0]};
  }

  /** A sorted permutation is unique when no two elements share a key. */
  lemma {:induction false} SortedPermutationUnique<T>(a: seq<T>, b: seq<T>, key: T -> int)
    requires SortedBy(a, key) && SortedBy(b, key) && DistinctKeys(a, key)
    requires multiset(a) == multiset(b)
    ensures a == b
  {
    if a == [] {
      assert |b| == |multiset(b)| == 0;
    } else {
      SortedPermutationHead(a, b, key);
      TailPermutation(a, b);
      SortedPermutationUnique(a[1..], b[1..], key);
      assert a == [a[0]] + a[1..] && b == [b[0]] + b[1..];
    }
  }

  /** The first filter of the query: `b.Brand == BikeBrand.BMC`. */
  predicate IsBmc(b: BikeView) {
    b.brand == BMC
  }

  /** The second filter: `!b.IsBroken && !b.HasTassles`. */
  predicate IsPlain(b: BikeView) {
    !b.isBroken && !b.hasTassles
  }

  /** Two chained Where filters keep what satisfies both conditions. */
  lemma {:induction false} WhereWhere<T>(s: seq<T>, p: T -> bool, q: T -> bool, both: T -> bool)
    requires forall x :: both(x) == (p(x) && q(x))
    ensures Where(Where(s, p), q) == Where(s, both)
  {
    if s != [] {
      var h := if p(s[0]) then [s[0]] else [];
      WhereAppend(h, Where(s[1..], p), q);
      WhereWhere(s[1..], p, q, both);
    }
  }

  /** Filtering projections is projecting the elements whose projection passes the filter. */
  lemma {:induction false} WhereSelect<T, U>(s: seq<T>, f: T -> U, p: U -> bool, pf: T -> bool)
    requires forall x :: pf(x) == p(f(x))
    ensures Where(Select(s, f), p) == Select(Where(s, pf), f)
  {
    if s != [] {
      assert Select(s, f)[1..] == Select(s[1..], f);
      WhereSelect(s[1..], f, p, pf);
    }
  }

  /** `b.ToString()`. */
  function ToStringOf(b: BikeView): string {
    TypeName(b.runtimeClass)
  }

  predicate IsPlainBmc(b: BikeView) {
    IsBmc(b) && IsPlain(b)
  }

  /**
   * `bikes.Where(b => b.Brand == BMC).Where(b => !b.IsBroken && !b.HasTassles)
   * .Select(b => b.ToString())`: the type names of the BMC bikes that are
   * neither broken nor carry tassles, in list order.
   */
  function PlainBmcNames(bikes: seq<BikeView>): (r: seq<string>)
    ensures r == Select(Where(bikes, IsPlainBmc), ToStringOf)
  {
    WhereWhere(bikes, IsBmc, IsPlain, IsPlainBmc);
    Select(Where(Where(bikes, IsBmc), IsPlain), ToStringOf)
  }

  /** The anonymous `new { Name, IsAwesome }` summary of a bike. */
  datatype BikeSummary = BikeSummary(name: string, isAwesome: bool)

  function Summarize(b: BikeView): BikeSummary {
    BikeSummary(b.name, !b.isBroken && b.hasTassles)
  }

  predicate IsAwesome(b: BikeView) {
    !b.isBroken && b.hasTassles
  }

  predicate SummaryIsAwesome(s: BikeSummary) {
    s.isAwesome
  }

  function SummaryName(s: BikeSummary): string {
    s.name
  }

  function NameOf(b: BikeView): string {
    b.name
  }

  /**
   * `bikes.Select(Summarize).Where(b => b.IsAwesome)`, then the names the loop
   * prints: the names of the unbroken bikes with tassles, in list order.
   */
  function AwesomeNames(bikes: seq<BikeView>): (r: seq<string>)
    ensures r == Select(Where(bikes, IsAwesome), NameOf)
  {
    WhereSelect(bikes, Summarize, SummaryIsAwesome, IsAwesome);
    SelectCompose(Where(bikes, IsAwesome), Summarize, SummaryName, NameOf);
    Select(Where(Select(bikes, Summarize), SummaryIsAwesome), SummaryName)
  }

  lemma {:induction false} SelectCompose<T, U, V>(s: seq<T>, f: T -> U, g: U -> V, gf: T -> V)
    requires forall x :: gf(x) == g(f(x))
    ensures Select(Select(s, f), g) == Select(s, gf)
  {
  }

  /**
   * The demonstration: three bikes made with the three-argument constructor
   * (Electra, Gitane, BMC), sorted by brand to BMC, Electra, Gitane; the BMC
   * query finds the one plain BMC bike, whose ToString() is its type name,
   * and no bike is awesome.
   */
  method BikeQueries() returns (sorted: seq<BikeView>, plainBmc: seq<string>, awesome: seq<string>)
    ensures |sorted| == 3
    ensures sorted[0].brand == BMC && sorted[1].brand == Electra && sorted[2].brand == Gitane
    ensures plainBmc == ["simpleserver.Bicycle"]
    ensures awesome == []
  {
    var electra := new Bicycle.WithBrand(5, 1, Electra);
    var gitane := new Bicycle.WithBrand(5, 2, Gitane);
    var bmc := new Bicycle.WithBrand(5, 3, BMC);
    var e, g, b := electra.View(), gitane.View(), bmc.View();
    sorted := SortByBrand([e, g, b]);
    assert SortedBy(sorted, BrandKey);
    SortedDemo(e, g, b, sorted);
    plainBmc := PlainBmcNames(sorted);
    awesome := AwesomeNames(sorted);
    QueriesDemo(b, e, g);
  }

  lemma SortedDemo(e: BikeView, g: BikeView, b: BikeView, sorted: seq<BikeView>)
    requires e.brand == Electra && g.brand == Gitane && b.brand == BMC
    requires SortedBy(sorted, BrandKey) && multiset(sorted) == multiset([e, g, b])
    ensures sorted == [b, e, g]
  {
    assert multiset([b, e, g]) == multiset([e, g, b]);
    DemoOrdered(e, g, b);
    SortedPermutationUnique([b, e, g], sorted, BrandKey);
  }

  /** BMC, Electra, Gitane is in strictly increasing brand order. */
  lemma DemoOrdered(e: BikeView, g: BikeView, b: BikeView)
    requires e.brand == Electra && g.brand == Gitane && b.brand == BMC
    ensures SortedBy([b, e, g], BrandKey) && DistinctKeys([b, e, g], BrandKey)
  {
    assert BrandKey(b) == 1 && BrandKey(e) == 42 && BrandKey(g) == 43;
  }

  lemma QueriesDemo(b: BikeView, e: BikeView, g: BikeView)
    requires b.brand == BMC && e.brand == Electra && g.brand == Gitane
    requires b.runtimeClass == BicycleClass && !b.isBroken && !b.hasTassles
    requires !e.hasTassles && !g.hasTassles
    ensures PlainBmcNames([b, e, g]) == ["simpleserver.Bicycle"]
    ensures AwesomeNames([b, e, g]) == []
  {
    var s := [b, e, g];
    assert s[1..][1..] == [g] && s[1..] == [e, g];
    assert Where([g], IsPlainBmc) == [];
    assert Where([e, g], IsPlainBmc) == [];
    assert Where(s, IsPlainBmc) == [b];
    assert Where([g], IsAwesome) == [];
    assert Where([e, g], IsAwesome) == [];
    assert Where(s, IsAwesome) == [];
  }
}
