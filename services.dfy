/**
 * The provider listing of the "Browse Service Providers" page: the static
 * catalog and the search/category filter applied to it on every keystroke
 * and category change.
 */
module Services {
  import opened JsStrings

  /** One provider card. `ratingTenths` holds the displayed rating times ten (4.9 is 49). */
  datatype Provider = Provider(
    id: nat,
    name: string,
    category: string,
    specialty: string,
    ratingTenths: nat,
    reviews: nat,
    location: string,
    verified: bool,
    image: string)

  /** The category value that switches the category test off. */
  const AllCategories: string := "all"

  /** Case-insensitive substring test on the name or on the specialty. */
  predicate MatchesSearch(p: Provider, query: string): (b: bool)
    ensures b <==> ((exists i: nat :: OccursAt(Lower(p.name), Lower(query), i))
                 || (exists i: nat :: OccursAt(Lower(p.specialty), Lower(query), i)))
  {
    IncludesIff(Lower(p.name), Lower(query));
    IncludesIff(Lower(p.specialty), Lower(query));
    Includes(Lower(p.name), Lower(query)) || Includes(Lower(p.specialty), Lower(query))
  }

  /** Exact, case-sensitive category test, unless "all" is selected. */
  predicate MatchesCategory(p: Provider, category: string): (b: bool)
    ensures category == AllCategories ==> b
    ensures category != AllCategories ==> (b <==> p.category == category)
  {
    category == AllCategories || p.category == category
  }

  predicate Matches(p: Provider, query: string, category: string) {
    MatchesSearch(p, query) && MatchesCategory(p, category)
  }

  /** `allProviders.filter(...)`: keeps, in order, the providers that pass both tests. */
  function Filter(providers: seq<Provider>, query: string, category: string): (r: seq<Provider>)
    ensures |r| <= |providers|
    ensures forall p :: p in r ==> p in providers && Matches(p, query, category)
  {
    if providers == [] then []
    else
      (if Matches(providers[0], query, category) then [providers[0]] else [])
      + Filter(providers[1..], query, category)
  }

  /** The "No providers found matching your search criteria." message is shown. */
  predicate NoProvidersFound(providers: seq<Provider>, query: string, category: string) {
    |Filter(providers, query, category)| == 0
  }

  /** A provider is listed exactly when it is in the input and passes both tests. */
  lemma {:induction false} FilterMembership(providers: seq<Provider>, query: string, category: string, p: Provider)
    ensures p in Filter(providers, query, category) <==> p in providers && Matches(p, query, category)
  {
    if providers != [] {
      FilterMembership(providers[1..], query, category, p);
      assert providers == [providers[0]] + providers[1..];
    }
  }

  /** The filter keeps every copy of a matching provider and no copy of any other. */
  lemma {:induction false} FilterMultiplicity(providers: seq<Provider>, query: string, category: string, p: Provider)
    ensures multiset(Filter(providers, query, category))[p]
         == if Matches(p, query, category) then multiset(providers)[p] else 0
  {
    if providers != [] {
      FilterMultiplicity(providers[1..], query, category, p);
      assert providers == [providers[0]] + providers[1..];
      assert multiset(providers) == multiset([providers[0]]) + multiset(providers[1..]);
    }
  }

  /** The positions `from..` of `providers` whose provider passes both tests, ascending. */
  ghost function MatchingIndices(providers: seq<Provider>, query: string, category: string, from: nat): seq<nat>
    decreases |providers| - from
  {
    if from >= |providers| then []
    else
      (if Matches(providers[from], query, category) then [from] else [])
      + MatchingIndices(providers, query, category, from + 1)
  }

  /** `r` is the subsequence of `s` taken at the strictly increasing positions `idx`. */
  ghost predicate SelectsAt<T>(r: seq<T>, s: seq<T>, idx: seq<nat>) {
    && |idx| == |r|
    && (forall k :: 0 <= k < |idx| ==> idx[k] < |s| && s[idx[k]] == r[k])
    && (forall k, l :: 0 <= k < l < |idx| ==> idx[k] < idx[l])
  }

  /** The positions found from `from` on are in range and at least `from`. */
  lemma {:induction false} MatchingIndicesInRange(providers: seq<Provider>, query: string, category: string, from: nat)
    ensures forall k :: 0 <= k < |MatchingIndices(providers, query, category, from)| ==>
      from <= MatchingIndices(providers, query, category, from)[k] < |providers|
    decreases |providers| - from
  {
    if from < |providers| {
      MatchingIndicesInRange(providers, query, category, from + 1);
      var rest := MatchingIndices(providers, query, category, from + 1);
      var idx := MatchingIndices(providers, query, category, from);
      assert idx == if Matches(providers[from], query, category) then [from] + rest else rest;
    }
  }

  /** The positions found from `from` on are strictly increasing. */
  lemma {:induction false} MatchingIndicesIncreasing(providers: seq<Provider>, query: string, category: string, from: nat)
    ensures forall k, l :: 0 <= k < l < |MatchingIndices(providers, query, category, from)| ==>
      MatchingIndices(providers, query, category, from)[k] < MatchingIndices(providers, query, category, from)[l]
    decreases |providers| - from
  {
    if from < |providers| {
      MatchingIndicesIncreasing(providers, query, category, from + 1);
      MatchingIndicesInRange(providers, query, category, from + 1);
      var rest := MatchingIndices(providers, query, category, from + 1);
      var idx := MatchingIndices(providers, query, category, from);
      if Matches(providers[from], query, category) {
        assert idx == [from] + rest;
        forall k, l | 0 <= k < l < |idx|
          ensures idx[k] < idx[l]
        {
          assert idx[l] == rest[l - 1];
          if k > 0 {
            assert idx[k] == rest[k - 1];
          }
        }
      } else {
        assert idx == rest;
      }
    }
  }

  /** A position from `from` on is found exactly when its provider passes both tests. */
  lemma {:induction false} MatchingIndicesExact(providers: seq<Provider>, query: string, category: string, from: nat)
    ensures forall i :: from <= i < |providers| ==>
      (i in MatchingIndices(providers, query, category, from) <==> Matches(providers[i], query, category))
    decreases |providers| - from
  {
    if from < |providers| {
      MatchingIndicesExact(providers, query, category, from + 1);
      MatchingIndicesInRange(providers, query, category, from + 1);
      var rest := MatchingIndices(providers, query, category, from + 1);
      assert from !in rest;
      if Matches(providers[from], query, category) {
        assert MatchingIndices(providers, query, category, from) == [from] + rest;
      }
    }
  }

  /** The listing of `providers[from..]` holds, one for one, the providers at the positions found. */
  lemma {:induction false} FilterAtMatchingIndices(providers: seq<Provider>, query: string, category: string, from: nat)
    requires from <= |providers|
    ensures var idx := MatchingIndices(providers, query, category, from);
      var r := Filter(providers[from..], query, category);
      && |idx| == |r|
      && (forall k :: 0 <= k < |idx| ==> idx[k] < |providers| && providers[idx[k]] == r[k])
    decreases |providers| - from
  {
    MatchingIndicesInRange(providers, query, category, from);
    if from < |providers| {
      FilterAtMatchingIndices(providers, query, category, from + 1);
      assert providers[from..][1..] == providers[from + 1..];
    }
  }

  /**
   * The result is the input restricted to the positions whose provider passes
   * both tests, in their original order: an order-preserving subsequence with
   * nothing reordered or duplicated, and nothing matching dropped.
   */
  lemma FilterIsMatchingSubsequence(providers: seq<Provider>, query: string, category: string)
    ensures var idx := MatchingIndices(providers, query, category, 0);
      && SelectsAt(Filter(providers, query, category), providers, idx)
      && (forall i :: 0 <= i < |providers| ==> (i in idx <==> Matches(providers[i], query, category)))
  {
    MatchingIndicesInRange(providers, query, category, 0);
    MatchingIndicesIncreasing(providers, query, category, 0);
    MatchingIndicesExact(providers, query, category, 0);
    FilterAtMatchingIndices(providers, query, category, 0);
    assert providers[0..] == providers;
  }

  /** An empty query with category "all" lists the whole input. */
  lemma {:induction false} FilterNeutral(providers: seq<Provider>)
    ensures Filter(providers, "", AllCategories) == providers
  {
    if providers != [] {
      FilterNeutral(providers[1..]);
      assert Lower("") == "";
    }
  }

  /** The empty query passes every provider's text test. */
  lemma EmptyQueryMatchesEveryone(p: Provider)
    ensures MatchesSearch(p, "")
  {
    assert Lower("") == "";
  }

  /** An empty query restricts by category only. */
  lemma EmptyQueryIsCategoryOnly(providers: seq<Provider>, category: string, p: Provider)
    ensures p in Filter(providers, "", category) <==> p in providers && MatchesCategory(p, category)
  {
    FilterMembership(providers, "", category, p);
    assert Lower("") == "";
  }

  /**
   * Filtering a result again with a test that only admits providers the first
   * test admitted gives what filtering the input directly would.
   */
  lemma {:induction false} FilterRefines(providers: seq<Provider>, q1: string, c1: string, q2: string, c2: string)
    requires forall p :: Matches(p, q2, c2) ==> Matches(p, q1, c1)
    ensures Filter(Filter(providers, q1, c1), q2, c2) == Filter(providers, q2, c2)
  {
    if providers != [] {
      var head, rest := providers[0], providers[1..];
      FilterRefines(rest, q1, c1, q2, c2);
      var kept := Filter(providers, q1, c1);
      if Matches(head, q1, c1) {
        assert kept == [head] + Filter(rest, q1, c1);
        assert kept[0] == head && kept[1..] == Filter(rest, q1, c1);
      } else {
        assert !Matches(head, q2, c2);
        assert kept == Filter(rest, q1, c1);
      }
    }
  }

  /** Filtering the result again with the same query and category changes nothing. */
  lemma FilterIdempotent(providers: seq<Provider>, query: string, category: string)
    ensures Filter(Filter(providers, query, category), query, category) == Filter(providers, query, category)
  {
    FilterRefines(providers, query, category, query, category);
  }

  /** Typing more characters only narrows the list: the longer query filters the shorter query's result. */
  lemma LongerQueryNarrows(providers: seq<Provider>, query: string, more: string, category: string)
    ensures Filter(Filter(providers, query, category), query + more, category)
         == Filter(providers, query + more, category)
  {
    LowerConcat(query, more);
    forall p | Matches(p, query + more, category)
      ensures Matches(p, query, category)
    {
      IncludesPatternPrefix(Lower(p.name), Lower(query), Lower(more));
      IncludesPatternPrefix(Lower(p.specialty), Lower(query), Lower(more));
    }
    FilterRefines(providers, query, category, query + more, category);
  }

  /** Text matching ignores letter case: lower- and upper-cased queries list the same providers. */
  lemma QueryCaseInsensitive(providers: seq<Provider>, query: string, category: string)
    ensures Filter(providers, Lower(query), category) == Filter(providers, query, category)
    ensures Filter(providers, Upper(query), category) == Filter(providers, query, category)
  {
    LowerOfUpper(query);
  }

  /** The "no providers" branch is taken exactly when no input provider passes both tests. */
  lemma NoProvidersFoundIff(providers: seq<Provider>, query: string, category: string)
    ensures NoProvidersFound(providers, query, category)
        <==> forall p :: p in providers ==> !Matches(p, query, category)
  {
    forall p | p in providers
      ensures p in Filter(providers, query, category) <==> Matches(p, query, category)
    {
      FilterMembership(providers, query, category, p);
    }
    if !NoProvidersFound(providers, query, category) {
      var p := Filter(providers, query, category)[0];
      FilterMembership(providers, query, category, p);
    }
  }

  /** The categories offered by the page's category selector, besides "all". */
  const SelectableCategories: seq<string> :=
    ["Healthcare", "Home Services", "Education", "Wellness", "Professional Services"]

  /** The page's catalog (`allProviders`). */
  const AllProviders: seq<Provider> :=
    [
      Provider(1, "Dr. Amira Ben Salem", "Healthcare", "General Practitioner", 49, 127, "Tunis", true,
        "https://images.unsplash.com/photo-1559839734-2b71ea197ec2?w=400&h=400&fit=crop"),
      Provider(2, "Mohamed Trabelsi", "Home Services", "Licensed Electrician", 48, 89, "Sousse", true,
        "https://images.unsplash.com/photo-1507003211169-0a1dd7228f2d?w=400&h=400&fit=crop"),
      Provider(3, "Leila Mansour", "Education", "Math & Physics Tutor", 50, 156, "Sfax", true,
        "https://images.unsplash.com/photo-1573496359142-b8d87734a5a2?w=400&h=400&fit=crop"),
      Provider(4, "Karim Bouazizi", "Home Services", "Professional Plumber", 47, 94, "Tunis", true,
        "https://images.unsplash.com/photo-1500648767791-00dcc994a43e?w=400&h=400&fit=crop"),
      Provider(5, "Salma Hamdi", "Wellness", "Yoga & Fitness Instructor", 49, 112, "La Marsa", true,
        "https://images.unsplash.com/photo-1494790108377-be9c29b29330?w=400&h=400&fit=crop"),
      Provider(6, "Youssef Gharbi", "Professional Services", "Corporate Lawyer", 48, 78, "Tunis", true,
        "https://images.unsplash.com/photo-1472099645785-5658abf4ff4e?w=400&h=400&fit=crop")
    ]

  /** The catalog holds six providers numbered 1 to 6 in order, each in a category the selector offers. */
  lemma CatalogShape()
    ensures |AllProviders| == 6
    ensures forall i :: 0 <= i < |AllProviders| ==> AllProviders[i].id == i + 1
    ensures forall i :: 0 <= i < |AllProviders| ==> AllProviders[i].category in SelectableCategories
  {
    var ps := AllProviders;
    assert ps[0].id == 1 && ps[0].category == SelectableCategories[0];
    assert ps[1].id == 2 && ps[1].category == SelectableCategories[1];
    assert ps[2].id == 3 && ps[2].category == SelectableCategories[2];
    assert ps[3].id == 4 && ps[3].category == SelectableCategories[1];
    assert ps[4].id == 5 && ps[4].category == SelectableCategories[3];
    assert ps[5].id == 6 && ps[5].category == SelectableCategories[4];
  }

  /** Selecting "Home Services" with an empty query lists provider 2 and then provider 4. */
  lemma HomeServicesListing()
    ensures var r := Filter(AllProviders, "", "Home Services");
      |r| == 2 && r[0].id == 2 && r[1].id == 4
  {
    SecondAndFourthOfSix(AllProviders, "Home Services");
  }

  /** With an empty query, six providers of which only the second and fourth have the category give those two. */
  lemma SecondAndFourthOfSix(ps: seq<Provider>, c: string)
    requires |ps| == 6 && c != AllCategories
    requires ps[1].category == c && ps[3].category == c
    requires ps[0].category != c && ps[2].category != c && ps[4].category != c && ps[5].category != c
    ensures Filter(ps, "", c) == [ps[1], ps[3]]
  {
    OnlyFirstOfFour(ps, 2, c);
    EmptyQueryMatchesEveryone(ps[1]);
    FilterStep(ps, 1, "", c);
    assert Filter(ps[1..], "", c) == [ps[1], ps[3]];
    FilterStep(ps, 0, "", c);
    assert ps[0..] == ps;
  }

  /** With an empty query, of the four providers from position `k` only the second has the category: it alone is listed. */
  lemma OnlyFirstOfFour(ps: seq<Provider>, k: nat, c: string)
    requires k + 4 == |ps| && c != AllCategories
    requires ps[k + 1].category == c
    requires ps[k].category != c && ps[k + 2].category != c && ps[k + 3].category != c
    ensures Filter(ps[k..], "", c) == [ps[k + 1]]
  {
    EmptyQueryMatchesEveryone(ps[k + 1]);
    FilterStep(ps, k + 3, "", c);
    FilterStep(ps, k + 2, "", c);
    assert Filter(ps[k + 2..], "", c) == [];
    FilterStep(ps, k + 1, "", c);
    FilterStep(ps, k, "", c);
  }

  /** Filtering from position `k` decides the provider at `k` and filters from `k + 1`. */
  lemma FilterStep(ps: seq<Provider>, k: nat, query: string, category: string)
    requires k < |ps|
    ensures Filter(ps[k..], query, category)
         == (if Matches(ps[k], query, category) then [ps[k]] else []) + Filter(ps[k + 1..], query, category)
  {
    assert ps[k..][1..] == ps[k + 1..];
  }

  /** Category matching is case-sensitive: "home services" lists nobody. */
  lemma CategoryIsCaseSensitive()
    ensures NoProvidersFound(AllProviders, "", "home services")
  {
    var ps, c := AllProviders, "home services";
    assert forall i :: 0 <= i < |ps| ==> !MatchesCategory(ps[i], c);
    assert Filter(ps[5..], "", c) == [];
    assert Filter(ps[3..], "", c) == [];
    assert Filter(ps[1..], "", c) == [];
  }
}
