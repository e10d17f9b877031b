/** The read-only queries of the storage layer, stated over a snapshot of a table's values in
    insertion order (what `Array.from(map.values())` yields). */
module Queries {
  import opened Entities
  import opened Text
  import opened Arrays
  import opened Ranking

  /** The predicate `getUserByUsername` searches with. */
  function HasUsername(username: string): User -> bool {
    (u: User) => u.username == username
  }

  /** The predicate `getCategory` searches with. */
  function HasSlug(slug: string): Category -> bool {
    (c: Category) => c.slug == slug
  }

  /** The `category` argument of `getScripts` filters unless it is absent, empty or the sentinel "all". */
  predicate FiltersByCategory(category: Option<string>) {
    Truthy(category) && category.value != "all"
  }

  /** Whether `x` passes both filters of `getScripts`: the category matches exactly, and the lower-cased
      search text is a substring of the lower-cased name or of the lower-cased description. */
  ghost predicate Selected(x: Script, category: Option<string>, search: Option<string>) {
    && (FiltersByCategory(category) ==> x.category == category.value)
    && (Truthy(search) ==>
          ContainsSubstring(ToLower(x.name), ToLower(search.value))
          || ContainsSubstring(ToLower(x.description), ToLower(search.value)))
  }

  function InCategory(slug: string): Script -> bool {
    (x: Script) => x.category == slug
  }

  /** The search predicate with the search text already lower-cased, as the source computes it once. */
  function Mentions(searchLower: string): Script -> bool {
    (x: Script) => Includes(ToLower(x.name), searchLower) || Includes(ToLower(x.description), searchLower)
  }

  /** The two filters of `getScripts`, before sorting. */
  function Selection(all: seq<Script>, category: Option<string>, search: Option<string>): (r: seq<Script>)
    ensures forall x {:trigger x in r} :: x in r <==> x in all && Selected(x, category, search)
    ensures forall x {:trigger multiset(r)[x]} ::
      multiset(r)[x] == if Selected(x, category, search) then multiset(all)[x] else 0
  {
    var byCategory := if FiltersByCategory(category) then Filter(all, InCategory(category.value)) else all;
    if Truthy(search) then Filter(byCategory, Mentions(ToLower(search.value))) else byCategory
  }

  /** `getScripts`: the selected scripts, most viewed first, ties in snapshot order. */
  function ListScripts(all: seq<Script>, category: Option<string>, search: Option<string>): (r: seq<Script>)
    ensures StableSortOf(r, Selection(all, category, search))
    ensures forall x {:trigger x in r} :: x in r <==> x in all && Selected(x, category, search)
  {
    var selected := Selection(all, category, search);
    SortByViewsIsStableSort(selected);
    var r := SortByViews(selected);
    assert forall x {:trigger x in r} :: x in r <==> x in multiset(selected);
    r
  }

  /** The sentinel "all" disables the category filter, although "all" is also a category slug. */
  lemma AllMeansNoFilter(all: seq<Script>, search: Option<string>)
    ensures ListScripts(all, Some("all"), search) == ListScripts(all, None, search)
  {
  }

  /** On a snapshot in insertion order the listing is ranked: more views first, ties in insertion order. */
  lemma ListScriptsRanked(all: seq<Script>, category: Option<string>, search: Option<string>)
    requires IdsIncreasing(all)
    ensures Ranked(ListScripts(all, category, search))
  {
    var byCategory := if FiltersByCategory(category) then Filter(all, InCategory(category.value)) else all;
    if FiltersByCategory(category) {
      FilterKeepsIdsIncreasing(all, InCategory(category.value));
    }
    if Truthy(search) {
      FilterKeepsIdsIncreasing(byCategory, Mentions(ToLower(search.value)));
    }
    SortByViewsRanked(Selection(all, category, search));
  }

  /** The predicate `getFeaturedScripts` filters with. */
  const IsFeatured: Script -> bool := (x: Script) => x.isFeatured

  /** The predicate `getPopularScripts` filters with. */
  const IsPopular: Script -> bool := (x: Script) => x.isPopular

  /** `getFeaturedScripts`: the featured scripts, unsorted. */
  function Featured(all: seq<Script>): (r: seq<Script>)
    ensures forall x {:trigger x in r} :: x in r <==> x in all && x.isFeatured
    ensures forall x {:trigger multiset(r)[x]} :: multiset(r)[x] == if x.isFeatured then multiset(all)[x] else 0
  {
    Filter(all, IsFeatured)
  }

  /** On a snapshot in insertion order the featured scripts stay in insertion order. */
  lemma FeaturedInOrder(all: seq<Script>)
    requires IdsIncreasing(all)
    ensures IdsIncreasing(Featured(all))
  {
    FilterKeepsIdsIncreasing(all, IsFeatured);
  }

  /** `getPopularScripts`: the popular scripts, most viewed first. */
  function PopularRanking(all: seq<Script>): (r: seq<Script>)
    ensures StableSortOf(r, Filter(all, IsPopular))
    ensures forall x {:trigger x in r} :: x in r <==> x in all && x.isPopular
  {
    var popular := Filter(all, IsPopular);
    SortByViewsIsStableSort(popular);
    var r := SortByViews(popular);
    assert forall x {:trigger x in r} :: x in r <==> x in multiset(popular);
    r
  }

  /** On a snapshot in insertion order the popular listing is ranked. */
  lemma PopularRanked(all: seq<Script>)
    requires IdsIncreasing(all)
    ensures Ranked(PopularRanking(all))
  {
    FilterKeepsIdsIncreasing(all, IsPopular);
    SortByViewsRanked(Filter(all, IsPopular));
  }
}
