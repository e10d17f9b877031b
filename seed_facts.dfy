/** What the queries return on the freshly seeded store, whatever the Lua sources of the seed scripts. */
module SeedFacts {
  import opened Entities
  import opened Text
  import opened Arrays
  import opened Ranking
  import opened Queries
  import Seed

  /** Every seeded script, with its id and its Lua source. */
  lemma SeedScriptsAt(code: seq<string>)
    requires |code| == |Seed.Scripts|
    ensures |Seed.SeededScripts(code)| == 9
    ensures forall i :: 0 <= i < 9 ==> Seed.SeededScripts(code)[i] == Seed.ScriptOf(Seed.Scripts[i], code[i], i + 1)
    ensures IdsIncreasing(Seed.SeededScripts(code))
  {
  }

  /** The views of the seed scripts: "Universal Script Hub" (index 6) has strictly the most and
      "Admin Commands Hub" (index 1) strictly the fewest. */
  lemma SeedViewsExtremes()
    ensures forall i :: 0 <= i < |Seed.Scripts| && i != 6 ==> Seed.Scripts[i].views < Seed.Scripts[6].views
    ensures forall i :: 0 <= i < |Seed.Scripts| && i != 1 ==> Seed.Scripts[i].views > Seed.Scripts[1].views
  {
    var views := [1200, 892, 2100, 1800, 3200, 2700, 15200, 8700, 8950];
    assert forall i :: 0 <= i < |Seed.Scripts| ==> Seed.Scripts[i].views == views[i];
  }

  /** Unfiltered, the listing has every script, starts with the one with strictly the most views and
      ends with the one with strictly the fewest. */
  lemma ListingEnds(all: seq<Script>, top: int, bottom: int)
    requires 0 <= top < |all| && 0 <= bottom < |all|
    requires forall i :: 0 <= i < |all| && i != top ==> all[i].views < all[top].views
    requires forall i :: 0 <= i < |all| && i != bottom ==> all[i].views > all[bottom].views
    ensures |ListScripts(all, None, None)| == |all|
    ensures ListScripts(all, None, None)[0] == all[top]
    ensures ListScripts(all, None, None)[|all| - 1] == all[bottom]
  {
    var r := ListScripts(all, None, None);
    assert multiset(r) == multiset(Selection(all, None, None)) == multiset(all);
    assert |r| == |multiset(r)| == |multiset(all)| == |all|;
    var n := |all|;
    assert r[0] in r && r[n - 1] in r;
    var first :| 0 <= first < n && all[first] == r[0];
    var last :| 0 <= last < n && all[last] == r[n - 1];
    assert all[top] in r && all[bottom] in r;
    var t :| 0 <= t < n && r[t] == all[top];
    var b :| 0 <= b < n && r[b] == all[bottom];
    assert r[0].views >= r[t].views;
    assert r[n - 1].views <= r[b].views;
  }

  /** With no filter the most viewed seed script, "Universal Script Hub", comes first and the least
      viewed, "Admin Commands Hub", comes last. */
  lemma SeedListingEnds(code: seq<string>)
    requires |code| == |Seed.Scripts|
    ensures |ListScripts(Seed.SeededScripts(code), None, None)| == 9
    ensures ListScripts(Seed.SeededScripts(code), None, None)[0].name == "Universal Script Hub"
    ensures ListScripts(Seed.SeededScripts(code), None, None)[8].name == "Admin Commands Hub"
  {
    SeedScriptsAt(code);
    SeedViewsExtremes();
    ListingEnds(Seed.SeededScripts(code), 6, 1);
  }

  /** When exactly the entries at `a` and `b` are featured, the featured list is those two, in
      insertion order. */
  lemma FeaturedExactlyTwo(all: seq<Script>, a: int, b: int)
    requires IdsIncreasing(all)
    requires 0 <= a < b < |all|
    requires forall i :: 0 <= i < |all| ==> (all[i].isFeatured <==> i == a || i == b)
    ensures Featured(all) == [all[a], all[b]]
  {
    var r := Featured(all);
    FeaturedInOrder(all);
    assert forall x :: x in r ==> x == all[a] || x == all[b];
    assert all[a] in r && all[b] in r;
    var ia :| 0 <= ia < |r| && r[ia] == all[a];
    var ib :| 0 <= ib < |r| && r[ib] == all[b];
    assert ia < ib;
    assert r[0] in r && r[1] in r;
    forall i | 0 <= i < |r| ensures (i == 0 && r[i] == all[a]) || (i == 1 && r[i] == all[b]) {
      assert r[i] in r;
    }
    assert r[|r| - 1] in r;
  }

  /** The seeded featured scripts are "Universal Script Hub" and then "Advanced Exploit Suite". */
  lemma SeedFeatured(code: seq<string>)
    requires |code| == |Seed.Scripts|
    ensures |Featured(Seed.SeededScripts(code))| == 2
    ensures Featured(Seed.SeededScripts(code))[0].name == "Universal Script Hub"
    ensures Featured(Seed.SeededScripts(code))[1].name == "Advanced Exploit Suite"
  {
    SeedScriptsAt(code);
    var featured := [false, false, false, false, false, false, true, true, false];
    assert forall i :: 0 <= i < |Seed.Scripts| ==> Seed.Scripts[i].isFeatured == featured[i];
    FeaturedExactlyTwo(Seed.SeededScripts(code), 6, 7);
  }

  /** When exactly one entry passes the filters, the listing is that entry alone. */
  lemma ListingExactlyOne(all: seq<Script>, category: Option<string>, search: Option<string>, k: int)
    requires IdsIncreasing(all)
    requires 0 <= k < |all|
    requires forall i :: 0 <= i < |all| ==> (Selected(all[i], category, search) <==> i == k)
    ensures ListScripts(all, category, search) == [all[k]]
  {
    var r := ListScripts(all, category, search);
    ListScriptsRanked(all, category, search);
    assert forall x :: x in r ==> x == all[k];
    assert all[k] in r;
    assert r[0] in r;
    forall i | 0 <= i < |r| ensures i == 0 && r[i] == all[k] {
      assert r[i] in r;
    }
    assert r[|r| - 1] in r;
  }

  /** Filtering the seed by category "admin" leaves "Admin Commands Hub" alone. */
  lemma SeedAdminOnly(code: seq<string>)
    requires |code| == |Seed.Scripts|
    ensures |ListScripts(Seed.SeededScripts(code), Some("admin"), None)| == 1
    ensures ListScripts(Seed.SeededScripts(code), Some("admin"), None)[0].name == "Admin Commands Hub"
  {
    SeedScriptsAt(code);
    var all := Seed.SeededScripts(code);
    var slugs := ["game", "admin", "utility", "gui", "exploit", "game", "gui", "exploit", "universal"];
    assert forall i :: 0 <= i < |Seed.Scripts| ==> Seed.Scripts[i].category == slugs[i];
    assert FiltersByCategory(Some("admin"));
    forall i | 0 <= i < |all| ensures Selected(all[i], Some("admin"), None) <==> i == 1 {
      assert all[i].category == slugs[i];
    }
    ListingExactlyOne(all, Some("admin"), None, 1);
  }

  /** Without a category filter, a script whose name holds `needle` is listed by a search for any
      text that lower-cases like `needle`. */
  lemma SearchFindsName(all: seq<Script>, k: int, needle: string, search: string, i: int)
    requires 0 <= k < |all|
    requires OccursAt(all[k].name, needle, i)
    requires search != "" && ToLower(search) == ToLower(needle)
    ensures all[k] in ListScripts(all, None, Some(search))
  {
    LowerKeepsOccurrence(all[k].name, needle, i);
    assert Selected(all[k], None, Some(search));
  }

  /** Searching the seed for "esp" finds "Universal ESP GUI": the search ignores case. */
  lemma SeedSearchEsp(code: seq<string>)
    requires |code| == |Seed.Scripts|
    ensures Seed.SeededScripts(code)[3].name == "Universal ESP GUI"
    ensures Seed.SeededScripts(code)[3] in ListScripts(Seed.SeededScripts(code), None, Some("esp"))
  {
    SeedScriptsAt(code);
    assert Seed.SeededScripts(code)[3].name[10..13] == "ESP";
    assert LowerChar('E') == 'e' && LowerChar('S') == 's' && LowerChar('P') == 'p';
    assert ToLower("ESP") == "esp" == ToLower("esp");
    SearchFindsName(Seed.SeededScripts(code), 3, "ESP", "esp", 10);
  }

  /** The seeded categories have slugs "all", "game", "utility", "admin", "exploit", "gui" in that
      order, so "all" names a real category, while the seed script "R4D Hub" refers to the slug
      "universal", which no category has. */
  lemma SeedDanglingCategory(code: seq<string>)
    requires |code| == |Seed.Scripts|
    ensures Seed.SeededCategories()[0].slug == "all"
    ensures Find(Seed.SeededCategories(), HasSlug("all")) == Some(Seed.SeededCategories()[0])
    ensures Seed.SeededScripts(code)[8].category == "universal"
    ensures Find(Seed.SeededCategories(), HasSlug("universal")) == None
  {
    SeedScriptsAt(code);
    var cats := Seed.SeededCategories();
    var slugs := ["all", "game", "utility", "admin", "exploit", "gui"];
    assert |cats| == 6;
    assert forall i :: 0 <= i < 6 ==> cats[i].slug == slugs[i];
    assert HasSlug("all")(cats[0]);
  }
}
