/** The in-memory repository: three tables keyed by sequential ids, seeded on construction. */
module Storage {
  import opened Entities
  import opened Arrays
  import opened Ranking
  import opened Queries
  import Seed

  /** The values of a table whose keys include 1 .. next - 1, in key order. Because every key is the
      counter value at the time of its insertion and no key is ever deleted, key order is the
      insertion order in which a JavaScript `Map` yields its values. */
  function InOrder<T>(m: map<int, T>, next: int): (r: seq<T>)
    requires forall k :: 1 <= k < next ==> k in m
    ensures |r| == if next <= 1 then 0 else next - 1
    ensures forall i :: 0 <= i < |r| ==> r[i] == m[i + 1]
    decreases next
  {
    if next <= 1 then [] else InOrder(m, next - 1) + [m[next - 1]]
  }

  /** A table with id counter `next`: its keys are exactly 1 .. next - 1 and each entity is stored
      under its own id. */
  ghost predicate IsTable<T>(m: map<int, T>, next: int, idOf: T -> int) {
    && next >= 1
    && (forall k :: k in m <==> 1 <= k < next)
    && (forall k :: k in m ==> idOf(m[k]) == k)
  }

  /** The id of each kind of record, as the table invariant needs it. */
  const UserId: User -> int := (u: User) => u.id
  const ScriptId: Script -> int := (s: Script) => s.id
  const CategoryId: Category -> int := (c: Category) => c.id

  /** The counter of a script that an increment operation bumps. */
  datatype Counter = Views | Downloads

  /** `s` with the counter `c` raised by `n`. */
  function BumpedBy(s: Script, c: Counter, n: nat): Script {
    match c
    case Views => s.(views := s.views + n)
    case Downloads => s.(downloads := s.downloads + n)
  }

  /** One increment of counter `c` of the script stored under `id`; an absent id changes nothing. */
  function Increment(m: map<int, Script>, id: int, c: Counter): (r: map<int, Script>)
    ensures r.Keys == m.Keys
    ensures forall k :: k in m && k != id ==> r[k] == m[k]
    ensures forall k :: k in m ==> r[k].id == m[k].id && r[k].views >= m[k].views && r[k].downloads >= m[k].downloads
  {
    if id in m then m[id := BumpedBy(m[id], c, 1)] else m
  }

  /** `n` increments in a row. */
  function IncrementTimes(m: map<int, Script>, id: int, c: Counter, n: nat): map<int, Script> {
    if n == 0 then m else Increment(IncrementTimes(m, id, c, n - 1), id, c)
  }

  /** `n` increments raise the counter by exactly `n`, and touch nothing else; with the id absent
      they change nothing at all. */
  lemma {:induction false} IncrementTimesAddsN(m: map<int, Script>, id: int, c: Counter, n: nat)
    ensures IncrementTimes(m, id, c, n).Keys == m.Keys
    ensures forall k :: k in m && k != id ==> IncrementTimes(m, id, c, n)[k] == m[k]
    ensures id in m ==> IncrementTimes(m, id, c, n)[id] == BumpedBy(m[id], c, n)
    ensures id !in m ==> IncrementTimes(m, id, c, n) == m
  {
    if n > 0 {
      var before := IncrementTimes(m, id, c, n - 1);
      IncrementTimesAddsN(m, id, c, n - 1);
      if id in m {
        assert IncrementTimes(m, id, c, n) == before[id := BumpedBy(before[id], c, 1)];
        assert BumpedBy(BumpedBy(m[id], c, n - 1), c, 1) == BumpedBy(m[id], c, n);
      }
    }
  }

  class MemStorage {
    var users: map<int, User>
    var scripts: map<int, Script>
    var categories: map<int, Category>
    var userCurrentId: int
    var scriptCurrentId: int
    var categoryCurrentId: int

    /** The store invariant: each table holds exactly the ids its counter has handed out. */
    ghost predicate Valid()
      reads this
    {
      && IsTable(users, userCurrentId, UserId)
      && IsTable(scripts, scriptCurrentId, ScriptId)
      && IsTable(categories, categoryCurrentId, CategoryId)
    }

    /** `u` is the user stored under its own id. */
    predicate HasUser(u: User)
      reads this
    {
      u.id in users && users[u.id] == u
    }

    /** `s` is the script stored under its own id. */
    predicate HasScript(s: Script)
      reads this
    {
      s.id in scripts && scripts[s.id] == s
    }

    /** `c` is the category stored under its own id. */
    predicate HasCategory(c: Category)
      reads this
    {
      c.id in categories && categories[c.id] == c
    }

    /** `Array.from(this.users.values())`. */
    function UserValues(): (r: seq<User>)
      reads this
      requires Valid()
      ensures |r| == userCurrentId - 1
      ensures forall i :: 0 <= i < |r| ==> r[i].id == i + 1 && r[i] == users[i + 1]
      ensures forall x :: x in r <==> HasUser(x)
    {
      var r := InOrder(users, userCurrentId);
      assert forall k :: k in users ==> users[k] == r[k - 1];
      r
    }

    /** `Array.from(this.scripts.values())`. */
    function ScriptValues(): (r: seq<Script>)
      reads this
      requires Valid()
      ensures |r| == scriptCurrentId - 1
      ensures forall i :: 0 <= i < |r| ==> r[i].id == i + 1 && r[i] == scripts[i + 1]
      ensures forall x :: x in r <==> HasScript(x)
      ensures IdsIncreasing(r)
    {
      var r := InOrder(scripts, scriptCurrentId);
      assert forall k :: k in scripts ==> scripts[k] == r[k - 1];
      r
    }

    /** `Array.from(this.categories.values())`. */
    function CategoryValues(): (r: seq<Category>)
      reads this
      requires Valid()
      ensures |r| == categoryCurrentId - 1
      ensures forall i :: 0 <= i < |r| ==> r[i].id == i + 1 && r[i] == categories[i + 1]
      ensures forall x :: x in r <==> HasCategory(x)
    {
      var r := InOrder(categories, categoryCurrentId);
      assert forall k :: k in categories ==> categories[k] == r[k - 1];
      r
    }

    constructor (seedCode: seq<string>)
      requires |seedCode| == |Seed.Scripts|
      ensures Valid()
      ensures users == map[] && userCurrentId == 1
      ensures categoryCurrentId == 7 && scriptCurrentId == 10
      ensures CategoryValues() == Seed.SeededCategories()
      ensures ScriptValues() == Seed.SeededScripts(seedCode)
      ensures forall k :: k in scripts ==> scripts[k].image == None
    {
      users := map[];
      scripts := map[];
      categories := map[];
      userCurrentId := 1;
      scriptCurrentId := 1;
      categoryCurrentId := 1;
      new;
      InitializeData(seedCode);
    }

    /** Stores the seed categories and then the seed scripts, each under the next id of its table. */
    method InitializeData(seedCode: seq<string>)
      requires |seedCode| == |Seed.Scripts|
      requires Valid()
      requires categories == map[] && categoryCurrentId == 1
      requires scripts == map[] && scriptCurrentId == 1
      modifies this
      ensures Valid()
      ensures users == old(users) && userCurrentId == old(userCurrentId)
      ensures categoryCurrentId == |Seed.Categories| + 1 && scriptCurrentId == |Seed.Scripts| + 1
      ensures CategoryValues() == Seed.SeededCategories()
      ensures ScriptValues() == Seed.SeededScripts(seedCode)
      ensures forall k :: k in scripts ==> scripts[k].image == None
    {
      InsertSeedCategories(Seed.Categories);
      InsertSeedScripts(Seed.Scripts, seedCode);
    }

    /** The first loop of the seeding: each seed category under the next category id. */
    method InsertSeedCategories(seeds: seq<Seed.CategorySeed>)
      requires Valid()
      requires categories == map[] && categoryCurrentId == 1
      modifies this
      ensures Valid()
      ensures users == old(users) && userCurrentId == old(userCurrentId)
      ensures scripts == old(scripts) && scriptCurrentId == old(scriptCurrentId)
      ensures categoryCurrentId == |seeds| + 1
      ensures CategoryValues() == Seed.CategoriesOf(seeds)
    {
      var i := 0;
      while i < |seeds|
        invariant 0 <= i <= |seeds|
        invariant categoryCurrentId == i + 1
        invariant IsTable(categories, categoryCurrentId, CategoryId)
        invariant forall k :: 1 <= k < categoryCurrentId ==> categories[k] == Seed.CategoryOf(seeds[k - 1], k)
        invariant users == old(users) && userCurrentId == old(userCurrentId)
        invariant scripts == old(scripts) && scriptCurrentId == old(scriptCurrentId)
      {
        var category := Seed.CategoryOf(seeds[i], categoryCurrentId);
        categoryCurrentId := categoryCurrentId + 1;
        categories := categories[category.id := category];
        i := i + 1;
      }
      assert CategoryValues() == Seed.CategoriesOf(seeds);
    }

    /** The second loop of the seeding: each seed script under the next script id, with no image. */
    method InsertSeedScripts(seeds: seq<Seed.ScriptSeed>, seedCode: seq<string>)
      requires |seedCode| == |seeds|
      requires Valid()
      requires scripts == map[] && scriptCurrentId == 1
      modifies this
      ensures Valid()
      ensures users == old(users) && userCurrentId == old(userCurrentId)
      ensures categories == old(categories) && categoryCurrentId == old(categoryCurrentId)
      ensures scriptCurrentId == |seeds| + 1
      ensures ScriptValues() == Seed.ScriptsOf(seeds, seedCode)
      ensures forall k :: k in scripts ==> scripts[k].image == None
    {
      var i := 0;
      while i < |seeds|
        invariant 0 <= i <= |seeds|
        invariant scriptCurrentId == i + 1
        invariant IsTable(scripts, scriptCurrentId, ScriptId)
        invariant forall k :: 1 <= k < scriptCurrentId ==> scripts[k] == Seed.ScriptOf(seeds[k - 1], seedCode[k - 1], k)
        invariant users == old(users) && userCurrentId == old(userCurrentId)
        invariant categories == old(categories) && categoryCurrentId == old(categoryCurrentId)
      {
        var script := Seed.ScriptOf(seeds[i], seedCode[i], scriptCurrentId);
        scriptCurrentId := scriptCurrentId + 1;
        scripts := scripts[script.id := script];
        i := i + 1;
      }
      assert ScriptValues() == Seed.ScriptsOf(seeds, seedCode);
    }

    /** `getUser`: the user stored under `id`, if any. */
    function GetUser(id: int): (r: Option<User>)
      reads this
      requires Valid()
      ensures r.Some? <==> 1 <= id < userCurrentId
      ensures r.Some? ==> r.value.id == id && r.value == UserValues()[id - 1]
    {
      if id in users then Some(users[id]) else None
    }

    /** `getUserByUsername`: the earliest inserted user with that exact username, if any. */
    function GetUserByUsername(username: string): (r: Option<User>)
      reads this
      requires Valid()
      ensures r.None? <==> forall k :: k in users ==> users[k].username != username
      ensures r.Some? ==> r.value.username == username && GetUser(r.value.id) == r
      ensures r.Some? ==> forall k :: 1 <= k < r.value.id ==> users[k].username != username
    {
      var all := UserValues();
      var r := Find(all, HasUsername(username));
      assert forall k :: k in users ==> users[k] == all[k - 1];
      r
    }

    /** `createUser`: stores the input under the next user id. */
    method CreateUser(insertUser: InsertUser) returns (user: User)
      requires Valid()
      modifies this
      ensures Valid()
      ensures user == User(old(userCurrentId), insertUser.username, insertUser.auth)
      ensures userCurrentId == old(userCurrentId) + 1
      ensures users == old(users)[user.id := user]
      ensures UserValues() == old(UserValues()) + [user]
      ensures GetUser(user.id) == Some(user)
      ensures scripts == old(scripts) && scriptCurrentId == old(scriptCurrentId)
      ensures categories == old(categories) && categoryCurrentId == old(categoryCurrentId)
    {
      var id := userCurrentId;
      userCurrentId := userCurrentId + 1;
      user := User(id, insertUser.username, insertUser.auth);
      users := users[id := user];
      assert UserValues() == old(UserValues()) + [user];
    }

    /** `getScripts`: the scripts passing the category and search filters, most viewed first,
        scripts with equal views in insertion order. */
    function GetScripts(category: Option<string>, search: Option<string>): (r: seq<Script>)
      reads this
      requires Valid()
      ensures forall x :: x in r <==> HasScript(x) && Selected(x, category, search)
      ensures StableSortOf(r, Selection(ScriptValues(), category, search))
      ensures Ranked(r)
    {
      ListScriptsRanked(ScriptValues(), category, search);
      ListScripts(ScriptValues(), category, search)
    }

    /** `getScript`: the script stored under `id`, if any. */
    function GetScript(id: int): (r: Option<Script>)
      reads this
      requires Valid()
      ensures r.Some? <==> 1 <= id < scriptCurrentId
      ensures r.Some? ==> r.value.id == id && r.value == ScriptValues()[id - 1]
    {
      if id in scripts then Some(scripts[id]) else None
    }

    /** `createScript`: stores the input under the next script id, with fresh counters and flags. */
    method CreateScript(insertScript: InsertScript) returns (script: Script)
      requires Valid()
      modifies this
      ensures Valid()
      ensures script.id == old(scriptCurrentId) && scriptCurrentId == old(scriptCurrentId) + 1
      ensures script.name == insertScript.name && script.description == insertScript.description
      ensures script.category == insertScript.category && script.code == insertScript.code
      ensures script.views == 0 && script.downloads == 0 && script.rating == 0
      ensures !script.isPopular && script.isNew && !script.isFeatured
      ensures script.status == if Truthy(insertScript.status) then insertScript.status.value else "active"
      ensures script.image == if Truthy(insertScript.image) then insertScript.image else None
      ensures scripts == old(scripts)[script.id := script]
      ensures ScriptValues() == old(ScriptValues()) + [script]
      ensures GetScript(script.id) == Some(script)
      ensures users == old(users) && userCurrentId == old(userCurrentId)
      ensures categories == old(categories) && categoryCurrentId == old(categoryCurrentId)
    {
      var id := scriptCurrentId;
      scriptCurrentId := scriptCurrentId + 1;
      script := Script(
        id,
        insertScript.name,
        insertScript.description,
        insertScript.category,
        insertScript.code,
        if Truthy(insertScript.image) then insertScript.image else None,
        0,
        0,
        0,
        false,
        true,
        false,
        if Truthy(insertScript.status) then insertScript.status.value else "active");
      scripts := scripts[id := script];
      assert ScriptValues() == old(ScriptValues()) + [script];
    }

    /** `incrementScriptViews`: one more view for the script under `id`; silently nothing if absent. */
    method IncrementScriptViews(id: int)
      requires Valid()
      modifies this
      ensures Valid()
      ensures scripts == Increment(old(scripts), id, Views)
      ensures id in old(scripts) ==> scripts[id] == old(scripts[id]).(views := old(scripts[id].views) + 1)
      ensures id !in old(scripts) ==> scripts == old(scripts)
      ensures scriptCurrentId == old(scriptCurrentId)
      ensures users == old(users) && userCurrentId == old(userCurrentId)
      ensures categories == old(categories) && categoryCurrentId == old(categoryCurrentId)
    {
      if id in scripts {
        var script := scripts[id];
        scripts := scripts[id := script.(views := script.views + 1)];
      }
    }

    /** `incrementScriptDownloads`: one more download for the script under `id`; silently nothing if absent. */
    method IncrementScriptDownloads(id: int)
      requires Valid()
      modifies this
      ensures Valid()
      ensures scripts == Increment(old(scripts), id, Downloads)
      ensures id in old(scripts) ==> scripts[id] == old(scripts[id]).(downloads := old(scripts[id].downloads) + 1)
      ensures id !in old(scripts) ==> scripts == old(scripts)
      ensures scriptCurrentId == old(scriptCurrentId)
      ensures users == old(users) && userCurrentId == old(userCurrentId)
      ensures categories == old(categories) && categoryCurrentId == old(categoryCurrentId)
    {
      if id in scripts {
        var script := scripts[id];
        scripts := scripts[id := script.(downloads := script.downloads + 1)];
      }
    }

    /** `getFeaturedScripts`: the featured scripts in insertion order. */
    function GetFeaturedScripts(): (r: seq<Script>)
      reads this
      requires Valid()
      ensures forall x :: x in r <==> HasScript(x) && x.isFeatured
      ensures IdsIncreasing(r)
    {
      FeaturedInOrder(ScriptValues());
      Featured(ScriptValues())
    }

    /** `getPopularScripts`: the popular scripts, most viewed first, ties in insertion order. */
    function GetPopularScripts(): (r: seq<Script>)
      reads this
      requires Valid()
      ensures forall x :: x in r <==> HasScript(x) && x.isPopular
      ensures Ranked(r)
    {
      PopularRanked(ScriptValues());
      PopularRanking(ScriptValues())
    }

    /** `getCategories`: every category, in insertion (id) order. */
    function GetCategories(): (r: seq<Category>)
      reads this
      requires Valid()
      ensures |r| == categoryCurrentId - 1
      ensures forall i :: 0 <= i < |r| ==> r[i].id == i + 1 && r[i] == categories[i + 1]
    {
      CategoryValues()
    }

    /** `getCategory`: the earliest inserted category with that exact slug, if any. */
    function GetCategory(slug: string): (r: Option<Category>)
      reads this
      requires Valid()
      ensures r.None? <==> forall k :: k in categories ==> categories[k].slug != slug
      ensures r.Some? ==> r.value.slug == slug && 1 <= r.value.id < categoryCurrentId && categories[r.value.id] == r.value
      ensures r.Some? ==> forall k :: 1 <= k < r.value.id ==> categories[k].slug != slug
    {
      var all := CategoryValues();
      var r := Find(all, HasSlug(slug));
      assert forall k :: k in categories ==> categories[k] == all[k - 1];
      r
    }

    /** `createCategory`: stores the input under the next category id; an absent or empty
        description is stored as none. */
    method CreateCategory(insertCategory: InsertCategory) returns (category: Category)
      requires Valid()
      modifies this
      ensures Valid()
      ensures category.id == old(categoryCurrentId) && categoryCurrentId == old(categoryCurrentId) + 1
      ensures category.name == insertCategory.name && category.slug == insertCategory.slug
      ensures category.icon == insertCategory.icon
      ensures category.description == if Truthy(insertCategory.description) then insertCategory.description else None
      ensures categories == old(categories)[category.id := category]
      ensures CategoryValues() == old(CategoryValues()) + [category]
      ensures users == old(users) && userCurrentId == old(userCurrentId)
      ensures scripts == old(scripts) && scriptCurrentId == old(scriptCurrentId)
    {
      var id := categoryCurrentId;
      categoryCurrentId := categoryCurrentId + 1;
      category := Category(
        id,
        insertCategory.name,
        insertCategory.slug,
        insertCategory.icon,
        if Truthy(insertCategory.description) then insertCategory.description else None);
      categories := categories[id := category];
      assert CategoryValues() == old(CategoryValues()) + [category];
    }
  }
}
