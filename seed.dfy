/** The sample data the storage layer is populated with when it is constructed. The embedded Lua
    sources of the seed scripts are not reproduced: the constructor takes them as a parameter. */
module Seed {
  import opened Entities

  /** A seed category entry: every field but the id. */
  datatype CategorySeed = CategorySeed(name: string, slug: string, icon: string, description: string)

  /** A seed script entry: every field but the id, the code and the image. */
  datatype ScriptSeed = ScriptSeed(
    name: string,
    description: string,
    category: string,
    views: nat,
    downloads: nat,
    rating: int,
    isPopular: bool,
    isNew: bool,
    isFeatured: bool,
    status: string)

  const Categories: seq<CategorySeed> := [
    CategorySeed("Все скрипты", "all", "fas fa-th-large", "Все доступные скрипты"),
    CategorySeed("Игровые скрипты", "game", "fas fa-gamepad", "Скрипты для конкретных игр"),
    CategorySeed("Утилиты", "utility", "fas fa-tools", "Общие скрипты-утилиты"),
    CategorySeed("Админ скрипты", "admin", "fas fa-crown", "Административные инструменты"),
    CategorySeed("Эксплойт скрипты", "exploit", "fas fa-bug", "Скрипты для обхода и эксплоитов"),
    CategorySeed("GUI скрипты", "gui", "fas fa-window-maximize", "Скрипты с графическим интерфейсом")
  ]

  const Scripts: seq<ScriptSeed> := [
    ScriptSeed("Infinite Jump Script",
      "Allows unlimited jumping in any Roblox game. Perfect for parkour games and exploration.",
      "game", 1200, 856, 49, true, false, false, "Popular"),
    ScriptSeed("Admin Commands Hub",
      "Comprehensive admin commands system with GUI. Includes kick, ban, teleport, and more.",
      "admin", 892, 445, 47, false, true, false, "New"),
    ScriptSeed("Speed Boost Utility",
      "Customizable speed boost script with GUI controls. Adjust walkspeed and jumppower dynamically.",
      "utility", 2100, 1300, 48, true, false, false, "Verified"),
    ScriptSeed("Universal ESP GUI",
      "Advanced ESP system with customizable GUI. See players through walls with distance indicators.",
      "gui", 1800, 972, 49, false, false, false, "Premium"),
    ScriptSeed("Noclip Toggle",
      "Simple noclip script with toggle functionality. Walk through walls and objects with ease.",
      "exploit", 3200, 2100, 46, true, false, false, "Updated"),
    ScriptSeed("Aimbot System",
      "Advanced aimbot with customizable settings. Works with most FPS games on Roblox.",
      "game", 2700, 1500, 44, false, false, false, "Advanced"),
    ScriptSeed("Universal Script Hub",
      "The ultimate collection of scripts in one GUI. Includes admin commands, exploits, utilities, and more. Regular updates with new features.",
      "gui", 15200, 15200, 49, true, false, true, "Featured"),
    ScriptSeed("Advanced Exploit Suite",
      "Professional-grade exploit tools with advanced features. Perfect for experienced users looking for powerful functionality.",
      "exploit", 8700, 8700, 48, true, false, true, "Editor's Choice"),
    ScriptSeed("R4D Hub",
      "Популярный universal скрипт hub с поддержкой множества игр",
      "universal", 8950, 7240, 46, true, false, false, "Popular")
  ]

  /** The category stored for a seed entry: its fields as they are, plus the id. */
  function CategoryOf(c: CategorySeed, id: int): Category {
    Category(id, c.name, c.slug, c.icon, Some(c.description))
  }

  /** The script stored for a seed entry: its fields, its code, the id and no image. */
  function ScriptOf(s: ScriptSeed, code: string, id: int): Script {
    Script(id, s.name, s.description, s.category, code, None,
      s.views, s.downloads, s.rating, s.isPopular, s.isNew, s.isFeatured, s.status)
  }

  /** The categories stored for a list of seed entries, under ids 1, 2, ... in list order. */
  function CategoriesOf(seeds: seq<CategorySeed>): seq<Category> {
    seq(|seeds|, i requires 0 <= i < |seeds| => CategoryOf(seeds[i], i + 1))
  }

  /** The scripts stored for a list of seed entries and their Lua sources, under ids 1, 2, ... */
  function ScriptsOf(seeds: seq<ScriptSeed>, code: seq<string>): seq<Script>
    requires |code| == |seeds|
  {
    seq(|seeds|, i requires 0 <= i < |seeds| => ScriptOf(seeds[i], code[i], i + 1))
  }

  /** The category table right after seeding, in insertion order. */
  function SeededCategories(): seq<Category> {
    CategoriesOf(Categories)
  }

  /** The script table right after seeding, in insertion order, for the given Lua sources. */
  function SeededScripts(code: seq<string>): seq<Script>
    requires |code| == |Scripts|
  {
    ScriptsOf(Scripts, code)
  }
}
