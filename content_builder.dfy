/** `ContentBuilder.convert_tree_to_accordion_format` (explorer/views.py):
    groups an already-built folder tree into the accordion sections of the
    content page. Each of the fourteen main categories claims the folders
    (anywhere in the tree, in pre-order) whose lower-cased name contains one
    of its keywords and that no earlier category claimed; a category with at
    least one new folder gets a section built from the first of them. A last
    section "Прочие папки" is built from the first folder that no category
    claimed. Sections are numbered 1, 2, 3, ... in order. */
module ContentBuilder {
  import opened Strings

  /** A node of the folder tree: its name, full path, public link (if it was
      published) and sub-folders. */
  datatype Folder = Folder(name: string, path: string, publicLink: Option<string>, children: seq<Folder>)

  /** An entry below an item of a section. */
  datatype SubItem = SubItem(title: string, link: Option<string>)

  /** An item of a section: a sub-folder without children becomes a link;
      one with children becomes a group listing them. */
  datatype Item = Leaf(title: string, link: Option<string>) | Group(title: string, subitems: seq<SubItem>)

  datatype Section = Section(id: nat, title: string, link: Option<string>, items: seq<Item>)

  datatype Category = Category(title: string, keywords: seq<string>)

  /** `main_categories`, in the order of the source's dictionary literal. */
  const MainCategories: seq<Category> := [
    Category("Алюминиевые Двери", ["алюмин", "alum", "fly", "livia", "milano", "next", "astra", "cristal", "alta"]),
    Category("Тамбуратные Двери", ["тамбурат", "tamburat", "nuovo", "rock", "complanar"]),
    Category("Гардеробы", ["гардероб", "гардеробн", "wardrobe", "шкаф", "avola", "ampio", "fiato", "spirito"]),
    Category("Мебель", ["мебель", "furniture", "стеллаж", "strada", "lego", "romb", "кубо", "kubo"]),
    Category("Мягкая мебель", ["диван", "кровать", "sofa", "bed", "мягк", "soft", "pezzo", "tina", "gina"]),
    Category("Стеновые панели", ["стенов", "wall", "панел", "panel"]),
    Category("Столы", ["стол", "table", "desk"]),
    Category("Инструкции", ["инструкц", "instruction", "manual", "монтаж", "установк"]),
    Category("Сервисные видео", ["видео", "video", "сервис", "service", "рекламац"]),
    Category("Информационные письма", ["письмо", "letter", "рассылка", "announce", "анонс"]),
    Category("Прайсы", ["прайс", "price", "стоимость", "cost"]),
    Category("Каталоги", ["каталог", "catalog", "брошюр", "brochure"]),
    Category("Бланки", ["бланк", "form", "акт", "act", "заявк"]),
    Category("Фото продукции", ["фото", "photo", "изображен", "image", "рендер"])
  ]

  /** The title of the section for the folders no category claimed. */
  const OtherFoldersTitle: string := "Прочие папки"

  // ---------------------------------------------------------------------
  // Walking the tree

  /** The folders of a forest in pre-order: each folder, then its
      descendants, then its later siblings. */
  function Preorder(items: seq<Folder>): seq<Folder>
    decreases items
  {
    if items == [] then []
    else
      var n := |items| - 1;
      var last := items[n];
      assert last in items;
      Preorder(items[..n]) + [last] + Preorder(last.children)
  }

  /** The folders of `folders` that satisfy `keep`, in order. */
  function Select(folders: seq<Folder>, keep: Folder -> bool): seq<Folder>
    decreases |folders|
  {
    if folders == [] then []
    else
      var n := |folders| - 1;
      Select(folders[..n], keep) + (if keep(folders[n]) then [folders[n]] else [])
  }

  /** A folder is selected exactly when it is one of the folders and is kept. */
  lemma {:induction false} SelectMembers(folders: seq<Folder>, keep: Folder -> bool, f: Folder)
    ensures f in Select(folders, keep) <==> f in folders && keep(f)
    decreases |folders|
  {
    if folders != [] {
      var n := |folders| - 1;
      SelectMembers(folders[..n], keep, f);
      assert folders == folders[..n] + [folders[n]];
    }
  }

  lemma {:induction false} SelectAppend(a: seq<Folder>, b: seq<Folder>, keep: Folder -> bool)
    ensures Select(a + b, keep) == Select(a, keep) + Select(b, keep)
    decreases |b|
  {
    if b == [] {
      assert a + b == a;
    } else {
      var n := |b| - 1;
      assert (a + b)[..|a| + n] == a + b[..n];
      assert (a + b)[|a| + n] == b[n];
      SelectAppend(a, b[..n], keep);
    }
  }

  /** The walk sees the whole forest: every top-level folder, and with
      every folder seen each of its children. */
  lemma {:induction false} PreorderCovers(items: seq<Folder>)
    ensures forall f :: f in items ==> f in Preorder(items)
    ensures forall f, c :: f in Preorder(items) && c in f.children ==> c in Preorder(items)
    decreases items
  {
    if items != [] {
      var n := |items| - 1;
      var last := items[n];
      assert last in items;
      PreorderCovers(items[..n]);
      PreorderCovers(last.children);
      assert items == items[..n] + [last];
    }
  }

  /** `any(keyword in name for keyword in keywords)`. */
  predicate AnyKeywordIn(name: string, keywords: seq<string>)
    decreases |keywords|
  {
    keywords != [] && (Contains(name, keywords[0]) || AnyKeywordIn(name, keywords[1..]))
  }

  /** The folder's lower-cased name contains one of the keywords. */
  predicate MatchesKeywords(folder: Folder, keywords: seq<string>) {
    AnyKeywordIn(LowerStr(folder.name), keywords)
  }

  /** The filter of `find_folders_by_keywords`. */
  function KeywordFilter(keywords: seq<string>): Folder -> bool {
    (f: Folder) => MatchesKeywords(f, keywords)
  }

  /** The filter of `get_all_remaining_folders`. */
  function PathFilter(excluded: set<string>): Folder -> bool {
    (f: Folder) => f.path !in excluded
  }

  /** Visiting `items[i]` extends what was gathered over `items[..i]` by the
      folder, when kept, and then by what is gathered over its descendants. */
  lemma {:induction false} VisitStep(acc: seq<Folder>, items: seq<Folder>, i: nat, keep: Folder -> bool)
    requires i < |items|
    ensures acc + Select(Preorder(items[..i + 1]), keep)
            == acc + Select(Preorder(items[..i]), keep) + (if keep(items[i]) then [items[i]] else [])
               + Select(Preorder(items[i].children), keep)
  {
    var item := items[i];
    assert items[..i + 1][..i] == items[..i];
    assert Preorder(items[..i + 1]) == Preorder(items[..i]) + [item] + Preorder(item.children);
    SelectAppend(Preorder(items[..i]) + [item], Preorder(item.children), keep);
    SelectAppend(Preorder(items[..i]), [item], keep);
    assert [item][..0] == [];
  }

  /** `search_recursive` of `find_folders_by_keywords`: appends the matching
      folders of `items` and their descendants to `found0`, in pre-order. */
  method SearchRecursive(items: seq<Folder>, keywords: seq<string>, found0: seq<Folder>)
    returns (found: seq<Folder>)
    ensures found == found0 + Select(Preorder(items), KeywordFilter(keywords))
    decreases items
  {
    found := found0;
    var i := 0;
    assert items[..0] == [];
    while i < |items|
      invariant 0 <= i <= |items|
      invariant found == found0 + Select(Preorder(items[..i]), KeywordFilter(keywords))
    {
      var item := items[i];
      assert item in items;
      VisitStep(found0, items, i, KeywordFilter(keywords));
      ghost var visited := found + (if KeywordFilter(keywords)(item) then [item] else []);
      if AnyKeywordIn(LowerStr(item.name), keywords) {
        found := found + [item];
      }
      assert found == visited;
      if item.children != [] {
        found := SearchRecursive(item.children, keywords, found);
      }
      assert found == visited + Select(Preorder(item.children), KeywordFilter(keywords));
      i := i + 1;
    }
    assert items[..i] == items;
  }

  /** `find_folders_by_keywords`: every folder of the tree whose lower-cased
      name contains a keyword, in pre-order. */
  method FindFoldersByKeywords(tree: seq<Folder>, keywords: seq<string>) returns (found: seq<Folder>)
    ensures found == Select(Preorder(tree), KeywordFilter(keywords))
  {
    found := SearchRecursive(tree, keywords, []);
  }

  /** `collect_recursive` of `get_all_remaining_folders`: appends the folders
      of `items` and their descendants whose path is not excluded, in pre-order. */
  method CollectRecursive(items: seq<Folder>, excluded: set<string>, remaining0: seq<Folder>)
    returns (remaining: seq<Folder>)
    ensures remaining == remaining0 + Select(Preorder(items), PathFilter(excluded))
    decreases items
  {
    remaining := remaining0;
    var i := 0;
    assert items[..0] == [];
    while i < |items|
      invariant 0 <= i <= |items|
      invariant remaining == remaining0 + Select(Preorder(items[..i]), PathFilter(excluded))
    {
      var item := items[i];
      assert item in items;
      VisitStep(remaining0, items, i, PathFilter(excluded));
      ghost var visited := remaining + (if PathFilter(excluded)(item) then [item] else []);
      if item.path !in excluded {
        remaining := remaining + [item];
      }
      assert remaining == visited;
      if item.children != [] {
        remaining := CollectRecursive(item.children, excluded, remaining);
      }
      assert remaining == visited + Select(Preorder(item.children), PathFilter(excluded));
      i := i + 1;
    }
    assert items[..i] == items;
  }

  // ---------------------------------------------------------------------
  // Items of a section

  function SubItemFor(folder: Folder): SubItem {
    SubItem(folder.name, folder.publicLink)
  }

  /** The item for one sub-folder of a section's folder. */
  function ItemFor(child: Folder): Item {
    if child.children != [] then
      Group(child.name, seq(|child.children|, j requires 0 <= j < |child.children| => SubItemFor(child.children[j])))
    else Leaf(child.name, child.publicLink)
  }

  /** The items of a section: one per sub-folder, in order; a sub-folder
      with children becomes a group of links to them, one without a link. */
  function FolderItems(folder: Folder): (items: seq<Item>)
    ensures |items| == |folder.children|
    ensures forall i :: 0 <= i < |items| ==>
              items[i].title == folder.children[i].name
              && (items[i].Group? <==> folder.children[i].children != [])
              && (items[i].Group? ==> |items[i].subitems| == |folder.children[i].children|)
  {
    seq(|folder.children|, i requires 0 <= i < |folder.children| => ItemFor(folder.children[i]))
  }

  /** `convert_folder_to_items`. */
  method ConvertFolderToItems(folder: Folder) returns (items: seq<Item>)
    ensures items == FolderItems(folder)
  {
    items := [];
    var i := 0;
    while i < |folder.children|
      invariant 0 <= i <= |folder.children|
      invariant items == FolderItems(folder)[..i]
    {
      var child := folder.children[i];
      if child.children != [] {
        var subitems: seq<SubItem> := [];
        var j := 0;
        while j < |child.children|
          invariant 0 <= j <= |child.children|
          invariant |subitems| == j
          invariant forall k :: 0 <= k < j ==> subitems[k] == SubItemFor(child.children[k])
        {
          var subchild := child.children[j];
          subitems := subitems + [SubItem(subchild.name, subchild.publicLink)];
          j := j + 1;
        }
        assert subitems == FolderItems(folder)[i].subitems;
        items := items + [Group(child.name, subitems)];
      } else {
        items := items + [Leaf(child.name, child.publicLink)];
      }
      assert items == FolderItems(folder)[..i + 1];
      i := i + 1;
    }
  }

  // ---------------------------------------------------------------------
  // Claiming folders

  /** The paths of some folders. */
  function Paths(folders: seq<Folder>): (r: set<string>)
    ensures forall f :: f in folders ==> f.path in r
    ensures forall p :: p in r ==> exists f :: f in folders && f.path == p
  {
    set f | f in folders :: f.path
  }

  /** A path is among the paths exactly when some folder has it, and there
      are no more paths than folders. */
  lemma {:induction false} PathsMembers(folders: seq<Folder>)
    ensures forall p :: p in Paths(folders) <==> exists i :: 0 <= i < |folders| && folders[i].path == p
    ensures |Paths(folders)| <= |folders|
  {
    forall p | p in Paths(folders) ensures exists i :: 0 <= i < |folders| && folders[i].path == p {
      var f :| f in folders && f.path == p;
      var i :| 0 <= i < |folders| && folders[i] == f;
    }
    if folders != [] {
      var n := |folders| - 1;
      PathsMembers(folders[..n]);
      assert folders == folders[..n] + [folders[n]];
      assert Paths(folders) == Paths(folders[..n]) + {folders[n].path};
    }
  }

  /** One more folder adds its path. */
  lemma {:induction false} PathsAppend(folders: seq<Folder>, f: Folder)
    ensures Paths(folders + [f]) == Paths(folders) + {f.path}
  {
    var all := folders + [f];
    forall p | p in Paths(all) ensures p in Paths(folders) + {f.path} {
      var g :| g in all && g.path == p;
      if g != f {
        assert g in folders;
      }
    }
    assert forall g :: g in folders ==> g in all;
  }

  /** The folders a category claims among those it found: the first folder
      with each path, unless an earlier category already holds that path. */
  function Unclaimed(found: seq<Folder>, used: set<string>): seq<Folder>
    decreases |found|
  {
    if found == [] then []
    else
      var n := |found| - 1;
      Unclaimed(found[..n], used)
        + (if found[n].path !in used && found[n].path !in Paths(found[..n]) then [found[n]] else [])
  }

  /** One more found folder is claimed exactly when its path is neither in
      use nor among the earlier folders' paths. */
  lemma {:induction false} UnclaimedAppend(found: seq<Folder>, f: Folder, used: set<string>)
    ensures Unclaimed(found + [f], used)
            == Unclaimed(found, used) + (if f.path !in used && f.path !in Paths(found) then [f] else [])
  {
    var all := found + [f];
    assert all[..|found|] == found;
  }

  /** The claimed folders are found folders with pairwise different paths,
      none of which was already in use. */
  lemma {:induction false} UnclaimedProperties(found: seq<Folder>, used: set<string>)
    ensures var u := Unclaimed(found, used);
            (forall f :: f in u ==> f in found && f.path !in used)
            && (forall i, j :: 0 <= i < j < |u| ==> u[i].path != u[j].path)
    decreases |found|
  {
    if found != [] {
      var n := |found| - 1;
      UnclaimedProperties(found[..n], used);
      var before := Unclaimed(found[..n], used);
      if found[n].path !in used && found[n].path !in Paths(found[..n]) {
        forall i | 0 <= i < |before| ensures before[i].path != found[n].path {
          assert before[i] in found[..n];
        }
      }
    }
  }

  /** A category claims something exactly when one of its folders is not yet claimed. */
  lemma {:induction false} UnclaimedNonEmpty(found: seq<Folder>, used: set<string>)
    ensures Unclaimed(found, used) != [] <==> exists k :: 0 <= k < |found| && found[k].path !in used
    decreases |found|
  {
    if found != [] {
      var n := |found| - 1;
      var before := found[..n];
      UnclaimedNonEmpty(before, used);
      if exists k :: 0 <= k < |found| && found[k].path !in used {
        var k :| 0 <= k < |found| && found[k].path !in used;
        if k < n {
          assert before[k] == found[k];
        }
      }
    }
  }

  /** The first folder a category claims is its first folder not yet claimed. */
  lemma {:induction false} UnclaimedFirst(found: seq<Folder>, used: set<string>)
    requires Unclaimed(found, used) != []
    ensures exists k :: 0 <= k < |found| && found[k] == Unclaimed(found, used)[0] && found[k].path !in used
                        && forall j :: 0 <= j < k ==> found[j].path in used
    decreases |found|, 1
  {
    if Unclaimed(found[..|found| - 1], used) != [] {
      UnclaimedFirstBefore(found, used);
    } else {
      UnclaimedFirstLast(found, used);
    }
  }

  /** `UnclaimedFirst` when a folder before the last one is claimed. */
  lemma {:induction false} UnclaimedFirstBefore(found: seq<Folder>, used: set<string>)
    requires found != [] && Unclaimed(found[..|found| - 1], used) != []
    ensures exists k :: 0 <= k < |found| && found[k] == Unclaimed(found, used)[0] && found[k].path !in used
                        && forall j :: 0 <= j < k ==> found[j].path in used
    decreases |found|, 0
  {
    var n := |found| - 1;
    var before := found[..n];
    var u := Unclaimed(found, used);
    var extra := if found[n].path !in used && found[n].path !in Paths(before) then [found[n]] else [];
    assert u == Unclaimed(before, used) + extra;
    UnclaimedFirst(before, used);
    var k :| 0 <= k < |before| && before[k] == Unclaimed(before, used)[0] && before[k].path !in used
             && forall j :: 0 <= j < k ==> before[j].path in used;
    assert u[0] == Unclaimed(before, used)[0];
    assert found[k] == before[k];
    forall j | 0 <= j < k ensures found[j].path in used {
      assert found[j] == before[j];
    }
  }

  /** `UnclaimedFirst` when only the last folder is claimed. */
  lemma {:induction false} UnclaimedFirstLast(found: seq<Folder>, used: set<string>)
    requires Unclaimed(found, used) != [] && Unclaimed(found[..|found| - 1], used) == []
    ensures exists k :: 0 <= k < |found| && found[k] == Unclaimed(found, used)[0] && found[k].path !in used
                        && forall j :: 0 <= j < k ==> found[j].path in used
  {
    var n := |found| - 1;
    var before := found[..n];
    var u := Unclaimed(found, used);
    assert u == [found[n]];
    UnclaimedNonEmpty(before, used);
    forall j | 0 <= j < n ensures found[j].path in used {
      assert before[j] == found[j];
    }
    assert found[n] == u[0];
  }

  /** One step of the claiming loop: the next folder is claimed exactly
      when its path is not yet used, and afterwards its path is used. */
  lemma {:induction false} ClaimStep(found: seq<Folder>, i: nat, used0: set<string>, used: set<string>)
    requires i < |found| && used == used0 + Paths(found[..i])
    ensures Unclaimed(found[..i + 1], used0)
            == Unclaimed(found[..i], used0) + (if found[i].path !in used then [found[i]] else [])
    ensures used + {found[i].path} == used0 + Paths(found[..i + 1])
    ensures found[i].path in used ==> used == used0 + Paths(found[..i + 1])
  {
    TakeSnoc(found, i);
    PathsAppend(found[..i], found[i]);
    UnclaimedAppend(found[..i], found[i], used0);
  }

  /** The loop of `convert_tree_to_accordion_format` that keeps the unique
      folders of a category and records their paths as used. */
  method ClaimFolders(categoryFolders: seq<Folder>, used0: set<string>)
    returns (uniqueFolders: seq<Folder>, used: set<string>)
    ensures uniqueFolders == Unclaimed(categoryFolders, used0)
    ensures used == used0 + Paths(categoryFolders)
  {
    uniqueFolders := [];
    used := used0;
    var i := 0;
    while i < |categoryFolders|
      invariant 0 <= i <= |categoryFolders|
      invariant uniqueFolders == Unclaimed(categoryFolders[..i], used0)
      invariant used == used0 + Paths(categoryFolders[..i])
    {
      var folder := categoryFolders[i];
      ClaimStep(categoryFolders, i, used0, used);
      if folder.path !in used {
        uniqueFolders := uniqueFolders + [folder];
        used := used + {folder.path};
      }
      i := i + 1;
    }
    assert categoryFolders[..i] == categoryFolders;
  }

  // ---------------------------------------------------------------------
  // The accordion

  /** What the category loop has built so far: the sections, the next id
      and the claimed paths. */
  datatype Progress = Progress(sections: seq<Section>, nextId: nat, used: set<string>)

  /** The folders of the tree that a category's keywords find. */
  function Found(tree: seq<Folder>, category: Category): seq<Folder> {
    Select(Preorder(tree), KeywordFilter(category.keywords))
  }

  /** One round of the category loop. */
  function Step(tree: seq<Folder>, p: Progress, category: Category): Progress {
    var found := Found(tree, category);
    var unique := Unclaimed(found, p.used);
    var used := p.used + Paths(found);
    if unique != [] then
      Progress(p.sections + [Section(p.nextId, category.title, unique[0].publicLink, FolderItems(unique[0]))],
               p.nextId + 1, used)
    else Progress(p.sections, p.nextId, used)
  }

  /** The state after the category loop has run over `categories`. */
  function AfterCategories(tree: seq<Folder>, categories: seq<Category>): Progress
    decreases |categories|
  {
    if categories == [] then Progress([], 1, {})
    else
      var n := |categories| - 1;
      Step(tree, AfterCategories(tree, categories[..n]), categories[n])
  }

  /** The folders no category claimed, in pre-order. */
  function RemainingFolders(tree: seq<Folder>, used: set<string>): seq<Folder> {
    Select(Preorder(tree), PathFilter(used))
  }

  /** The accordion for `tree` with the given categories. */
  function Accordion(tree: seq<Folder>, categories: seq<Category>): seq<Section> {
    var p := AfterCategories(tree, categories);
    var remaining := RemainingFolders(tree, p.used);
    if remaining != [] then
      p.sections + [Section(p.nextId, OtherFoldersTitle, remaining[0].publicLink, FolderItems(remaining[0]))]
    else p.sections
  }

  /** The paths of the folders some category's keywords find. */
  function FoundPaths(tree: seq<Folder>, categories: seq<Category>): set<string>
    decreases |categories|
  {
    if categories == [] then {}
    else
      var n := |categories| - 1;
      FoundPaths(tree, categories[..n]) + Paths(Found(tree, categories[n]))
  }

  /** What one round does: at most one section is added, with the next id
      and the category's title, and the category's found paths are claimed. */
  lemma {:induction false} StepFacts(tree: seq<Folder>, p: Progress, category: Category)
    ensures var q := Step(tree, p, category);
            |p.sections| <= |q.sections| <= |p.sections| + 1
            && q.sections[..|p.sections|] == p.sections
            && q.nextId == p.nextId + (|q.sections| - |p.sections|)
            && (|q.sections| > |p.sections| ==>
                  q.sections[|p.sections|].id == p.nextId && q.sections[|p.sections|].title == category.title)
            && q.used == p.used + Paths(Found(tree, category))
  {
  }

  /** After the category loop the sections are numbered 1, 2, ..., with the
      next id one past the last, and there is at most one per category. */
  lemma {:induction false} AfterCategoriesIds(tree: seq<Folder>, categories: seq<Category>)
    ensures var p := AfterCategories(tree, categories);
            p.nextId == |p.sections| + 1 && |p.sections| <= |categories|
            && (forall i :: 0 <= i < |p.sections| ==> p.sections[i].id == i + 1)
    decreases |categories|
  {
    if categories != [] {
      var n := |categories| - 1;
      AfterCategoriesIds(tree, categories[..n]);
      var before := AfterCategories(tree, categories[..n]);
      StepFacts(tree, before, categories[n]);
      var after := AfterCategories(tree, categories);
      forall i | 0 <= i < |after.sections| ensures after.sections[i].id == i + 1 {
        if i < |before.sections| {
          assert after.sections[i] == after.sections[..|before.sections|][i];
        }
      }
    }
  }

  /** Every section is titled after one of the categories. */
  lemma {:induction false} AfterCategoriesTitles(tree: seq<Folder>, categories: seq<Category>)
    ensures forall sec :: sec in AfterCategories(tree, categories).sections ==>
              exists c :: c in categories && c.title == sec.title
    decreases |categories|
  {
    if categories != [] {
      var n := |categories| - 1;
      AfterCategoriesTitles(tree, categories[..n]);
      var before := AfterCategories(tree, categories[..n]);
      StepFacts(tree, before, categories[n]);
      var after := AfterCategories(tree, categories);
      forall sec | sec in after.sections ensures exists c :: c in categories && c.title == sec.title {
        var i :| 0 <= i < |after.sections| && after.sections[i] == sec;
        if i < |before.sections| {
          assert sec == after.sections[..|before.sections|][i];
          var c :| c in categories[..n] && c.title == sec.title;
          assert c in categories;
        } else {
          assert categories[n] in categories;
        }
      }
    }
  }

  /** The claimed paths are those of every folder some category found. */
  lemma {:induction false} AfterCategoriesUsed(tree: seq<Folder>, categories: seq<Category>)
    ensures AfterCategories(tree, categories).used == FoundPaths(tree, categories)
    decreases |categories|
  {
    if categories != [] {
      var n := |categories| - 1;
      AfterCategoriesUsed(tree, categories[..n]);
      StepFacts(tree, AfterCategories(tree, categories[..n]), categories[n]);
    }
  }

  /** A category gets a section exactly when it finds a folder that no
      earlier category found; the section is built from the first such
      folder, in pre-order. */
  lemma {:induction false} StepSection(tree: seq<Folder>, p: Progress, category: Category)
    ensures var found := Found(tree, category);
            var q := Step(tree, p, category);
            (|q.sections| == |p.sections| + 1 <==> exists k :: 0 <= k < |found| && found[k].path !in p.used)
            && (|q.sections| == |p.sections| ==> q.sections == p.sections)
            && (|q.sections| == |p.sections| + 1 ==>
                  q.sections[..|p.sections|] == p.sections
                  && exists k :: 0 <= k < |found| && found[k].path !in p.used
                                 && (forall j :: 0 <= j < k ==> found[j].path in p.used)
                                 && q.sections[|p.sections|]
                                    == Section(p.nextId, category.title, found[k].publicLink, FolderItems(found[k])))
  {
    var found := Found(tree, category);
    UnclaimedNonEmpty(found, p.used);
    var q := Step(tree, p, category);
    if Unclaimed(found, p.used) != [] {
      UnclaimedFirst(found, p.used);
      assert q.sections[..|p.sections|] == p.sections;
    }
  }

  /** The accordion: sections numbered 1, 2, ..., at most one per category
      plus one, and a last "Прочие папки" section exactly when some folder of
      the tree has a path that no category found, built from the first such
      folder in pre-order. */
  lemma {:induction false} AccordionShape(tree: seq<Folder>, categories: seq<Category>)
    ensures var r := Accordion(tree, categories);
            var p := AfterCategories(tree, categories);
            var remaining := Select(Preorder(tree), PathFilter(FoundPaths(tree, categories)));
            |r| <= |categories| + 1
            && (forall i :: 0 <= i < |r| ==> r[i].id == i + 1)
            && (remaining != [] ==>
                  r == p.sections + [Section(|p.sections| + 1, OtherFoldersTitle, remaining[0].publicLink,
                                             FolderItems(remaining[0]))])
            && (remaining == [] ==> r == p.sections)
  {
    AfterCategoriesIds(tree, categories);
    AfterCategoriesUsed(tree, categories);
  }

  /** The folders behind "Прочие папки" are exactly the folders of the tree
      whose path no category found. */
  lemma {:induction false} RemainingMembers(tree: seq<Folder>, categories: seq<Category>, f: Folder)
    ensures f in RemainingFolders(tree, AfterCategories(tree, categories).used)
            <==> f in Preorder(tree) && f.path !in FoundPaths(tree, categories)
  {
    AfterCategoriesUsed(tree, categories);
    SelectMembers(Preorder(tree), PathFilter(FoundPaths(tree, categories)), f);
  }

  /** One round of the category loop of `convert_tree_to_accordion_format`. */
  method AddCategory(tree: seq<Folder>, sections0: seq<Section>, id0: nat, used0: set<string>, category: Category)
    returns (sections: seq<Section>, id: nat, used: set<string>)
    ensures Progress(sections, id, used) == Step(tree, Progress(sections0, id0, used0), category)
  {
    sections, id := sections0, id0;
    var categoryFolders := FindFoldersByKeywords(tree, category.keywords);
    var uniqueFolders;
    uniqueFolders, used := ClaimFolders(categoryFolders, used0);
    if uniqueFolders != [] {
      var mainFolder := uniqueFolders[0];
      var items := ConvertFolderToItems(mainFolder);
      sections := sections + [Section(id, category.title, mainFolder.publicLink, items)];
      id := id + 1;
    }
  }

  /** The category loop, over the given categories in order. */
  method AddCategories(tree: seq<Folder>, categories: seq<Category>) returns (p: Progress)
    ensures p == AfterCategories(tree, categories)
  {
    var contentStructure: seq<Section> := [];
    var categoryId: nat := 1;
    var usedFolders: set<string> := {};
    var c := 0;
    assert categories[..0] == [];
    while c < |categories|
      invariant 0 <= c <= |categories|
      invariant AfterCategories(tree, categories[..c]) == Progress(contentStructure, categoryId, usedFolders)
    {
      assert categories[..c + 1][..c] == categories[..c];
      contentStructure, categoryId, usedFolders :=
        AddCategory(tree, contentStructure, categoryId, usedFolders, categories[c]);
      c := c + 1;
    }
    assert categories[..c] == categories;
    p := Progress(contentStructure, categoryId, usedFolders);
  }

  /** `convert_tree_to_accordion_format`: the category sections, then the
      section of the folders no category claimed, if there is one. */
  method ConvertTreeToAccordionFormat(tree: seq<Folder>) returns (contentStructure: seq<Section>)
    ensures contentStructure == Accordion(tree, MainCategories)
  {
    var p := AddCategories(tree, MainCategories);
    contentStructure := p.sections;
    var remainingFolders := CollectRecursive(tree, p.used, []);
    if remainingFolders != [] {
      var mainRemaining := remainingFolders[0];
      var items := ConvertFolderToItems(mainRemaining);
      contentStructure := contentStructure + [Section(p.nextId, OtherFoldersTitle, mainRemaining.publicLink, items)];
    }
  }
}
