/**
 * The category repository: the catalogue's two-level category tree, the
 * active children of a category, and the breadcrumb trail that walks a
 * category's parent chain up to its root.
 */
module Categories {
  import opened Wrappers
  import opened Seqs
  import opened Sorting

  /** A category; `parentId` is absent on the top-level ones. */
  datatype Category = Category(id: string, name: string, slug: string, description: Option<string>,
                               icon: Option<string>, parentId: Option<string>, order: int, isActive: bool)

  /** A category with its children, as `findTree` returns it. */
  datatype CategoryWithChildren = CategoryWithChildren(category: Category, children: seq<Category>)

  /** One step of a breadcrumb trail. */
  datatype Breadcrumb = Breadcrumb(id: string, name: string, slug: string)

  /** `c.parentId` is truthy: present and not the empty string. */
  predicate HasParent(c: Category) {
    c.parentId.Some? && c.parentId.value != ""
  }

  function IdIs(id: string): Category -> bool {
    (c: Category) => c.id == id
  }

  function SlugIs(slug: string): Category -> bool {
    (c: Category) => c.slug == slug
  }

  /** `!c.parentId && c.isActive`: an active top-level category. */
  function IsActiveRoot(): Category -> bool {
    (c: Category) => !HasParent(c) && c.isActive
  }

  /** `c.parentId === parentId && c.isActive`: an active child of the category. */
  function IsActiveChildOf(parentId: string): Category -> bool {
    (c: Category) => c.parentId == Some(parentId) && c.isActive
  }

  function OrderOf(c: Category): int {
    c.order
  }

  function Crumb(c: Category): (b: Breadcrumb)
    ensures b.id == c.id && b.name == c.name && b.slug == c.slug
  {
    Breadcrumb(c.id, c.name, c.slug)
  }

  function Crumbs(cs: seq<Category>): (r: seq<Breadcrumb>)
    ensures |r| == |cs|
    ensures forall i :: 0 <= i < |cs| ==> r[i] == Crumb(cs[i])
  {
    if cs == [] then [] else [Crumb(cs[0])] + Crumbs(cs[1..])
  }

  lemma CrumbsCons(c: Category, cs: seq<Category>)
    ensures Crumbs([c] + cs) == [Crumb(c)] + Crumbs(cs)
  {
    assert ([c] + cs)[1..] == cs;
  }

  /** The active categories satisfying `p`, ascending by `order`, ties in stored order. */
  function ActiveByOrder(data: seq<Category>, p: Category -> bool): (r: seq<Category>)
    ensures forall c :: c in r <==> c in data && p(c)
    ensures multiset(r) == multiset(Filter(data, p))
    ensures forall i, j :: 0 <= i < j < |r| ==> r[i].order <= r[j].order
  {
    FilterContains(data, p);
    var r := SortOnKey(Filter(data, p), OrderOf, false);
    assert forall c :: c in r <==> c in multiset(Filter(data, p));
    r
  }

  // ---------------------------------------------------------------------
  // The parent chain

  /**
   * The parent chain is acyclic, witnessed by a rank on ids that every
   * parent link lowers. The breadcrumb walk has no cycle guard, so this is
   * exactly what it needs to end.
   */
  ghost predicate Ranked(data: seq<Category>, rank: string -> nat) {
    forall c :: c in data && HasParent(c) ==> rank(c.parentId.value) < rank(c.id)
  }

  /** The next category of the walk: the first one whose id is the parent id, if the parent id is truthy. */
  function ParentOf(data: seq<Category>, c: Category): (r: Option<Category>)
    ensures r.Some? ==> HasParent(c) && r.value in data && r.value.id == c.parentId.value
    ensures r.None? <==> !HasParent(c) || forall j :: 0 <= j < |data| ==> data[j].id != c.parentId.value
  {
    if HasParent(c) then FindFirst(data, IdIs(c.parentId.value)) else None
  }

  /** The categories the walk from `current` visits, the topmost first. */
  function Ancestry(data: seq<Category>, current: Option<Category>, ghost rank: string -> nat): (r: seq<Category>)
    requires Ranked(data, rank)
    requires current.Some? ==> current.value in data
    ensures current.None? <==> r == []
    decreases if current.Some? then rank(current.value.id) + 1 else 0
  {
    match current
    case None => []
    case Some(c) => Ancestry(data, ParentOf(data, c), rank) + [c]
  }

  lemma SeqAssoc<T>(a: seq<T>, b: seq<T>, c: seq<T>)
    ensures a + b + c == a + (b + c)
  {
  }

  lemma AncestryStep(data: seq<Category>, c: Category, rank: string -> nat)
    requires Ranked(data, rank)
    requires c in data
    ensures Ancestry(data, Some(c), rank) == Ancestry(data, ParentOf(data, c), rank) + [c]
  {
  }

  /**
   * The trail from a category ends with that category, every step is the
   * parent of the next, every step is a stored category, and the first
   * step has no parent id or one that names no stored category.
   */
  lemma {:induction false} AncestrySpec(data: seq<Category>, c: Category, rank: string -> nat)
    requires Ranked(data, rank)
    requires c in data
    ensures var r := Ancestry(data, Some(c), rank);
            && r != [] && r[|r| - 1] == c
            && (forall i :: 0 <= i < |r| ==> r[i] in data)
            && (forall i :: 1 <= i < |r| ==> HasParent(r[i]) && r[i].parentId.value == r[i - 1].id)
            && ParentOf(data, r[0]).None?
    decreases rank(c.id)
  {
    var parent := ParentOf(data, c);
    if parent.Some? {
      AncestrySpec(data, parent.value, rank);
      var up := Ancestry(data, parent, rank);
      var r := Ancestry(data, Some(c), rank);
      assert r == up + [c];
      assert r[0] == up[0];
    }
  }

  // ---------------------------------------------------------------------
  // The repository

  class CategoryRepository {
    var data: seq<Category>

    /** Starts from the seed categories. */
    constructor ()
      ensures data == InitialCategories()
    {
      data := InitialCategories();
    }

    /** The inherited `findById`: the first category with the id, or null. */
    function FindById(id: string): (r: Option<Category>)
      reads this
      ensures r.None? <==> forall j :: 0 <= j < |data| ==> data[j].id != id
      ensures r.Some? ==> r.value.id == id &&
                          exists i :: 0 <= i < |data| && data[i] == r.value &&
                                      forall j :: 0 <= j < i ==> data[j].id != id
    {
      FindFirst(data, IdIs(id))
    }

    /** `findBySlug`: the first category with the slug, or null. */
    function FindBySlug(slug: string): (r: Option<Category>)
      reads this
      ensures r.None? <==> forall j :: 0 <= j < |data| ==> data[j].slug != slug
      ensures r.Some? ==> r.value.slug == slug &&
                          exists i :: 0 <= i < |data| && data[i] == r.value &&
                                      forall j :: 0 <= j < i ==> data[j].slug != slug
    {
      FindFirst(data, SlugIs(slug))
    }

    /** `findRootCategories`: the active top-level categories, ascending by `order`. */
    function FindRootCategories(): (r: seq<Category>)
      reads this
      ensures forall c :: c in r <==> c in data && !HasParent(c) && c.isActive
      ensures forall i, j :: 0 <= i < j < |r| ==> r[i].order <= r[j].order
      ensures multiset(r) == multiset(Filter(data, IsActiveRoot()))
    {
      ActiveByOrder(data, IsActiveRoot())
    }

    /** `findChildren`: the active categories whose parent id is `parentId`, ascending by `order`. */
    function FindChildren(parentId: string): (r: seq<Category>)
      reads this
      ensures forall c :: c in r <==> c in data && c.parentId == Some(parentId) && c.isActive
      ensures forall i, j :: 0 <= i < j < |r| ==> r[i].order <= r[j].order
      ensures multiset(r) == multiset(Filter(data, IsActiveChildOf(parentId)))
    {
      ActiveByOrder(data, IsActiveChildOf(parentId))
    }

    /**
     * `findTree`: the root categories in order, each with its active
     * children in order; a category below a child never appears.
     */
    function FindTree(): (r: seq<CategoryWithChildren>)
      reads this
      ensures |r| == |FindRootCategories()|
      ensures forall i :: 0 <= i < |r| ==> r[i].category == FindRootCategories()[i]
      ensures forall i :: 0 <= i < |r| ==> r[i].children == FindChildren(r[i].category.id)
    {
      var roots := FindRootCategories();
      seq(|roots|, i requires 0 <= i < |roots| reads this => CategoryWithChildren(roots[i], FindChildren(roots[i].id)))
    }

    /**
     * `getBreadcrumbs`: walks from the category up its parent chain,
     * putting each category in front of the trail; an unknown id gives an
     * empty trail. The walk ends because the chain is ranked.
     */
    method GetBreadcrumbs(categoryId: string, ghost rank: string -> nat) returns (breadcrumbs: seq<Breadcrumb>)
      requires Ranked(data, rank)
      ensures breadcrumbs == Crumbs(Ancestry(data, FindById(categoryId), rank))
    {
      breadcrumbs := [];
      ghost var visited: seq<Category> := [];
      var current := FindFirst(data, IdIs(categoryId));
      ghost var trail := Ancestry(data, current, rank);
      while current.Some?
        invariant current.Some? ==> current.value in data
        invariant trail == Ancestry(data, current, rank) + visited
        invariant breadcrumbs == Crumbs(visited)
        decreases if current.Some? then rank(current.value.id) + 1 else 0
      {
        var c := current.value;
        AncestryStep(data, c, rank);
        CrumbsCons(c, visited);
        ghost var up := Ancestry(data, ParentOf(data, c), rank);
        assert current == Some(c);
        assert Ancestry(data, current, rank) == up + [c];
        SeqAssoc(up, [c], visited);
        breadcrumbs := [Crumb(c)] + breadcrumbs;
        visited := [c] + visited;
        current := ParentOf(data, c);
      }
    }
  }

  /** In the tree every root is an active top-level category, and every child an active child of its root. */
  lemma TreeShape(repo: CategoryRepository)
    ensures var t := repo.FindTree();
            && (forall i :: 0 <= i < |t| ==> t[i].category in repo.data && !HasParent(t[i].category)
                                              && t[i].category.isActive)
            && (forall i, j :: 0 <= i < j < |t| ==> t[i].category.order <= t[j].category.order)
            && (forall i, c :: 0 <= i < |t| && c in t[i].children ==>
                  c in repo.data && c.isActive && c.parentId == Some(t[i].category.id))
  {
    var t := repo.FindTree();
    var roots := repo.FindRootCategories();
    forall i | 0 <= i < |t|
      ensures t[i].category in repo.data && !HasParent(t[i].category) && t[i].category.isActive
    {
      assert t[i].category == roots[i] && roots[i] in roots;
    }
  }

  /** Root categories sharing an `order` keep their stored order, in the tree as in `findRootCategories`. */
  lemma RootsStable(repo: CategoryRepository, v: int)
    ensures Filter(repo.FindRootCategories(), KeyIs(OrderOf, v)) ==
            Filter(Filter(repo.data, IsActiveRoot()), KeyIs(OrderOf, v))
  {
    SameKeyKeepsOrder(Filter(repo.data, IsActiveRoot()), OrderOf, false, v);
  }

  /** Children sharing an `order` keep their stored order. */
  lemma ChildrenStable(repo: CategoryRepository, parentId: string, v: int)
    ensures Filter(repo.FindChildren(parentId), KeyIs(OrderOf, v)) ==
            Filter(Filter(repo.data, IsActiveChildOf(parentId)), KeyIs(OrderOf, v))
  {
    SameKeyKeepsOrder(Filter(repo.data, IsActiveChildOf(parentId)), OrderOf, false, v);
  }

  /**
   * The breadcrumbs of an unknown id are empty; those of a known one end
   * with that category, each step is the parent of the next, and the trail
   * starts at a category without a (stored) parent.
   */
  lemma BreadcrumbsSpec(data: seq<Category>, categoryId: string, rank: string -> nat)
    requires Ranked(data, rank)
    ensures var found := FindFirst(data, IdIs(categoryId));
            var trail := Ancestry(data, found, rank);
            && (found.None? ==> Crumbs(trail) == [])
            && (found.Some? ==>
                  && trail != [] && trail[|trail| - 1].id == categoryId
                  && Crumbs(trail)[|trail| - 1] == Crumb(found.value)
                  && (forall i :: 1 <= i < |trail| ==> trail[i].parentId == Some(trail[i - 1].id))
                  && ParentOf(data, trail[0]).None?)
  {
    var found := FindFirst(data, IdIs(categoryId));
    if found.Some? {
      AncestrySpec(data, found.value, rank);
    }
  }

  // ---------------------------------------------------------------------
  // Seed categories

  function InitialCategories(): (r: seq<Category>)
    ensures |r| == 23
  {
    seq(23, i requires 0 <= i < 23 => SeedCategory(i))
  }

  function Top(id: string, name: string, slug: string, description: string, icon: string, order: int): (c: Category)
    ensures !HasParent(c)
  {
    Category(id, name, slug, Some(description), Some(icon), None, order, true)
  }

  /** A seed subcategory; its id is the parent's id, a dash and its own number. */
  function Sub(number: string, name: string, slug: string, parentId: string, order: int): (c: Category)
    ensures HasParent(c) ==> |c.parentId.value| < |c.id|
  {
    Category(parentId + "-" + number, name, slug, None, None, Some(parentId), order, true)
  }

  /** The i-th seed category. */
  function SeedCategory(i: nat): (c: Category)
    requires i < 23
    ensures HasParent(c) ==> |c.parentId.value| < |c.id|
  {
    match i
    case 0 => Top("1", "Компьютеры и ноутбуки", "computers", "Настольные ПК, ноутбуки и моноблоки", "Monitor", 1)
    case 1 => Sub("1", "Ноутбуки", "laptops", "1", 1)
    case 2 => Sub("2", "Настольные ПК", "desktop-pcs", "1", 2)
    case 3 => Sub("3", "Моноблоки", "all-in-one", "1", 3)
    case 4 => Top("2", "Комплектующие", "components", "Процессоры, видеокарты, память и накопители", "Cpu", 2)
    case 5 => Sub("1", "Процессоры", "processors", "2", 1)
    case 6 => Sub("2", "Видеокарты", "graphics-cards", "2", 2)
    case 7 => Sub("3", "Оперативная память", "ram", "2", 3)
    case 8 => Sub("4", "SSD накопители", "ssd", "2", 4)
    case 9 => Sub("5", "Материнские платы", "motherboards", "2", 5)
    case 10 => Sub("6", "Блоки питания", "power-supplies", "2", 6)
    case 11 => Sub("7", "Корпуса", "cases", "2", 7)
    case 12 => Sub("8", "Системы охлаждения", "cooling", "2", 8)
    case 13 => Top("3", "Периферия", "peripherals", "Мониторы, клавиатуры, мыши и гарнитуры", "Mouse", 3)
    case 14 => Sub("1", "Мониторы", "monitors", "3", 1)
    case 15 => Sub("2", "Клавиатуры", "keyboards", "3", 2)
    case 16 => Sub("3", "Мыши", "mice", "3", 3)
    case 17 => Sub("4", "Наушники и гарнитуры", "headsets", "3", 4)
    case 18 => Sub("5", "Веб-камеры", "webcams", "3", 5)
    case 19 => Top("4", "Сетевое оборудование", "networking", "Роутеры, коммутаторы и сетевые карты", "Wifi", 4)
    case 20 => Sub("1", "Wi-Fi роутеры", "routers", "4", 1)
    case 21 => Sub("2", "Сетевые карты", "network-cards", "4", 2)
    case 22 => Top("5", "Услуги ремонта", "repair-services", "Профессиональный ремонт компьютерной техники", "Wrench", 5)
  }

  /** The length of an id. */
  function IdLength(id: string): nat {
    |id|
  }

  /**
   * The seed categories are acyclic: a child's id ("1-2") is longer than
   * its parent's ("1"), so breadcrumbs of the seed table always end.
   */
  lemma SeedIsRanked()
    ensures Ranked(InitialCategories(), IdLength)
  {
    var data := InitialCategories();
    forall c | c in data && HasParent(c) ensures IdLength(c.parentId.value) < IdLength(c.id) {
      var i :| 0 <= i < 23 && data[i] == c;
      assert c == SeedCategory(i);
    }
  }
}
