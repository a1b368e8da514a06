/**
  The category routes: the listing builds a one-level-at-a-time tree out of
  the fetched active categories (an id map first, then each category is
  appended to its parent's `enfants` or to the roots), and creation is
  reserved to admins and checks the name, description, colour and parent.
*/
module Categories {
  import opened Text
  import opened Schemas
  import opened Store

  /**
    A fetched category as the tree builder sees it: its id and its populated
    parent. Population yields nothing both when there is no parent and when
    the parent document no longer exists.
  */
  datatype CatEntry = CatEntry(id: CategoryId, parent: Option<CategoryId>)

  /** The populated parent of a stored category. */
  function PopulatedParent(C: map<CategoryId, Category>, c: Category): (r: Option<CategoryId>)
    ensures r.Some? <==> c.parent.Some? && c.parent.value in C
    ensures r.Some? ==> r == c.parent
  {
    if c.parent.Some? && c.parent.value in C then c.parent else None
  }

  /**
    The fetched list, in the order the (unmodelled) sorted query returned the
    ids; `find({ estActive: true })` returns only active categories.
  */
  function Fetch(C: map<CategoryId, Category>, ids: seq<CategoryId>): (cs: seq<CatEntry>)
    requires forall i :: 0 <= i < |ids| ==> ids[i] in C && C[ids[i]].estActive
    ensures |cs| == |ids|
    ensures forall i :: 0 <= i < |ids| ==> cs[i] == CatEntry(ids[i], PopulatedParent(C, C[ids[i]]))
  {
    seq(|ids|, i requires 0 <= i < |ids| => CatEntry(ids[i], PopulatedParent(C, C[ids[i]])))
  }

  /** The ids of a fetched list: the keys of `categoriesMap`. */
  function Ids(cs: seq<CatEntry>): set<CategoryId>
    decreases |cs|
  {
    if cs == [] then {} else Ids(cs[..|cs| - 1]) + {cs[|cs| - 1].id}
  }

  /** The roots: the categories without a (populated) parent, in input order. */
  function Roots(cs: seq<CatEntry>): seq<CategoryId>
    decreases |cs|
  {
    if cs == [] then []
    else
      var last := cs[|cs| - 1];
      Roots(cs[..|cs| - 1]) + (if last.parent.None? then [last.id] else [])
  }

  /** The children of `p`: the categories whose parent is `p`, in input order. */
  function ChildrenOf(cs: seq<CatEntry>, p: CategoryId): seq<CategoryId>
    decreases |cs|
  {
    if cs == [] then []
    else
      var last := cs[|cs| - 1];
      ChildrenOf(cs[..|cs| - 1], p) + (if last.parent == Some(p) then [last.id] else [])
  }

  /** One more fetched category extends the ids, the roots and one child list by that category alone. */
  lemma TreeStep(cs: seq<CatEntry>, i: nat)
    requires i < |cs|
    ensures Ids(cs[..i + 1]) == Ids(cs[..i]) + {cs[i].id}
    ensures Roots(cs[..i + 1]) == Roots(cs[..i]) + (if cs[i].parent.None? then [cs[i].id] else [])
    ensures forall p: CategoryId :: ChildrenOf(cs[..i + 1], p) == ChildrenOf(cs[..i], p) + (if cs[i].parent == Some(p) then [cs[i].id] else [])
  {
    assert cs[..i + 1][..i] == cs[..i];
    assert cs[..i + 1][i] == cs[i];
  }

  /**
    `GET /`: the first loop fills the id map with empty child lists, the second
    appends each category to its parent's list (when that parent was fetched)
    or to the roots (when it has none).
  */
  method BuildTree(cs: seq<CatEntry>) returns (roots: seq<CategoryId>, enfants: map<CategoryId, seq<CategoryId>>, total: nat)
    ensures roots == Roots(cs)
    ensures enfants.Keys == Ids(cs)
    ensures forall p :: p in enfants ==> enfants[p] == ChildrenOf(cs, p)
    ensures total == |cs|
  {
    var categoriesMap: map<CategoryId, seq<CategoryId>> := map[];
    for i := 0 to |cs|
      invariant categoriesMap.Keys == Ids(cs[..i])
      invariant forall p :: p in categoriesMap ==> categoriesMap[p] == []
    {
      TreeStep(cs, i);
      categoriesMap := categoriesMap[cs[i].id := []];
    }
    assert cs[..|cs|] == cs;
    roots := [];
    for i := 0 to |cs|
      invariant categoriesMap.Keys == Ids(cs)
      invariant roots == Roots(cs[..i])
      invariant forall p :: p in categoriesMap ==> categoriesMap[p] == ChildrenOf(cs[..i], p)
    {
      var cat := cs[i];
      TreeStep(cs, i);
      if cat.parent.Some? {
        if cat.parent.value in categoriesMap {
          categoriesMap := categoriesMap[cat.parent.value := categoriesMap[cat.parent.value] + [cat.id]];
        }
      } else {
        roots := roots + [cat.id];
      }
    }
    assert cs[..|cs|] == cs;
    enfants := categoriesMap;
    total := |cs|;
  }

  /** Store ids are unique, so the fetched list has no repeated id. */
  predicate DistinctIds(cs: seq<CatEntry>) {
    forall i, j :: 0 <= i < j < |cs| ==> cs[i].id != cs[j].id
  }

  predicate IsRoot(cs: seq<CatEntry>, x: CategoryId) {
    exists i :: 0 <= i < |cs| && cs[i].id == x && cs[i].parent.None?
  }

  predicate IsChildOf(cs: seq<CatEntry>, x: CategoryId, p: CategoryId) {
    exists i :: 0 <= i < |cs| && cs[i].id == x && cs[i].parent == Some(p)
  }

  /** A category without a parent appears exactly once among the roots; any other does not appear there. */
  lemma {:induction false} RootsExactlyOnce(cs: seq<CatEntry>, x: CategoryId)
    requires DistinctIds(cs)
    ensures multiset(Roots(cs))[x] == if IsRoot(cs, x) then 1 else 0
    decreases |cs|
  {
    if cs != [] {
      var init := cs[..|cs| - 1];
      var last := cs[|cs| - 1];
      RootsExactlyOnce(init, x);
      assert forall i :: 0 <= i < |init| ==> init[i] == cs[i];
      if IsRoot(cs, x) {
        var i :| 0 <= i < |cs| && cs[i].id == x && cs[i].parent.None?;
        if i < |init| {
          assert init[i].id == x && init[i].parent.None?;
        }
      }
      if IsRoot(init, x) {
        var i :| 0 <= i < |init| && init[i].id == x && init[i].parent.None?;
        assert cs[i] == init[i];
      }
      if last.id == x {
        assert !IsRoot(init, x);
      }
    }
  }

  /** A category whose parent is `p` appears exactly once among the children of `p`; any other does not appear there. */
  lemma {:induction false} ChildrenExactlyOnce(cs: seq<CatEntry>, p: CategoryId, x: CategoryId)
    requires DistinctIds(cs)
    ensures multiset(ChildrenOf(cs, p))[x] == if IsChildOf(cs, x, p) then 1 else 0
    decreases |cs|
  {
    if cs != [] {
      var init := cs[..|cs| - 1];
      var last := cs[|cs| - 1];
      ChildrenExactlyOnce(init, p, x);
      assert forall i :: 0 <= i < |init| ==> init[i] == cs[i];
      if IsChildOf(cs, x, p) {
        var i :| 0 <= i < |cs| && cs[i].id == x && cs[i].parent == Some(p);
        if i < |init| {
          assert init[i].id == x && init[i].parent == Some(p);
        }
      }
      if IsChildOf(init, x, p) {
        var i :| 0 <= i < |init| && init[i].id == x && init[i].parent == Some(p);
        assert cs[i] == init[i];
      }
      if last.id == x {
        assert !IsChildOf(init, x, p);
      }
    }
  }

  /** A category whose parent was not fetched (an inactive parent) is dropped: it is neither a root nor any fetched category's child. */
  lemma OrphanDropped(cs: seq<CatEntry>, i: nat)
    requires DistinctIds(cs)
    requires i < |cs| && cs[i].parent.Some? && cs[i].parent.value !in Ids(cs)
    ensures cs[i].id !in Roots(cs)
    ensures forall p :: p in Ids(cs) ==> cs[i].id !in ChildrenOf(cs, p)
  {
    var x := cs[i].id;
    RootsExactlyOnce(cs, x);
    forall p | p in Ids(cs)
      ensures x !in ChildrenOf(cs, p)
    {
      ChildrenExactlyOnce(cs, p, x);
    }
  }

  /** Roots keep input order: splitting the input splits the roots the same way. */
  lemma {:induction false} RootsSplit(a: seq<CatEntry>, b: seq<CatEntry>)
    ensures Roots(a + b) == Roots(a) + Roots(b)
    decreases |b|
  {
    if b == [] {
      assert a + b == a;
    } else {
      var binit := b[..|b| - 1];
      RootsSplit(a, binit);
      assert (a + b)[..|a + b| - 1] == a + binit;
    }
  }

  /** Children keep input order: splitting the input splits each child list the same way. */
  lemma {:induction false} ChildrenSplit(a: seq<CatEntry>, b: seq<CatEntry>, p: CategoryId)
    ensures ChildrenOf(a + b, p) == ChildrenOf(a, p) + ChildrenOf(b, p)
    decreases |b|
  {
    if b == [] {
      assert a + b == a;
    } else {
      var binit := b[..|b| - 1];
      ChildrenSplit(a, binit, p);
      assert (a + b)[..|a + b| - 1] == a + binit;
    }
  }

  /** A category whose parent document is gone is listed as a root, because population leaves it parentless. */
  lemma DanglingParentIsRoot(C: map<CategoryId, Category>, ids: seq<CategoryId>, i: nat)
    requires forall k :: 0 <= k < |ids| ==> ids[k] in C && C[ids[k]].estActive
    requires i < |ids| && C[ids[i]].parent.Some? && C[ids[i]].parent.value !in C
    ensures IsRoot(Fetch(C, ids), ids[i])
  {
    assert Fetch(C, ids)[i] == CatEntry(ids[i], None);
  }

  // ---- creation ----

  /** The body of `POST /`; `None` is a field left out of the JSON. */
  datatype CategoryBody = CategoryBody(
    nom: Option<string>,
    description: Option<string>,
    couleur: Option<string>,
    parent: Option<CategoryId>,
    ordre: Option<int>,
    estActive: Option<bool>)

  /** The creation validators: a trimmed name of 2 to 50 characters, a trimmed description of at most 200, a hexadecimal colour. */
  predicate CategoryBodyValid(b: CategoryBody) {
    && b.nom.Some? && 2 <= |Trim(b.nom.value)| <= 50
    && (b.description.None? || |Trim(b.description.value)| <= 200)
    && (b.couleur.None? || IsHexColour(b.couleur.value))
  }

  /** Some stored category already has this name (active or not). */
  predicate NameInUse(C: map<CategoryId, Category>, nom: string) {
    exists id :: id in C && C[id].nom == nom
  }

  /** The new document: trimmed strings, and the schema defaults for colour, parent, order and activity. */
  function NewCategory(b: CategoryBody): (c: Category)
    requires b.nom.Some?
    ensures c.nom == Trim(b.nom.value)
    ensures c.couleur == (if b.couleur.Some? then b.couleur.value else DefaultCouleur)
    ensures c.parent == b.parent && c.ordre == b.ordre.GetOr(0) && c.estActive == b.estActive.GetOr(true)
  {
    Category(Trim(b.nom.value),
             if b.description.Some? then Some(Trim(b.description.value)) else None,
             b.couleur.GetOr(DefaultCouleur), b.parent, b.ordre.GetOr(0), b.estActive.GetOr(true))
  }

  /** The answer of the creation route: admin check, validators, name uniqueness, parent existence, in that order. */
  function CategoryOutcome(C: map<CategoryId, Category>, actor: Actor, b: CategoryBody): (r: Result<Category>)
    ensures actor.role != Admin ==> r == Err(Forbidden)
    ensures actor.role == Admin && !CategoryBodyValid(b) ==> r == Err(Invalid)
    ensures (actor.role == Admin && CategoryBodyValid(b) && NameInUse(C, Trim(b.nom.value))) ==> r == Err(NameTaken)
    ensures (actor.role == Admin && CategoryBodyValid(b) && !NameInUse(C, Trim(b.nom.value))
             && b.parent.Some? && b.parent.value !in C) ==> r == Err(ParentNotFound)
    ensures r.Ok? <==> actor.role == Admin && CategoryBodyValid(b) && !NameInUse(C, Trim(b.nom.value))
                        && (b.parent.Some? ==> b.parent.value in C)
    ensures r.Ok? ==> r.value == NewCategory(b)
  {
    if actor.role != Admin then Err(Forbidden)
    else if !CategoryBodyValid(b) then Err(Invalid)
    else if NameInUse(C, Trim(b.nom.value)) then Err(NameTaken)
    else if b.parent.Some? && b.parent.value !in C then Err(ParentNotFound)
    else Ok(NewCategory(b))
  }

  /**
    A created category meets the schema's bounds counted in characters: a
    name of 2 to 50, a description of at most 200, and a colour matching the
    pattern (the schema itself counts UTF-16 code units).
  */
  lemma CreatedCategorySchemaValid(C: map<CategoryId, Category>, actor: Actor, b: CategoryBody)
    requires CategoryOutcome(C, actor, b).Ok?
    ensures 2 <= |CategoryOutcome(C, actor, b).value.nom| <= 50
    ensures CategoryOutcome(C, actor, b).value.description.Some? ==> |CategoryOutcome(C, actor, b).value.description.value| <= 200
    ensures IsHexColour(CategoryOutcome(C, actor, b).value.couleur)
  {
    DefaultCouleurIsHex();
  }

  /** No two stored categories share a name. */
  predicate NamesUnique(C: map<CategoryId, Category>) {
    forall a, b :: a in C && b in C && a != b ==> C[a].nom != C[b].nom
  }

  /** Creation through the route keeps names unique. */
  lemma CreationKeepsNamesUnique(C: map<CategoryId, Category>, actor: Actor, b: CategoryBody, newId: CategoryId)
    requires NamesUnique(C)
    requires newId !in C
    requires CategoryOutcome(C, actor, b).Ok?
    ensures NamesUnique(C[newId := CategoryOutcome(C, actor, b).value])
  {
  }

  /** `POST /`: store the new category under a fresh id. */
  method CreateCategory(db: Database, actor: Actor, b: CategoryBody, newId: CategoryId) returns (r: Result<Category>)
    requires newId !in db.categories
    modifies db
    ensures r == CategoryOutcome(old(db.categories), actor, b)
    ensures r.Ok? ==> db.categories == old(db.categories)[newId := r.value]
    ensures r.Err? ==> db.categories == old(db.categories)
    ensures db.products == old(db.products) && db.orders == old(db.orders)
    ensures db.shops == old(db.shops) && db.users == old(db.users)
  {
    if actor.role != Admin {
      return Err(Forbidden);
    }
    if !CategoryBodyValid(b) {
      return Err(Invalid);
    }
    var nom := Trim(b.nom.value);
    if NameInUse(db.categories, nom) {
      return Err(NameTaken);
    }
    if b.parent.Some? && b.parent.value !in db.categories {
      return Err(ParentNotFound);
    }
    var category := NewCategory(b);
    db.categories := db.categories[newId := category];
    r := Ok(category);
  }
}
