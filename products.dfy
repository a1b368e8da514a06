/**
  The product routes: the listing turns query parameters into a filter
  object, a sort selector and a page window (the query itself is not
  modelled); creation, update and deletion are reserved to merchants and
  admins by the role gate, check ownership, and keep each shop's
  `nombreProduits` counter in step with creations and deletions.
*/
module Products {
  import opened Text
  import opened Schemas
  import opened Store
  import opened RoleGate

  // ---- listing: validation and defaults ----

  /** A numeric query parameter as its validator sees it: left out, a number, or text that is not a number. */
  datatype NumParam = Absent | Num(value: int) | Malformed

  /** The query string of `GET /`; `None` is a parameter left out. */
  datatype ListQuery = ListQuery(
    page: NumParam,
    limit: NumParam,
    prixMin: NumParam,
    prixMax: NumParam,
    categorie: Option<string>,
    commercant: Option<string>,
    boutique: Option<string>,
    ville: Option<string>,
    recherche: Option<string>,
    tri: Option<string>)

  const DefaultPage: int := 1
  const DefaultLimit: int := 10
  const MaxLimit: int := 50

  /** An optional parameter that, when given, is a number of at least `min` (and at most `max`, when there is one). */
  predicate NumInRange(p: NumParam, min: int, max: Option<int>) {
    p.Absent? || (p.Num? && min <= p.value && (max.Some? ==> p.value <= max.value))
  }

  /** The four query validators. */
  predicate ListQueryValid(q: ListQuery) {
    && NumInRange(q.page, 1, None)
    && NumInRange(q.limit, 1, Some(MaxLimit))
    && NumInRange(q.prixMin, 0, None)
    && NumInRange(q.prixMax, 0, None)
  }

  /** `parseInt(x) || d`: a missing or non-numeric parameter and a zero both fall back to the default. */
  function NumOr(p: NumParam, d: int): (r: int)
    ensures p.Num? && p.value != 0 ==> r == p.value
    ensures !(p.Num? && p.value != 0) ==> r == d
  {
    if p.Num? && p.value != 0 then p.value else d
  }

  /** A string query parameter that JavaScript treats as true: given and not empty. */
  predicate Truthy(s: Option<string>) {
    s.Some? && s.value != ""
  }

  // ---- listing: filters ----

  /** The `boutique` part of the filter. */
  datatype ShopFilter = AnyShop | ShopIs(boutique: string) | ShopAmong(ids: seq<ShopId>)

  /** The `prix` part of the filter: `$gte` and `$lte` bounds. */
  datatype PriceRange = PriceRange(gte: Option<int>, lte: Option<int>)

  /** The filter object handed to the query. */
  datatype Filters = Filters(
    estDisponible: bool,
    categorie: Option<string>,
    commercant: Option<string>,
    boutique: ShopFilter,
    prix: Option<PriceRange>,
    texte: Option<string>)

  function IfTruthy(s: Option<string>): Option<string> {
    if Truthy(s) then s else None
  }

  function BoundOf(p: NumParam): Option<int> {
    if p.Num? then Some(p.value) else None
  }

  /**
    What the filter object holds for a valid query. `villeShops` stands for
    the ids of the shops whose city matches `ville` (a query of its own).
  */
  predicate FiltersFor(q: ListQuery, villeShops: seq<ShopId>, f: Filters) {
    && f.estDisponible
    && f.categorie == IfTruthy(q.categorie)
    && f.commercant == IfTruthy(q.commercant)
    && (Truthy(q.ville) ==> f.boutique == ShopAmong(villeShops))
    && (!Truthy(q.ville) && Truthy(q.boutique) ==> f.boutique == ShopIs(q.boutique.value))
    && (!Truthy(q.ville) && !Truthy(q.boutique) ==> f.boutique == AnyShop)
    && (f.prix.Some? <==> q.prixMin.Num? || q.prixMax.Num?)
    && (f.prix.Some? ==> f.prix.value.gte == BoundOf(q.prixMin) && f.prix.value.lte == BoundOf(q.prixMax))
    && f.texte == IfTruthy(q.recherche)
  }

  /**
    The filter object, built by successive assignments. `villeShops` is
    `None` when `ville` is not a valid regular expression: `new RegExp`
    throws, and the handler answers 500.
  */
  method BuildFilters(q: ListQuery, villeShops: Option<seq<ShopId>>) returns (r: Result<Filters>)
    requires ListQueryValid(q)
    ensures r.Err? <==> Truthy(q.ville) && villeShops.None?
    ensures r.Err? ==> r.error == ServerError
    ensures r.Ok? ==> FiltersFor(q, villeShops.GetOr([]), r.value)
  {
    var filters := Filters(true, None, None, AnyShop, None, None);
    if Truthy(q.categorie) {
      filters := filters.(categorie := q.categorie);
    }
    if Truthy(q.commercant) {
      filters := filters.(commercant := q.commercant);
    }
    if Truthy(q.boutique) {
      filters := filters.(boutique := ShopIs(q.boutique.value));
    }
    if Truthy(q.ville) {
      if villeShops.None? {
        return Err(ServerError);
      }
      filters := filters.(boutique := ShopAmong(villeShops.value));
    }
    if q.prixMin.Num? || q.prixMax.Num? {
      var prix := PriceRange(None, None);
      if q.prixMin.Num? {
        prix := prix.(gte := Some(q.prixMin.value));
      }
      if q.prixMax.Num? {
        prix := prix.(lte := Some(q.prixMax.value));
      }
      filters := filters.(prix := Some(prix));
    }
    if Truthy(q.recherche) {
      filters := filters.(texte := q.recherche);
    }
    r := Ok(filters);
  }

  /** The filter object is determined by the query: every field is pinned down. */
  lemma FiltersForUnique(q: ListQuery, villeShops: seq<ShopId>, f: Filters, g: Filters)
    requires FiltersFor(q, villeShops, f) && FiltersFor(q, villeShops, g)
    ensures f == g
  {
    if f.prix.Some? {
      assert f.prix.value == g.prix.value;
    }
  }

  /** A product a filter admits, on the fields the model knows (category, merchant and text terms are not matched here). */
  predicate PriceAdmits(r: Option<PriceRange>, prix: int) {
    r.None? || ((r.value.gte.None? || r.value.gte.value <= prix) && (r.value.lte.None? || prix <= r.value.lte.value))
  }

  /** Both price bounds are inclusive, and each applies only when it was given. */
  lemma PriceBoundsInclusive(q: ListQuery, villeShops: seq<ShopId>, f: Filters, prix: int)
    requires FiltersFor(q, villeShops, f)
    ensures PriceAdmits(f.prix, prix) <==>
              (q.prixMin.Num? ==> q.prixMin.value <= prix) && (q.prixMax.Num? ==> prix <= q.prixMax.value)
  {
  }

  // ---- listing: sort and pagination ----

  datatype SortKey = ByPrix | ByNom | ByNote | ByCreatedAt

  /** The sort object: one key and a direction, 1 ascending and -1 descending. */
  datatype SortSpec = SortSpec(key: SortKey, direction: int)

  const SortNames: seq<string> := ["prix_asc", "prix_desc", "nom_asc", "nom_desc", "note"]

  /** The `switch` on `tri`; anything else, or nothing, sorts newest first. */
  function SortFor(tri: Option<string>): (s: SortSpec)
    ensures s.direction == 1 || s.direction == -1
    ensures s.key == ByCreatedAt <==> !(tri.Some? && tri.value in SortNames)
    ensures s.key == ByCreatedAt ==> s.direction == -1
    ensures s.direction == 1 <==> tri == Some("prix_asc") || tri == Some("nom_asc")
    ensures s.key == ByPrix <==> tri == Some("prix_asc") || tri == Some("prix_desc")
    ensures s.key == ByNom <==> tri == Some("nom_asc") || tri == Some("nom_desc")
    ensures s.key == ByNote <==> tri == Some("note")
  {
    if tri == Some("prix_asc") then SortSpec(ByPrix, 1)
    else if tri == Some("prix_desc") then SortSpec(ByPrix, -1)
    else if tri == Some("nom_asc") then SortSpec(ByNom, 1)
    else if tri == Some("nom_desc") then SortSpec(ByNom, -1)
    else if tri == Some("note") then SortSpec(ByNote, -1)
    else SortSpec(ByCreatedAt, -1)
  }

  /** `Math.ceil(total / limit)`. */
  function Pages(total: nat, limit: int): nat
    requires limit >= 1
  {
    (total + limit - 1) / limit
  }

  /** The page count is the least number of pages of `limit` items that hold `total` items. */
  lemma PagesBounds(total: nat, limit: int)
    requires limit >= 1
    ensures Pages(total, limit) * limit >= total
    ensures Pages(total, limit) >= 1 ==> (Pages(total, limit) - 1) * limit < total
    ensures Pages(total, limit) == 0 <==> total == 0
  {
    var n := total + limit - 1;
    var q := n / limit;
    var r := n % limit;
    assert n == q * limit + r && 0 <= r < limit;
    assert (q - 1) * limit == q * limit - limit;
  }

  /** `(page - 1) * limit` skips past the end exactly when the page is beyond the last one. */
  lemma PageWithinResults(page: int, limit: int, total: nat)
    requires page >= 1 && limit >= 1
    ensures (page - 1) * limit < total <==> page <= Pages(total, limit)
  {
    var pages := Pages(total, limit);
    PagesBounds(total, limit);
    if page <= pages {
      MulMonotone(page - 1, pages - 1, limit);
    } else {
      MulMonotone(pages, page - 1, limit);
    }
  }

  lemma MulMonotone(a: int, b: int, k: int)
    requires a <= b && k >= 0
    ensures a * k <= b * k
  {
    assert b * k - a * k == (b - a) * k;
  }

  /** What the listing hands to the query: filters, sort and the page window. */
  datatype Listing = Listing(filters: Filters, sort: SortSpec, page: int, limit: int, skip: int)

  /** `GET /` up to the query: validation, defaults, window, filters and sort; a `ville` that is not a valid pattern answers 500. */
  method PlanListing(q: ListQuery, villeShops: Option<seq<ShopId>>) returns (r: Result<Listing>)
    ensures r.Err? <==> !ListQueryValid(q) || (Truthy(q.ville) && villeShops.None?)
    ensures !ListQueryValid(q) ==> r == Err(Invalid)
    ensures ListQueryValid(q) && Truthy(q.ville) && villeShops.None? ==> r == Err(ServerError)
    ensures r.Ok? ==> r.value.page == (if q.page.Num? then q.page.value else DefaultPage) && r.value.page >= 1
    ensures r.Ok? ==> r.value.limit == (if q.limit.Num? then q.limit.value else DefaultLimit)
    ensures r.Ok? ==> 1 <= r.value.limit <= MaxLimit
    ensures r.Ok? ==> r.value.skip == (r.value.page - 1) * r.value.limit && r.value.skip >= 0
    ensures r.Ok? ==> FiltersFor(q, villeShops.GetOr([]), r.value.filters)
    ensures r.Ok? ==> r.value.sort == SortFor(q.tri)
  {
    if !ListQueryValid(q) {
      return Err(Invalid);
    }
    var page := NumOr(q.page, DefaultPage);
    var limit := NumOr(q.limit, DefaultLimit);
    var skip := (page - 1) * limit;
    var filters := BuildFilters(q, villeShops);
    if filters.Err? {
      return Err(filters.error);
    }
    var sort := SortFor(q.tri);
    r := Ok(Listing(filters.value, sort, page, limit, skip));
  }

  // ---- shop counter ----

  /** `Shop.findByIdAndUpdate(id, { $inc: { 'statistiques.nombreProduits': delta } })`: no effect on a missing shop. */
  function BumpCount(S: map<ShopId, Shop>, id: ShopId, delta: int): map<ShopId, Shop> {
    if id in S then S[id := S[id].(nombreProduits := S[id].nombreProduits + delta)] else S
  }

  /** Only the named shop's counter moves, by exactly `delta`; no shop appears or disappears. */
  lemma BumpCountEffect(S: map<ShopId, Shop>, id: ShopId, delta: int)
    ensures BumpCount(S, id, delta).Keys == S.Keys
    ensures id in S ==> BumpCount(S, id, delta)[id] == S[id].(nombreProduits := S[id].nombreProduits + delta)
    ensures forall k :: k in S && k != id ==> BumpCount(S, id, delta)[k] == S[k]
  {
  }

  /** An increment followed by a decrement of the same counter restores the shops. */
  lemma BumpCountInverse(S: map<ShopId, Shop>, id: ShopId, delta: int)
    ensures BumpCount(BumpCount(S, id, delta), id, -delta) == S
  {
    if id in S {
      assert BumpCount(BumpCount(S, id, delta), id, -delta)[id] == S[id];
    }
  }

  // ---- creation ----

  /** A product body; `None` is a field left out of the JSON. */
  datatype ProductBody = ProductBody(
    nom: Option<string>,
    description: Option<string>,
    prix: Option<int>,
    quantiteDisponible: Option<int>,
    unite: Option<string>,
    categorie: Option<CategoryId>,
    boutique: Option<ShopId>,
    commercant: Option<UserId>,
    estDisponible: Option<bool>,
    devise: Option<string>,
    certification: Option<seq<string>>,
    noteMoyenne: Option<real>)

  /** A trimmed length between two bounds. */
  predicate TrimmedIn(s: string, min: nat, max: nat) {
    min <= |Trim(s)| <= max
  }

  /** The creation validators: every field required, with its bounds. */
  predicate CreateBodyValid(b: ProductBody) {
    && b.nom.Some? && TrimmedIn(b.nom.value, 2, 100)
    && b.description.Some? && TrimmedIn(b.description.value, 10, 1000)
    && b.prix.Some? && b.prix.value >= 0
    && b.quantiteDisponible.Some? && b.quantiteDisponible.value >= 0
    && b.unite.Some? && b.unite.value in Unites
    && b.categorie.Some?
    && b.boutique.Some?
  }

  /** The product schema's bounds, checked by Mongoose on every save of the document. */
  predicate ProductSchemaValid(p: Product) {
    && p.nom != [] && |p.nom| <= 100
    && p.description != [] && |p.description| <= 1000
    && p.prix >= 0
    && p.quantiteDisponible >= 0
    && p.unite in Unites
    && p.devise in Devises
    && (forall i :: 0 <= i < |p.certification| ==> p.certification[i] in Certifications)
    && 0.0 <= p.noteMoyenne <= 5.0
  }

  /**
    The body fields the schema restricts but no creation or update validator
    checks: `devise`, each `certification` entry and `note.moyenne`.
  */
  predicate UncheckedFieldsValid(b: ProductBody) {
    && (b.devise.None? || b.devise.value in Devises)
    && (b.certification.None? || forall i :: 0 <= i < |b.certification.value| ==> b.certification.value[i] in Certifications)
    && (b.noteMoyenne.None? || 0.0 <= b.noteMoyenne.value <= 5.0)
  }

  /** `new Product({ ...req.body, commercant: req.user.userId })`: the requester replaces any `commercant` in the body. */
  function NewProduct(b: ProductBody, uid: UserId): (p: Product)
    requires CreateBodyValid(b)
    ensures p.commercant == uid
    ensures p.nom == Trim(b.nom.value) && p.description == Trim(b.description.value)
    ensures p.prix == b.prix.value && p.quantiteDisponible == b.quantiteDisponible.value
    ensures p.categorie == b.categorie.value && p.boutique == b.boutique.value
    ensures p.estDisponible == b.estDisponible.GetOr(true)
    ensures p.devise == b.devise.GetOr("FCFA") && p.certification == b.certification.GetOr([])
    ensures p.noteMoyenne == b.noteMoyenne.GetOr(0.0)
  {
    Product(Trim(b.nom.value), Trim(b.description.value), b.prix.value, b.quantiteDisponible.value, b.unite.value,
            b.categorie.value, uid, b.boutique.value, b.estDisponible.GetOr(true),
            b.devise.GetOr("FCFA"), b.certification.GetOr([]), b.noteMoyenne.GetOr(0.0))
  }

  /**
    A product made from a body that passes the creation validators passes the
    schema exactly when the fields no validator checks are also within it.
  */
  lemma NewProductSchemaValid(b: ProductBody, uid: UserId)
    requires CreateBodyValid(b)
    ensures ProductSchemaValid(NewProduct(b, uid)) <==> UncheckedFieldsValid(b)
  {
  }

  /** The shop is one the requester owns. */
  predicate OwnsShop(S: map<ShopId, Shop>, id: ShopId, uid: UserId) {
    id in S && S[id].proprietaire == uid
  }

  /**
    The answer of the creation route: role gate, validators, category
    existence, shop ownership, then the save, which fails (answered 500) when
    the new document breaks the schema.
  */
  function CreateOutcome(C: map<CategoryId, Category>, S: map<ShopId, Shop>, actor: Actor, b: ProductBody)
    : (r: Result<Product>)
    ensures CommercantAuth(actor).Refuse403? ==> r == Err(Forbidden)
    ensures CommercantAuth(actor).Next? && !CreateBodyValid(b) ==> r == Err(Invalid)
    ensures (CommercantAuth(actor).Next? && CreateBodyValid(b) && b.categorie.value !in C) ==> r == Err(CategoryNotFound)
    ensures (CommercantAuth(actor).Next? && CreateBodyValid(b) && b.categorie.value in C
             && !OwnsShop(S, b.boutique.value, actor.userId)) ==> r == Err(Forbidden)
    ensures (CommercantAuth(actor).Next? && CreateBodyValid(b) && b.categorie.value in C
             && OwnsShop(S, b.boutique.value, actor.userId) && !UncheckedFieldsValid(b)) ==> r == Err(ServerError)
    ensures r.Ok? <==> && CommercantAuth(actor).Next? && CreateBodyValid(b) && b.categorie.value in C
                       && OwnsShop(S, b.boutique.value, actor.userId) && UncheckedFieldsValid(b)
    ensures r.Ok? ==> r.value == NewProduct(b, actor.userId) && ProductSchemaValid(r.value)
  {
    if CommercantAuth(actor).Refuse403? then Err(Forbidden)
    else if !CreateBodyValid(b) then Err(Invalid)
    else if b.categorie.value !in C then Err(CategoryNotFound)
    else if !OwnsShop(S, b.boutique.value, actor.userId) then Err(Forbidden)
    else
      var product := NewProduct(b, actor.userId);
      NewProductSchemaValid(b, actor.userId);
      if !ProductSchemaValid(product) then Err(ServerError) else Ok(product)
  }

  /** The creation route in order: role gate, validators, category lookup, shop lookup, schema validation by `save()`. */
  method CheckCreate(db: Database, actor: Actor, b: ProductBody) returns (r: Result<Product>)
    ensures r == CreateOutcome(db.categories, db.shops, actor, b)
  {
    if CommercantAuth(actor).Refuse403? {
      return Err(Forbidden);
    }
    if !CreateBodyValid(b) {
      return Err(Invalid);
    }
    if b.categorie.value !in db.categories {
      return Err(CategoryNotFound);
    }
    if !OwnsShop(db.shops, b.boutique.value, actor.userId) {
      return Err(Forbidden);
    }
    var product := NewProduct(b, actor.userId);
    if !ProductSchemaValid(product) {
      return Err(ServerError);
    }
    r := Ok(product);
  }

  /** `POST /`: store the product, then raise its shop's counter by one. */
  method CreateProduct(db: Database, actor: Actor, b: ProductBody, newId: ProductId) returns (r: Result<Product>)
    requires db.Valid()
    requires newId !in db.products
    modifies db
    ensures db.Valid()
    ensures r == CreateOutcome(old(db.categories), old(db.shops), actor, b)
    ensures r.Ok? ==> db.products == old(db.products)[newId := r.value]
    ensures r.Ok? ==> db.shops == BumpCount(old(db.shops), r.value.boutique, 1)
    ensures r.Err? ==> db.products == old(db.products) && db.shops == old(db.shops)
    ensures db.orders == old(db.orders) && db.categories == old(db.categories) && db.users == old(db.users)
  {
    r := CheckCreate(db, actor, b);
    if r.Err? {
      return;
    }
    var product := r.value;
    PutProductKeepsPrices(db.products, newId, product);
    db.products := db.products[newId := product];
    db.shops := BumpCount(db.shops, product.boutique, 1);
  }

  // ---- update ----

  /** The update validators: each field optional, with the creation bounds when given. */
  predicate UpdateBodyValid(b: ProductBody) {
    && (b.nom.None? || TrimmedIn(b.nom.value, 2, 100))
    && (b.description.None? || TrimmedIn(b.description.value, 10, 1000))
    && (b.prix.None? || b.prix.value >= 0)
    && (b.quantiteDisponible.None? || b.quantiteDisponible.value >= 0)
  }

  function Pick<T>(given: Option<T>, current: T): T {
    if given.Some? then given.value else current
  }

  /** `Object.assign(product, req.body)`: every field present in the (sanitised) body overwrites the product's. */
  function Assigned(p: Product, b: ProductBody): (r: Product)
    ensures b.nom.Some? ==> r.nom == Trim(b.nom.value)
    ensures b.nom.None? ==> r.nom == p.nom
    ensures b.description.Some? ==> r.description == Trim(b.description.value)
    ensures b.description.None? ==> r.description == p.description
    ensures r.prix == Pick(b.prix, p.prix) && r.quantiteDisponible == Pick(b.quantiteDisponible, p.quantiteDisponible)
    ensures r.unite == Pick(b.unite, p.unite) && r.categorie == Pick(b.categorie, p.categorie)
    ensures r.boutique == Pick(b.boutique, p.boutique) && r.commercant == Pick(b.commercant, p.commercant)
    ensures r.estDisponible == Pick(b.estDisponible, p.estDisponible)
    ensures r.devise == Pick(b.devise, p.devise) && r.certification == Pick(b.certification, p.certification)
    ensures r.noteMoyenne == Pick(b.noteMoyenne, p.noteMoyenne)
  {
    Product(if b.nom.Some? then Trim(b.nom.value) else p.nom,
            if b.description.Some? then Trim(b.description.value) else p.description,
            Pick(b.prix, p.prix), Pick(b.quantiteDisponible, p.quantiteDisponible), Pick(b.unite, p.unite),
            Pick(b.categorie, p.categorie), Pick(b.commercant, p.commercant),
            Pick(b.boutique, p.boutique), Pick(b.estDisponible, p.estDisponible),
            Pick(b.devise, p.devise), Pick(b.certification, p.certification), Pick(b.noteMoyenne, p.noteMoyenne))
  }

  /** The empty body assigns nothing. */
  lemma AssignNothing(p: Product)
    ensures Assigned(p, ProductBody(None, None, None, None, None, None, None, None, None, None, None, None)) == p
  {
  }

  /** The product is one the requester sells: `findOne({ _id, commercant: userId })`. */
  predicate OwnsProduct(P: map<ProductId, Product>, id: ProductId, uid: UserId) {
    id in P && P[id].commercant == uid
  }

  /**
    The answer of the update route: role gate, validators, ownership (404
    otherwise), then the save, which fails (answered 500) when the assigned
    document breaks the schema.
  */
  function UpdateOutcome(P: map<ProductId, Product>, actor: Actor, id: ProductId, b: ProductBody): (r: Result<Product>)
    ensures CommercantAuth(actor).Refuse403? ==> r == Err(Forbidden)
    ensures CommercantAuth(actor).Next? && !UpdateBodyValid(b) ==> r == Err(Invalid)
    ensures (CommercantAuth(actor).Next? && UpdateBodyValid(b) && !OwnsProduct(P, id, actor.userId)) ==> r == Err(NotFound)
    ensures (CommercantAuth(actor).Next? && UpdateBodyValid(b) && OwnsProduct(P, id, actor.userId)
             && !ProductSchemaValid(Assigned(P[id], b))) ==> r == Err(ServerError)
    ensures r.Ok? <==> && CommercantAuth(actor).Next? && UpdateBodyValid(b) && OwnsProduct(P, id, actor.userId)
                       && ProductSchemaValid(Assigned(P[id], b))
    ensures r.Ok? ==> r.value == Assigned(P[id], b)
  {
    if CommercantAuth(actor).Refuse403? then Err(Forbidden)
    else if !UpdateBodyValid(b) then Err(Invalid)
    else if !OwnsProduct(P, id, actor.userId) then Err(NotFound)
    else
      var updated := Assigned(P[id], b);
      if !ProductSchemaValid(updated) then Err(ServerError) else Ok(updated)
  }

  /** `PUT /:id`: only the product's own merchant can update it, and the shop counters are not touched. */
  method UpdateProduct(db: Database, actor: Actor, id: ProductId, b: ProductBody) returns (r: Result<Product>)
    requires db.Valid()
    modifies db
    ensures db.Valid()
    ensures r == UpdateOutcome(old(db.products), actor, id, b)
    ensures r.Ok? ==> db.products == old(db.products)[id := r.value]
    ensures r.Err? ==> db.products == old(db.products)
    ensures db.shops == old(db.shops) && db.orders == old(db.orders)
    ensures db.categories == old(db.categories) && db.users == old(db.users)
  {
    if CommercantAuth(actor).Refuse403? {
      return Err(Forbidden);
    }
    if !UpdateBodyValid(b) {
      return Err(Invalid);
    }
    if !OwnsProduct(db.products, id, actor.userId) {
      return Err(NotFound);
    }
    var product := Assigned(db.products[id], b);
    if !ProductSchemaValid(product) {
      return Err(ServerError);
    }
    PutProductKeepsPrices(db.products, id, product);
    db.products := db.products[id := product];
    r := Ok(product);
  }

  // ---- deletion ----

  /** The answer of the deletion route: role gate, then ownership (404 otherwise); the deleted product on success. */
  function DeleteOutcome(P: map<ProductId, Product>, actor: Actor, id: ProductId): (r: Result<Product>)
    ensures CommercantAuth(actor).Refuse403? ==> r == Err(Forbidden)
    ensures CommercantAuth(actor).Next? && !OwnsProduct(P, id, actor.userId) ==> r == Err(NotFound)
    ensures r.Ok? <==> CommercantAuth(actor).Next? && OwnsProduct(P, id, actor.userId)
    ensures r.Ok? ==> r.value == P[id]
  {
    if CommercantAuth(actor).Refuse403? then Err(Forbidden)
    else if !OwnsProduct(P, id, actor.userId) then Err(NotFound)
    else Ok(P[id])
  }

  /** `DELETE /:id`: remove the product, then lower the counter of the shop it names by one. */
  method DeleteProduct(db: Database, actor: Actor, id: ProductId) returns (r: Result<Product>)
    requires db.Valid()
    modifies db
    ensures db.Valid()
    ensures r == DeleteOutcome(old(db.products), actor, id)
    ensures r.Ok? ==> db.products == old(db.products) - {id}
    ensures r.Ok? ==> db.shops == BumpCount(old(db.shops), r.value.boutique, -1)
    ensures r.Err? ==> db.products == old(db.products) && db.shops == old(db.shops)
    ensures db.orders == old(db.orders) && db.categories == old(db.categories) && db.users == old(db.users)
  {
    if CommercantAuth(actor).Refuse403? {
      return Err(Forbidden);
    }
    if !OwnsProduct(db.products, id, actor.userId) {
      return Err(NotFound);
    }
    var product := db.products[id];
    db.products := db.products - {id};
    db.shops := BumpCount(db.shops, product.boutique, -1);
    r := Ok(product);
  }

  // ---- properties across routes ----

  /** A created product can be deleted by its creator, and doing so restores both the products and the shop counters. */
  lemma CreateThenDeleteRestores(P: map<ProductId, Product>, C: map<CategoryId, Category>, S: map<ShopId, Shop>,
                                 actor: Actor, b: ProductBody, newId: ProductId)
    requires newId !in P
    requires CreateOutcome(C, S, actor, b).Ok?
    ensures var p := CreateOutcome(C, S, actor, b).value;
            && DeleteOutcome(P[newId := p], actor, newId) == Ok(p)
            && P[newId := p] - {newId} == P
            && BumpCount(BumpCount(S, p.boutique, 1), p.boutique, -1) == S
  {
    var p := CreateOutcome(C, S, actor, b).value;
    BumpCountInverse(S, p.boutique, 1);
    assert P[newId := p] - {newId} == P;
  }

  /** Only the owning merchant's update or deletion succeeds. */
  lemma OnlyOwnerChangesProduct(P: map<ProductId, Product>, actor: Actor, id: ProductId, b: ProductBody)
    ensures UpdateOutcome(P, actor, id, b).Ok? ==> id in P && P[id].commercant == actor.userId
    ensures DeleteOutcome(P, actor, id).Ok? ==> id in P && P[id].commercant == actor.userId
    ensures UpdateOutcome(P, actor, id, b).Ok? || DeleteOutcome(P, actor, id).Ok? ==> actor.role != Client
  {
  }

  /**
    An update may name another shop without moving any counter, so a later
    deletion lowers the new shop's counter while the old shop keeps the one
    the creation added.
  */
  lemma UpdateMovesShopWithoutCounters(P: map<ProductId, Product>, S: map<ShopId, Shop>, actor: Actor,
                                       id: ProductId, b: ProductBody)
    requires UpdateOutcome(P, actor, id, b).Ok?
    requires b.boutique.Some? && b.boutique.value != P[id].boutique && b.commercant.None?
    requires P[id].boutique in S
    ensures var moved := UpdateOutcome(P, actor, id, b).value;
            && DeleteOutcome(P[id := moved], actor, id).Ok?
            && moved.boutique == b.boutique.value
            && BumpCount(S, moved.boutique, -1)[P[id].boutique] == S[P[id].boutique]
  {
  }

  /** An update may also name another merchant, after which the original merchant can neither update nor delete the product. */
  lemma UpdateCanGiveAwayProduct(P: map<ProductId, Product>, actor: Actor, id: ProductId, b: ProductBody, b2: ProductBody)
    requires UpdateOutcome(P, actor, id, b).Ok?
    requires b.commercant.Some? && b.commercant.value != actor.userId
    ensures var given := P[id := UpdateOutcome(P, actor, id, b).value];
            && DeleteOutcome(given, actor, id) == Err(NotFound)
            && UpdateOutcome(given, actor, id, b2).Err?
  {
  }

  /** An update never lowers a price below zero, so the store's price bound holds after any successful update. */
  lemma UpdateKeepsPricesValid(P: map<ProductId, Product>, actor: Actor, id: ProductId, b: ProductBody)
    requires PricesValid(P)
    requires UpdateOutcome(P, actor, id, b).Ok?
    ensures PricesValid(P[id := UpdateOutcome(P, actor, id, b).value])
  {
  }
}
