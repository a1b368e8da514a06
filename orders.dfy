/**
  The order routes: placing an order (request validation, the per-line
  product checks, the price snapshot and totals, the flat delivery-fee rule,
  saving, then one stock decrement per line), the status update (merchant
  ownership gate, one history entry, delivery side effects), cancellation
  (forbidden window, owner check, one stock increment per line) and the
  client-only view filter.
*/
module Orders {
  import opened Text
  import opened Schemas
  import opened OrderModel
  import opened Store

  /** One requested line: `{ produit, quantite }`. */
  datatype LineRequest = LineRequest(produit: ProductId, quantite: int)

  /** The body of `POST /`. */
  datatype OrderRequest = OrderRequest(
    articles: seq<LineRequest>,
    adresseLivraison: DeliveryAddress,
    modePaiement: string,
    commentaires: Option<string>)

  const FreeDeliveryAbove: int := 10000
  const FlatDeliveryFee: int := 1000
  const MaxCommentLength: nat := 500
  const CancelComment: string := "Commande annulée par le client"

  // ---- creation: validation ----

  /** `trim().notEmpty()`: present and not blank. */
  predicate NonBlank(s: Option<string>) {
    s.Some? && Trim(s.value) != ""
  }

  /** The request validators of the creation route. */
  predicate RequestValid(req: OrderRequest) {
    && |req.articles| >= 1
    && (forall i :: 0 <= i < |req.articles| ==> req.articles[i].quantite >= 1)
    && NonBlank(req.adresseLivraison.nom)
    && req.adresseLivraison.telephone.Some? && IsPhone(req.adresseLivraison.telephone.value)
    && NonBlank(req.adresseLivraison.ville)
    && ParseModePaiement(req.modePaiement).Some?
  }

  function TrimOpt(s: Option<string>): (r: Option<string>)
    ensures r.Some? <==> s.Some?
  {
    if s.Some? then Some(Trim(s.value)) else None
  }

  /** The address as stored: the `trim()` sanitisers have rewritten `nom` and `ville`. */
  function SanitizedAddress(a: DeliveryAddress): DeliveryAddress {
    a.(nom := TrimOpt(a.nom), ville := TrimOpt(a.ville))
  }

  /** The three checks on one line against the stored product, in the source's order, and the priced line. */
  function CheckLine(P: map<ProductId, Product>, line: LineRequest): (r: Result<Article>)
    ensures line.produit !in P ==> r == Err(ProductNotFound(line.produit))
    ensures line.produit in P && !P[line.produit].estDisponible ==> r == Err(ProductUnavailable(P[line.produit].nom))
    ensures line.produit in P && P[line.produit].estDisponible && P[line.produit].quantiteDisponible < line.quantite ==>
              r == Err(InsufficientStock(P[line.produit].nom, P[line.produit].quantiteDisponible))
    ensures r.Ok? <==> line.produit in P && P[line.produit].estDisponible && P[line.produit].quantiteDisponible >= line.quantite
    ensures r.Ok? ==> r.value.produit == line.produit && r.value.quantite == line.quantite
    ensures r.Ok? ==> r.value.prixUnitaire == P[line.produit].prix && r.value.sousTotal == r.value.prixUnitaire * line.quantite
  {
    if line.produit !in P then Err(ProductNotFound(line.produit))
    else
      var p := P[line.produit];
      if !p.estDisponible then Err(ProductUnavailable(p.nom))
      else if p.quantiteDisponible < line.quantite then Err(InsufficientStock(p.nom, p.quantiteDisponible))
      else Ok(Article(line.produit, line.quantite, p.prix, p.prix * line.quantite))
  }

  /** All lines checked in input order against the unchanged store; the first failing line decides the error. */
  function CheckLines(P: map<ProductId, Product>, lines: seq<LineRequest>): (r: Result<seq<Article>>)
    ensures r.Ok? <==> forall i :: 0 <= i < |lines| ==> CheckLine(P, lines[i]).Ok?
    ensures r.Ok? ==> |r.value| == |lines|
    ensures r.Ok? ==> forall i :: 0 <= i < |lines| ==> r.value[i] == CheckLine(P, lines[i]).value
    decreases |lines|
  {
    if lines == [] then Ok([])
    else
      var init := lines[..|lines| - 1];
      var prior := CheckLines(P, init);
      if prior.Err? then prior
      else
        var last := CheckLine(P, lines[|lines| - 1]);
        if last.Err? then Err(last.error) else Ok(prior.value + [last.value])
  }

  /** Once a prefix fails, the whole request fails with the same error. */
  lemma {:induction false} PrefixErrorPersists(P: map<ProductId, Product>, lines: seq<LineRequest>, k: nat)
    requires k <= |lines|
    requires CheckLines(P, lines[..k]).Err?
    ensures CheckLines(P, lines) == CheckLines(P, lines[..k])
    decreases |lines| - k
  {
    if k < |lines| {
      var init := lines[..|lines| - 1];
      assert init[..k] == lines[..k];
      PrefixErrorPersists(P, init, k);
    } else {
      assert lines[..k] == lines;
    }
  }

  /** The request is refused with the error of the first line that fails (missing, unavailable or short of stock). */
  lemma {:induction false} FirstFailingLineDecides(P: map<ProductId, Product>, lines: seq<LineRequest>, i: nat)
    requires i < |lines|
    requires forall j :: 0 <= j < i ==> CheckLine(P, lines[j]).Ok?
    requires CheckLine(P, lines[i]).Err?
    ensures CheckLines(P, lines) == Err(CheckLine(P, lines[i]).error)
  {
    var pre := lines[..i + 1];
    assert pre[..i] == lines[..i];
    assert CheckLines(P, lines[..i]).Ok?;
    assert pre[i] == lines[i];
    PrefixErrorPersists(P, lines, i + 1);
  }

  /** The sum of the line subtotals, `montantTotal`. */
  function SumSousTotal(arts: seq<Article>): int
    decreases |arts|
  {
    if arts == [] then 0 else SumSousTotal(arts[..|arts| - 1]) + arts[|arts| - 1].sousTotal
  }

  lemma {:induction false} SumSousTotalNonNegative(arts: seq<Article>)
    requires forall i :: 0 <= i < |arts| ==> arts[i].sousTotal >= 0
    ensures SumSousTotal(arts) >= 0
    decreases |arts|
  {
    if arts != [] {
      SumSousTotalNonNegative(arts[..|arts| - 1]);
    }
  }

  /** The validated lines with their total, as the creation loop accumulates them. */
  datatype Priced = Priced(articles: seq<Article>, montantTotal: int)

  /** One more line on a prefix that passed: the new line's own check decides. */
  lemma CheckLinesStep(P: map<ProductId, Product>, lines: seq<LineRequest>, i: nat)
    requires i < |lines|
    requires CheckLines(P, lines[..i]).Ok?
    ensures CheckLine(P, lines[i]).Err? ==> CheckLines(P, lines[..i + 1]) == Err(CheckLine(P, lines[i]).error)
    ensures CheckLine(P, lines[i]).Ok? ==>
              CheckLines(P, lines[..i + 1]) == Ok(CheckLines(P, lines[..i]).value + [CheckLine(P, lines[i]).value])
  {
    assert lines[..i + 1][..i] == lines[..i];
    assert lines[..i + 1][i] == lines[i];
  }

  /** The creation loop: check each line, snapshot its price, accumulate the total; stop at the first failing line. */
  method PriceLines(P: map<ProductId, Product>, lines: seq<LineRequest>) returns (r: Result<Priced>)
    ensures r.Err? <==> CheckLines(P, lines).Err?
    ensures r.Err? ==> r.error == CheckLines(P, lines).error
    ensures r.Ok? ==> r.value.articles == CheckLines(P, lines).value
    ensures r.Ok? ==> r.value.montantTotal == SumSousTotal(r.value.articles)
  {
    var montantTotal := 0;
    var articlesValides: seq<Article> := [];
    for i := 0 to |lines|
      invariant CheckLines(P, lines[..i]) == Ok(articlesValides)
      invariant montantTotal == SumSousTotal(articlesValides)
    {
      var article := lines[i];
      CheckLinesStep(P, lines, i);
      if article.produit !in P {
        PrefixErrorPersists(P, lines, i + 1);
        return Err(ProductNotFound(article.produit));
      }
      var produit := P[article.produit];
      if !produit.estDisponible {
        PrefixErrorPersists(P, lines, i + 1);
        return Err(ProductUnavailable(produit.nom));
      }
      if produit.quantiteDisponible < article.quantite {
        PrefixErrorPersists(P, lines, i + 1);
        return Err(InsufficientStock(produit.nom, produit.quantiteDisponible));
      }
      var sousTotal := produit.prix * article.quantite;
      montantTotal := montantTotal + sousTotal;
      var next := articlesValides + [Article(article.produit, article.quantite, produit.prix, sousTotal)];
      assert next[..|next| - 1] == articlesValides;
      articlesValides := next;
    }
    assert lines[..|lines|] == lines;
    r := Ok(Priced(articlesValides, montantTotal));
  }

  /** The delivery fee: free strictly above 10000, a flat 1000 otherwise (so exactly 10000 pays). */
  function ShippingFee(montantTotal: int): (fee: int)
    ensures fee == 0 <==> montantTotal > FreeDeliveryAbove
    ensures fee == FlatDeliveryFee <==> montantTotal <= FreeDeliveryAbove
  {
    if montantTotal > FreeDeliveryAbove then 0 else FlatDeliveryFee
  }

  /** The order as saved by a successful creation. */
  function PlacedOrder(client: UserId, arts: seq<Article>, req: OrderRequest, today: CalendarDate, sameDayCount: nat): (o: OrderData)
    requires ParseModePaiement(req.modePaiement).Some?
    ensures o.client == client && o.articles == arts
    ensures o.montantTotal == SumSousTotal(arts)
    ensures o.fraisLivraison == ShippingFee(SumSousTotal(arts))
    ensures o.montantFinal == Some(o.montantTotal + o.fraisLivraison)
    ensures o.numeroCommande == Some(OrderNumber(today, sameDayCount))
    ensures o.statut == EnAttente && o.statutPaiement == PaiementEnAttente && o.historiqueStatuts == []
    ensures o.adresseLivraison == SanitizedAddress(req.adresseLivraison)
  {
    var total := SumSousTotal(arts);
    AfterSave(NewOrder(client, arts, total, Some(ShippingFee(total)), SanitizedAddress(req.adresseLivraison),
                       ParseModePaiement(req.modePaiement).value, req.commentaires), today, sameDayCount)
  }

  /** Checked lines of a valid request against a store of non-negative prices have positive quantities and non-negative prices and subtotals. */
  lemma CheckedLinesWellFormed(P: map<ProductId, Product>, lines: seq<LineRequest>)
    requires forall i :: 0 <= i < |lines| ==> lines[i].quantite >= 1
    requires PricesValid(P)
    requires CheckLines(P, lines).Ok?
    ensures LinesWellFormed(CheckLines(P, lines).value)
  {
    var arts := CheckLines(P, lines).value;
    forall i | 0 <= i < |arts|
      ensures arts[i].quantite >= 1 && arts[i].prixUnitaire >= 0 && arts[i].sousTotal >= 0
    {
      var line := lines[i];
      assert CheckLine(P, line).Ok?;
      assert arts[i] == CheckLine(P, line).value;
      assert arts[i].sousTotal == arts[i].prixUnitaire * line.quantite;
    }
  }

  predicate LinesWellFormed(arts: seq<Article>) {
    forall i :: 0 <= i < |arts| ==> arts[i].quantite >= 1 && arts[i].prixUnitaire >= 0 && arts[i].sousTotal >= 0
  }

  /** Well-formed priced lines make a valid stored order. */
  lemma PlacedOrderValid(client: UserId, arts: seq<Article>, req: OrderRequest, today: CalendarDate, sameDayCount: nat)
    requires ParseModePaiement(req.modePaiement).Some?
    requires LinesWellFormed(arts)
    ensures StoredOrderValid(PlacedOrder(client, arts, req, today, sameDayCount))
  {
    SumSousTotalNonNegative(arts);
  }

  // ---- stock ledger ----

  /** `findByIdAndUpdate(id, { $inc: { quantiteDisponible: delta } })`: no minimum check, no effect on a missing product. */
  function AdjustStock(P: map<ProductId, Product>, id: ProductId, delta: int): map<ProductId, Product> {
    if id in P then P[id := P[id].(quantiteDisponible := P[id].quantiteDisponible + delta)] else P
  }

  /** One `$inc` per line, in line order, by `sign` times the line's quantity. */
  function ApplyStock(P: map<ProductId, Product>, arts: seq<Article>, sign: int): map<ProductId, Product>
    decreases |arts|
  {
    if arts == [] then P
    else
      var last := arts[|arts| - 1];
      AdjustStock(ApplyStock(P, arts[..|arts| - 1], sign), last.produit, sign * last.quantite)
  }

  /** The total quantity of the lines that name product `id`. */
  function QtyFor(arts: seq<Article>, id: ProductId): int
    decreases |arts|
  {
    if arts == [] then 0
    else QtyFor(arts[..|arts| - 1], id) + (if arts[|arts| - 1].produit == id then arts[|arts| - 1].quantite else 0)
  }

  /** The requested quantity of the lines that name product `id`. */
  function RequestedFor(lines: seq<LineRequest>, id: ProductId): int
    decreases |lines|
  {
    if lines == [] then 0
    else RequestedFor(lines[..|lines| - 1], id) + (if lines[|lines| - 1].produit == id then lines[|lines| - 1].quantite else 0)
  }

  /** The per-line updates add up: each product moves by `sign` times the quantities naming it; nothing else changes. */
  lemma {:induction false} ApplyStockEffect(P: map<ProductId, Product>, arts: seq<Article>, sign: int)
    ensures ApplyStock(P, arts, sign).Keys == P.Keys
    ensures forall id :: id in P ==>
              ApplyStock(P, arts, sign)[id] == P[id].(quantiteDisponible := P[id].quantiteDisponible + sign * QtyFor(arts, id))
    decreases |arts|
  {
    if arts != [] {
      var init := arts[..|arts| - 1];
      var last := arts[|arts| - 1];
      ApplyStockEffect(P, init, sign);
      forall id | id in P
        ensures sign * QtyFor(arts, id) == sign * QtyFor(init, id) + (if last.produit == id then sign * last.quantite else 0)
      {
        var extra := if last.produit == id then last.quantite else 0;
        assert QtyFor(arts, id) == QtyFor(init, id) + extra;
        assert sign * (QtyFor(init, id) + extra) == sign * QtyFor(init, id) + sign * extra;
      }
    }
  }

  /** The lines a successful check produced name the same products with the same quantities as the request. */
  lemma {:induction false} CheckedQuantities(P: map<ProductId, Product>, lines: seq<LineRequest>, id: ProductId)
    requires CheckLines(P, lines).Ok?
    ensures QtyFor(CheckLines(P, lines).value, id) == RequestedFor(lines, id)
    decreases |lines|
  {
    if lines != [] {
      var init := lines[..|lines| - 1];
      CheckedQuantities(P, init, id);
    }
  }

  /**
    After a successful creation each product's stock has dropped by the sum of
    the quantities of the lines naming it, and no other field or product has
    changed. With repeated ids this can go below zero (see RepeatedLinesCanOversell).
  */
  lemma StockAfterCreation(P: map<ProductId, Product>, lines: seq<LineRequest>)
    requires CheckLines(P, lines).Ok?
    ensures ApplyStock(P, CheckLines(P, lines).value, -1).Keys == P.Keys
    ensures forall id :: id in P ==>
              ApplyStock(P, CheckLines(P, lines).value, -1)[id]
                == P[id].(quantiteDisponible := P[id].quantiteDisponible - RequestedFor(lines, id))
  {
    var arts := CheckLines(P, lines).value;
    ApplyStockEffect(P, arts, -1);
    forall id | id in P
      ensures ApplyStock(P, arts, -1)[id] == P[id].(quantiteDisponible := P[id].quantiteDisponible - RequestedFor(lines, id))
    {
      CheckedQuantities(P, lines, id);
    }
  }

  /** Creation followed by cancellation of the same lines, with nothing in between, restores every product exactly. */
  lemma CreateThenCancelRestoresStock(P: map<ProductId, Product>, arts: seq<Article>)
    ensures ApplyStock(ApplyStock(P, arts, -1), arts, 1) == P
  {
    var D := ApplyStock(P, arts, -1);
    ApplyStockEffect(P, arts, -1);
    ApplyStockEffect(D, arts, 1);
    var R := ApplyStock(D, arts, 1);
    assert R.Keys == P.Keys;
    forall id | id in P
      ensures R[id] == P[id]
    {
    }
  }

  /** Nothing stops a second cancellation: it adds the quantities back a second time. */
  lemma CancelTwiceRestoresTwice(P: map<ProductId, Product>, arts: seq<Article>, id: ProductId)
    requires id in P
    ensures id in ApplyStock(ApplyStock(P, arts, 1), arts, 1)
    ensures ApplyStock(ApplyStock(P, arts, 1), arts, 1)[id].quantiteDisponible
              == P[id].quantiteDisponible + 2 * QtyFor(arts, id)
  {
    ApplyStockEffect(P, arts, 1);
    ApplyStockEffect(ApplyStock(P, arts, 1), arts, 1);
  }

  /** Each line is checked against the stock as stored, so two lines of one unit on a product holding one unit both pass and the stock ends at -1. */
  lemma RepeatedLinesCanOversell()
    ensures var P := map[7 := Product("Riz", "Riz parfumé", 500, 1, "kg", 1, 2, 3, true, "FCFA", [], 0.0)];
            var lines := [LineRequest(7, 1), LineRequest(7, 1)];
            && CheckLines(P, lines).Ok?
            && 7 in ApplyStock(P, CheckLines(P, lines).value, -1)
            && ApplyStock(P, CheckLines(P, lines).value, -1)[7].quantiteDisponible == -1
  {
    var P := map[7 := Product("Riz", "Riz parfumé", 500, 1, "kg", 1, 2, 3, true, "FCFA", [], 0.0)];
    var lines := [LineRequest(7, 1), LineRequest(7, 1)];
    assert CheckLine(P, lines[0]).Ok? && CheckLine(P, lines[1]).Ok?;
    StockAfterCreation(P, lines);
    assert lines[..1] == [LineRequest(7, 1)];
    assert [LineRequest(7, 1)][..0] == [];
    assert RequestedFor(lines, 7) == 2;
  }

  /**
    Two lines `A × 2 at 1500` and `B × 1 at 800`: subtotal 3800, fee 1000,
    final 4800, and A's stock goes from 50 to 48 and back after cancellation.
  */
  lemma WorkedExample(client: UserId, req: OrderRequest, today: CalendarDate)
    requires req.articles == [LineRequest(1, 2), LineRequest(2, 1)]
    requires ParseModePaiement(req.modePaiement).Some?
    ensures var P := map[1 := Product("A", "Produit A", 1500, 50, "kg", 0, 9, 5, true, "FCFA", [], 0.0),
                         2 := Product("B", "Produit B", 800, 10, "kg", 0, 9, 5, true, "FCFA", [], 0.0)];
            && CheckLines(P, req.articles).Ok?
            && var o := PlacedOrder(client, CheckLines(P, req.articles).value, req, today, 0);
            && o.montantTotal == 3800 && o.fraisLivraison == 1000 && o.montantFinal == Some(4800)
            && 1 in ApplyStock(P, o.articles, -1)
            && ApplyStock(P, o.articles, -1)[1].quantiteDisponible == 48
            && ApplyStock(ApplyStock(P, o.articles, -1), o.articles, 1) == P
  {
    var P := map[1 := Product("A", "Produit A", 1500, 50, "kg", 0, 9, 5, true, "FCFA", [], 0.0),
                 2 := Product("B", "Produit B", 800, 10, "kg", 0, 9, 5, true, "FCFA", [], 0.0)];
    var lines := req.articles;
    assert CheckLine(P, lines[0]).Ok? && CheckLine(P, lines[1]).Ok?;
    var arts := CheckLines(P, lines).value;
    assert arts[0] == Article(1, 2, 1500, 3000);
    assert arts[1] == Article(2, 1, 800, 800);
    var first := arts[..1];
    assert first[..0] == [] && first[0] == arts[0];
    assert SumSousTotal(first) == 3000;
    assert SumSousTotal(arts) == 3800;
    StockAfterCreation(P, lines);
    assert lines[..1] == [LineRequest(1, 2)];
    assert [LineRequest(1, 2)][..0] == [];
    assert RequestedFor(lines, 1) == 2;
    CreateThenCancelRestoresStock(P, arts);
  }

  /** On the worked example's two lines, the route as written answers 500 where the intended route places the order. */
  lemma WorkedExampleAnswers500(actor: Actor, req: OrderRequest, today: CalendarDate)
    requires RequestValid(req)
    requires req.articles == [LineRequest(1, 2), LineRequest(2, 1)]
    ensures var P := map[1 := Product("A", "Produit A", 1500, 50, "kg", 0, 9, 5, true, "FCFA", [], 0.0),
                         2 := Product("B", "Produit B", 800, 10, "kg", 0, 9, 5, true, "FCFA", [], 0.0)];
            && CreateOutcome(P, actor, req, today, 0) == Err(ServerError)
            && IntendedCreateOutcome(P, actor, req, today, 0).Ok?
  {
    var P := map[1 := Product("A", "Produit A", 1500, 50, "kg", 0, 9, 5, true, "FCFA", [], 0.0),
                 2 := Product("B", "Produit B", 800, 10, "kg", 0, 9, 5, true, "FCFA", [], 0.0)];
    assert CheckLine(P, req.articles[0]).Ok? && CheckLine(P, req.articles[1]).Ok?;
  }

  /** Stock moves never touch prices. */
  lemma ApplyStockKeepsPrices(P: map<ProductId, Product>, arts: seq<Article>, sign: int)
    requires PricesValid(P)
    ensures PricesValid(ApplyStock(P, arts, sign))
  {
    ApplyStockEffect(P, arts, sign);
  }

  /**
    The answer of the creation route as written: the first failing validator,
    else the first failing line, else 500. The document built at that point
    lacks the required `numeroCommande` and `montantFinal`, and Mongoose
    validates it before the hooks that would fill them, so `save()` rejects it
    and nothing is stored (see NewOrderFailsValidation).
  */
  function CreateOutcome(P: map<ProductId, Product>, actor: Actor, req: OrderRequest, today: CalendarDate, sameDayCount: nat)
    : (r: Result<OrderData>)
    ensures !RequestValid(req) ==> r == Err(Invalid)
    ensures RequestValid(req) && CheckLines(P, req.articles).Err? ==> r == Err(CheckLines(P, req.articles).error)
    ensures RequestValid(req) && CheckLines(P, req.articles).Ok? ==> r == Err(ServerError)
  {
    if !RequestValid(req) then Err(Invalid) else RejectOutcome(P, req.articles)
  }

  /** What follows the validators in the route as written: the first failing line, else the rejected save. */
  function RejectOutcome(P: map<ProductId, Product>, lines: seq<LineRequest>): Result<OrderData> {
    var checked := CheckLines(P, lines);
    if checked.Err? then Err(checked.error) else Err(ServerError)
  }

  /**
    The evidently intended answer of the creation route: the first failing
    validator, else the first failing line, else the placed order.
  */
  function IntendedCreateOutcome(P: map<ProductId, Product>, actor: Actor, req: OrderRequest, today: CalendarDate, sameDayCount: nat)
    : (r: Result<OrderData>)
    ensures !RequestValid(req) ==> r == Err(Invalid)
    ensures RequestValid(req) && CheckLines(P, req.articles).Err? ==> r == Err(CheckLines(P, req.articles).error)
    ensures r.Ok? <==> RequestValid(req) && CheckLines(P, req.articles).Ok?
    ensures r.Ok? ==> r.value == PlacedOrder(actor.userId, CheckLines(P, req.articles).value, req, today, sameDayCount)
  {
    if !RequestValid(req) then Err(Invalid) else PlaceOutcome(P, actor, req, today, sameDayCount)
  }

  /** What follows the validators in the intended route: the first failing line, else the placed order. */
  function PlaceOutcome(P: map<ProductId, Product>, actor: Actor, req: OrderRequest, today: CalendarDate, sameDayCount: nat)
    : Result<OrderData>
    requires ParseModePaiement(req.modePaiement).Some?
  {
    var checked := CheckLines(P, req.articles);
    if checked.Err? then Err(checked.error)
    else Ok(PlacedOrder(actor.userId, checked.value, req, today, sameDayCount))
  }

  /** The two routes differ exactly on the requests that pass every check: the written one answers 500 where the intended one places the order. */
  lemma CreationAlwaysRejected(P: map<ProductId, Product>, actor: Actor, req: OrderRequest, today: CalendarDate, sameDayCount: nat)
    ensures CreateOutcome(P, actor, req, today, sameDayCount).Err?
    ensures IntendedCreateOutcome(P, actor, req, today, sameDayCount).Ok? ==> CreateOutcome(P, actor, req, today, sameDayCount) == Err(ServerError)
    ensures IntendedCreateOutcome(P, actor, req, today, sameDayCount).Err? ==>
              CreateOutcome(P, actor, req, today, sameDayCount) == IntendedCreateOutcome(P, actor, req, today, sameDayCount)
  {
  }

  /** A placed order is valid, carries the requested quantities, and is priced at the stored prices. */
  lemma IntendedCreateOutcomeValid(P: map<ProductId, Product>, actor: Actor, req: OrderRequest, today: CalendarDate, sameDayCount: nat)
    requires PricesValid(P)
    requires IntendedCreateOutcome(P, actor, req, today, sameDayCount).Ok?
    ensures var o := IntendedCreateOutcome(P, actor, req, today, sameDayCount).value;
            && StoredOrderValid(o)
            && o.client == actor.userId
            && |o.articles| == |req.articles| >= 1
            && (forall i :: 0 <= i < |o.articles| ==>
                  && o.articles[i].produit == req.articles[i].produit
                  && o.articles[i].quantite == req.articles[i].quantite
                  && o.articles[i].prixUnitaire == P[req.articles[i].produit].prix)
  {
    var arts := CheckLines(P, req.articles).value;
    CheckedLinesWellFormed(P, req.articles);
    PlacedOrderValid(actor.userId, arts, req, today, sameDayCount);
    forall i | 0 <= i < |arts|
      ensures arts[i].produit == req.articles[i].produit && arts[i].quantite == req.articles[i].quantite
      ensures req.articles[i].produit in P && arts[i].prixUnitaire == P[req.articles[i].produit].prix
    {
      assert CheckLine(P, req.articles[i]).Ok?;
    }
  }

  /** The stock loop shared by creation (`sign` = -1) and cancellation (`sign` = 1): one `$inc` per line, in order. */
  method MoveStock(db: Database, arts: seq<Article>, sign: int)
    modifies db
    ensures db.products == ApplyStock(old(db.products), arts, sign)
    ensures db.orders == old(db.orders) && db.categories == old(db.categories)
    ensures db.shops == old(db.shops) && db.users == old(db.users)
  {
    for i := 0 to |arts|
      invariant db.products == ApplyStock(old(db.products), arts[..i], sign)
      invariant db.orders == old(db.orders) && db.categories == old(db.categories)
      invariant db.shops == old(db.shops) && db.users == old(db.users)
    {
      assert arts[..i + 1][..i] == arts[..i];
      db.products := AdjustStock(db.products, arts[i].produit, sign * arts[i].quantite);
    }
    assert arts[..|arts|] == arts;
  }

  /**
    `POST /` as written: validate, price the lines, build the document and
    save it. The save is rejected by validation, the handler answers 500, and
    the stock loop after it is never reached: nothing changes.
  */
  method CreateOrder(db: Database, actor: Actor, req: OrderRequest, clock: Clock, sameDayCount: nat)
    returns (r: Result<OrderData>)
    ensures r == CreateOutcome(db.products, actor, req, clock.today, sameDayCount)
  {
    if !RequestValid(req) {
      return Err(Invalid);
    }
    r := PriceAndSave(db.products, actor, req, clock, sameDayCount);
  }

  /** The creation route as written once its validators have passed: the pricing loop, then the document and its rejected save. */
  method PriceAndSave(P: map<ProductId, Product>, actor: Actor, req: OrderRequest, clock: Clock, sameDayCount: nat)
    returns (r: Result<OrderData>)
    requires ParseModePaiement(req.modePaiement).Some?
    ensures r == RejectOutcome(P, req.articles)
  {
    var priced := PriceLines(P, req.articles);
    if priced.Err? {
      return Err(priced.error);
    }
    var fraisLivraison := ShippingFee(priced.value.montantTotal);
    var order := new OrderDocument.New(actor.userId, priced.value.articles, priced.value.montantTotal, Some(fraisLivraison),
                                       SanitizedAddress(req.adresseLivraison), ParseModePaiement(req.modePaiement).value,
                                       req.commentaires);
    var ok := order.Save(clock.today, sameDayCount);
    assert !ok;
    r := Err(ServerError);
  }

  /** `POST /` as intended: validate, price, save the order with the hooks run first, then decrement stock once per line. */
  method IntendedCreateOrder(db: Database, actor: Actor, req: OrderRequest, newId: OrderId, clock: Clock, sameDayCount: nat)
    returns (r: Result<OrderData>)
    requires db.Valid()
    requires newId !in db.orders
    modifies db
    ensures db.Valid()
    ensures r == IntendedCreateOutcome(old(db.products), actor, req, clock.today, sameDayCount)
    ensures db.categories == old(db.categories) && db.shops == old(db.shops) && db.users == old(db.users)
    ensures r.Err? ==> db.products == old(db.products) && db.orders == old(db.orders)
    ensures r.Ok? ==> db.orders == old(db.orders)[newId := r.value]
    ensures r.Ok? ==> db.products == ApplyStock(old(db.products), r.value.articles, -1)
  {
    if !RequestValid(req) {
      return Err(Invalid);
    }
    r := PriceAndPlace(db, actor, req, newId, clock, sameDayCount);
  }

  /** The intended creation route once its validators have passed: the pricing loop, then the order and the stock. */
  method PriceAndPlace(db: Database, actor: Actor, req: OrderRequest, newId: OrderId, clock: Clock, sameDayCount: nat)
    returns (r: Result<OrderData>)
    requires db.Valid()
    requires newId !in db.orders
    requires ParseModePaiement(req.modePaiement).Some?
    requires forall i :: 0 <= i < |req.articles| ==> req.articles[i].quantite >= 1
    modifies db
    ensures db.Valid()
    ensures r == PlaceOutcome(old(db.products), actor, req, clock.today, sameDayCount)
    ensures db.categories == old(db.categories) && db.shops == old(db.shops) && db.users == old(db.users)
    ensures r.Err? ==> db.products == old(db.products) && db.orders == old(db.orders)
    ensures r.Ok? ==> db.orders == old(db.orders)[newId := r.value]
    ensures r.Ok? ==> db.products == ApplyStock(old(db.products), r.value.articles, -1)
  {
    var priced := PriceLines(db.products, req.articles);
    if priced.Err? {
      return Err(priced.error);
    }
    var articlesValides := priced.value.articles;
    CheckedLinesWellFormed(db.products, req.articles);
    var saved := PlaceOrder(db, actor, req, articlesValides, priced.value.montantTotal, newId, clock, sameDayCount);
    r := Ok(saved);
  }

  /** The end of the intended creation route: fee, new document, save with the hooks first, then one stock decrement per line. */
  method PlaceOrder(db: Database, actor: Actor, req: OrderRequest, articlesValides: seq<Article>, montantTotal: int,
                    newId: OrderId, clock: Clock, sameDayCount: nat) returns (saved: OrderData)
    requires db.Valid()
    requires newId !in db.orders
    requires ParseModePaiement(req.modePaiement).Some?
    requires LinesWellFormed(articlesValides)
    requires montantTotal == SumSousTotal(articlesValides)
    modifies db
    ensures db.Valid()
    ensures saved == PlacedOrder(actor.userId, articlesValides, req, clock.today, sameDayCount)
    ensures db.categories == old(db.categories) && db.shops == old(db.shops) && db.users == old(db.users)
    ensures db.orders == old(db.orders)[newId := saved]
    ensures db.products == ApplyStock(old(db.products), articlesValides, -1)
  {
    saved := SaveNewOrder(actor, req, articlesValides, montantTotal, clock, sameDayCount);
    PutOrderKeepsValid(db.orders, newId, saved);
    db.orders := db.orders[newId := saved];
    ApplyStockKeepsPrices(db.products, articlesValides, -1);
    MoveStock(db, articlesValides, -1);
  }

  /** The fee, `new Order({...})` and the intended save: the hooks fill the number and final amount, and validation passes. */
  method SaveNewOrder(actor: Actor, req: OrderRequest, articlesValides: seq<Article>, montantTotal: int,
                      clock: Clock, sameDayCount: nat) returns (saved: OrderData)
    requires ParseModePaiement(req.modePaiement).Some?
    requires LinesWellFormed(articlesValides)
    requires montantTotal == SumSousTotal(articlesValides)
    ensures saved == PlacedOrder(actor.userId, articlesValides, req, clock.today, sameDayCount)
    ensures StoredOrderValid(saved)
  {
    var fraisLivraison := ShippingFee(montantTotal);
    var order := new OrderDocument.New(actor.userId, articlesValides, montantTotal, Some(fraisLivraison),
                                       SanitizedAddress(req.adresseLivraison), ParseModePaiement(req.modePaiement).value,
                                       req.commentaires);
    var ok := order.SaveHooksFirst(clock.today, sameDayCount);
    saved := order.Data();
    PlacedOrderValid(actor.userId, articlesValides, req, clock.today, sameDayCount);
    assert ok;
  }

  // ---- status update ----

  /** The validators of the status route: an enumerated status and a comment of at most 500 characters once trimmed. */
  predicate StatusInputValid(statut: string, commentaire: Option<string>) {
    ParseStatut(statut).Some? && (commentaire.None? || |Trim(commentaire.value)| <= MaxCommentLength)
  }

  /** Every line's product can be populated (otherwise `a.produit.commercant` throws). */
  predicate ProductsResolve(P: map<ProductId, Product>, arts: seq<Article>) {
    forall i :: 0 <= i < |arts| ==> arts[i].produit in P
  }

  /** Some line of the order is a product of merchant `uid`. */
  predicate SellsIn(P: map<ProductId, Product>, arts: seq<Article>, uid: UserId) {
    exists i :: 0 <= i < |arts| && arts[i].produit in P && P[arts[i].produit].commercant == uid
  }

  /** `order.articles.map(a => a.produit.commercant)`. */
  function MerchantIds(P: map<ProductId, Product>, arts: seq<Article>): (r: seq<UserId>)
    requires ProductsResolve(P, arts)
    ensures |r| == |arts|
    ensures forall i :: 0 <= i < |arts| ==> r[i] == P[arts[i].produit].commercant
  {
    seq(|arts|, i requires 0 <= i < |arts| => P[arts[i].produit].commercant)
  }

  /** A merchant id is among the line merchants exactly when that merchant sells in the order. */
  lemma MerchantIdsMatch(P: map<ProductId, Product>, arts: seq<Article>, uid: UserId)
    requires ProductsResolve(P, arts)
    ensures uid in MerchantIds(P, arts) <==> SellsIn(P, arts, uid)
  {
    var ids := MerchantIds(P, arts);
    if uid in ids {
      var i :| 0 <= i < |ids| && ids[i] == uid;
      assert arts[i].produit in P && P[arts[i].produit].commercant == uid;
    }
  }

  /** The order after a status change: the new status, one appended entry, and delivery setting the date and payment. */
  function WithStatus(o: OrderData, s: Statut, commentaire: Option<string>, now: Timestamp): (r: OrderData)
    ensures r.statut == s
    ensures r.historiqueStatuts == o.historiqueStatuts + [HistoryEntry(s, now, commentaire)]
    ensures s == Livree ==> r.statutPaiement == Paye && r.dateLivraisonEffective == Some(now)
    ensures s != Livree ==> r.statutPaiement == o.statutPaiement && r.dateLivraisonEffective == o.dateLivraisonEffective
    ensures r.(statut := o.statut, historiqueStatuts := o.historiqueStatuts,
               statutPaiement := o.statutPaiement, dateLivraisonEffective := o.dateLivraisonEffective) == o
  {
    var o1 := o.(statut := s, historiqueStatuts := o.historiqueStatuts + [HistoryEntry(s, now, commentaire)]);
    if s == Livree then o1.(dateLivraisonEffective := Some(now), statutPaiement := Paye) else o1
  }

  /** A status change keeps a stored order valid, whatever the old and new status (there is no adjacency check). */
  lemma WithStatusKeepsValid(o: OrderData, s: Statut, commentaire: Option<string>, now: Timestamp)
    requires StoredOrderValid(o)
    ensures StoredOrderValid(WithStatus(o, s, commentaire, now))
    ensures |WithStatus(o, s, commentaire, now).historiqueStatuts| == |o.historiqueStatuts| + 1
  {
  }

  /**
    The answer of the status route: validation, then existence, then for a
    merchant the ownership check over the populated line products (a missing
    product throws, answered 500), else the updated order. Clients pass the
    role check here, as the route has no role gate of its own.
  */
  function StatusOutcome(P: map<ProductId, Product>, O: map<OrderId, OrderData>, actor: Actor, id: OrderId,
                         statut: string, commentaire: Option<string>, now: Timestamp): (r: Result<OrderData>)
    ensures !StatusInputValid(statut, commentaire) ==> r == Err(Invalid)
    ensures StatusInputValid(statut, commentaire) && id !in O ==> r == Err(NotFound)
    ensures (StatusInputValid(statut, commentaire) && id in O && actor.role == Commercant
             && !ProductsResolve(P, O[id].articles)) ==> r == Err(ServerError)
    ensures (StatusInputValid(statut, commentaire) && id in O && actor.role == Commercant
             && ProductsResolve(P, O[id].articles) && !SellsIn(P, O[id].articles, actor.userId)) ==> r == Err(Forbidden)
    ensures r.Ok? <==>
              && StatusInputValid(statut, commentaire) && id in O
              && (actor.role == Commercant ==> ProductsResolve(P, O[id].articles) && SellsIn(P, O[id].articles, actor.userId))
    ensures r.Ok? ==> r.value == WithStatus(O[id], ParseStatut(statut).value, TrimOpt(commentaire), now)
  {
    if !StatusInputValid(statut, commentaire) then Err(Invalid)
    else if id !in O then Err(NotFound)
    else if actor.role == Commercant && !ProductsResolve(P, O[id].articles) then Err(ServerError)
    else if actor.role == Commercant && actor.userId !in MerchantIds(P, O[id].articles) then
      MerchantIdsMatch(P, O[id].articles, actor.userId);
      Err(Forbidden)
    else
      assert actor.role == Commercant ==> SellsIn(P, O[id].articles, actor.userId) by {
        if actor.role == Commercant {
          MerchantIdsMatch(P, O[id].articles, actor.userId);
        }
      }
      Ok(WithStatus(O[id], ParseStatut(statut).value, TrimOpt(commentaire), now))
  }

  /** `PATCH /:id/statut`. */
  method UpdateStatus(db: Database, actor: Actor, id: OrderId, statut: string, commentaire: Option<string>,
                      clock: Clock, sameDayCount: nat) returns (r: Result<OrderData>)
    requires db.Valid()
    modifies db
    ensures db.Valid()
    ensures r == StatusOutcome(old(db.products), old(db.orders), actor, id, statut, commentaire, clock.now)
    ensures db.products == old(db.products) && db.categories == old(db.categories)
    ensures db.shops == old(db.shops) && db.users == old(db.users)
    ensures r.Err? ==> db.orders == old(db.orders)
    ensures r.Ok? ==> db.orders == old(db.orders)[id := r.value]
  {
    if !StatusInputValid(statut, commentaire) {
      return Err(Invalid);
    }
    var st := ParseStatut(statut).value;
    if id !in db.orders {
      return Err(NotFound);
    }
    var order := new OrderDocument.Load(db.orders[id]);
    if actor.role == Commercant {
      if !ProductsResolve(db.products, order.articles) {
        return Err(ServerError);
      }
      var commercantIds := MerchantIds(db.products, order.articles);
      if actor.userId !in commercantIds {
        return Err(Forbidden);
      }
    }
    var comment := TrimOpt(commentaire);
    ghost var loaded := order.Data();
    WithStatusKeepsValid(loaded, st, comment, clock.now);
    RecordStatus(order, st, comment, clock.now);
    SaveKeepsStored(order.Data(), clock.today, sameDayCount);
    var ok := order.Save(clock.today, sameDayCount);
    assert ok;  // a stored order passes validation
    var updated := order.Data();
    PutOrderKeepsValid(db.orders, id, updated);
    db.orders := db.orders[id := updated];
    r := Ok(updated);
  }

  /** The handler's field assignments on the loaded document for a status change. */
  method RecordStatus(order: OrderDocument, st: Statut, comment: Option<string>, now: Timestamp)
    modifies order
    ensures order.Data() == WithStatus(old(order.Data()), st, comment, now)
  {
    order.statut := st;
    order.historiqueStatuts := order.historiqueStatuts + [HistoryEntry(st, now, comment)];
    if st == Livree {
      order.dateLivraisonEffective := Some(now);
      order.statutPaiement := Paye;
    }
  }

  // ---- cancellation ----

  /** The window in which cancellation is allowed: anything but out for delivery and delivered (an already cancelled order included). */
  predicate Cancellable(s: Statut) {
    s != EnLivraison && s != Livree
  }

  /** The order after cancellation: status `annulee` and one `annulee` entry with the fixed comment. */
  function Cancelled(o: OrderData, now: Timestamp): (r: OrderData)
    ensures r.statut == Annulee
    ensures r.historiqueStatuts == o.historiqueStatuts + [HistoryEntry(Annulee, now, Some(CancelComment))]
    ensures r.(statut := o.statut, historiqueStatuts := o.historiqueStatuts) == o
  {
    o.(statut := Annulee, historiqueStatuts := o.historiqueStatuts + [HistoryEntry(Annulee, now, Some(CancelComment))])
  }

  lemma CancelledKeepsValid(o: OrderData, now: Timestamp)
    requires StoredOrderValid(o)
    ensures StoredOrderValid(Cancelled(o, now))
  {
  }

  /** A client other than the buyer is refused. */
  predicate ForeignClient(o: OrderData, actor: Actor) {
    actor.role == Client && o.client != actor.userId
  }

  /** The answer of the cancellation route: existence, then the owner check for clients, then the status window. */
  function CancelOutcome(O: map<OrderId, OrderData>, actor: Actor, id: OrderId, now: Timestamp): (r: Result<OrderData>)
    ensures id !in O ==> r == Err(NotFound)
    ensures id in O && ForeignClient(O[id], actor) ==> r == Err(Forbidden)
    ensures (id in O && !ForeignClient(O[id], actor) && !Cancellable(O[id].statut)) ==> r == Err(NotCancellable)
    ensures r.Ok? <==> id in O && !ForeignClient(O[id], actor) && Cancellable(O[id].statut)
    ensures r.Ok? ==> r.value == Cancelled(O[id], now)
  {
    if id !in O then Err(NotFound)
    else if ForeignClient(O[id], actor) then Err(Forbidden)
    else if !Cancellable(O[id].statut) then Err(NotCancellable)
    else Ok(Cancelled(O[id], now))
  }

  /** An order once cancelled stays cancellable, so cancelling is never refused twice for its status. */
  lemma CancelledStaysCancellable(O: map<OrderId, OrderData>, actor: Actor, id: OrderId, t1: Timestamp, t2: Timestamp)
    requires CancelOutcome(O, actor, id, t1).Ok?
    ensures CancelOutcome(O[id := CancelOutcome(O, actor, id, t1).value], actor, id, t2).Ok?
  {
  }

  /** `PATCH /:id/annuler`: restore stock once per line, then record the cancellation. */
  method CancelOrder(db: Database, actor: Actor, id: OrderId, clock: Clock, sameDayCount: nat) returns (r: Result<OrderData>)
    requires db.Valid()
    modifies db
    ensures db.Valid()
    ensures r == CancelOutcome(old(db.orders), actor, id, clock.now)
    ensures db.categories == old(db.categories) && db.shops == old(db.shops) && db.users == old(db.users)
    ensures r.Err? ==> db.orders == old(db.orders) && db.products == old(db.products)
    ensures r.Ok? ==> db.orders == old(db.orders)[id := r.value]
    ensures r.Ok? ==> db.products == ApplyStock(old(db.products), old(db.orders)[id].articles, 1)
  {
    if id !in db.orders {
      return Err(NotFound);
    }
    var order := new OrderDocument.Load(db.orders[id]);
    if actor.role == Client && order.client != actor.userId {
      return Err(Forbidden);
    }
    if order.statut == EnLivraison || order.statut == Livree {
      return Err(NotCancellable);
    }
    ApplyStockKeepsPrices(db.products, order.articles, 1);
    MoveStock(db, order.articles, 1);
    ghost var loaded := order.Data();
    CancelledKeepsValid(loaded, clock.now);
    RecordCancel(order, clock.now);
    SaveKeepsStored(order.Data(), clock.today, sameDayCount);
    var ok := order.Save(clock.today, sameDayCount);
    assert ok;  // a stored order passes validation
    var updated := order.Data();
    PutOrderKeepsValid(db.orders, id, updated);
    db.orders := db.orders[id := updated];
    r := Ok(updated);
  }

  /** The handler's field assignments on the loaded document for a cancellation. */
  method RecordCancel(order: OrderDocument, now: Timestamp)
    modifies order
    ensures order.Data() == Cancelled(old(order.Data()), now)
  {
    order.statut := Annulee;
    order.historiqueStatuts := order.historiqueStatuts + [HistoryEntry(Annulee, now, Some(CancelComment))];
  }

  // ---- view filter ----

  /** `GET /:id`: a client finds only their own orders; merchants and admins find any. */
  function ViewOrder(orders: map<OrderId, OrderData>, actor: Actor, id: OrderId): (r: Result<OrderData>)
    ensures r.Ok? <==> id in orders && (actor.role == Client ==> orders[id].client == actor.userId)
    ensures r.Ok? ==> r.value == orders[id]
    ensures r.Err? ==> r.error == NotFound
  {
    if id in orders && (actor.role != Client || orders[id].client == actor.userId) then Ok(orders[id]) else Err(NotFound)
  }

  /** A client never sees an order of somebody else, and always sees their own. */
  lemma ClientSeesOnlyOwnOrders(orders: map<OrderId, OrderData>, actor: Actor, id: OrderId)
    requires actor.role == Client
    ensures ViewOrder(orders, actor, id).Ok? ==> ViewOrder(orders, actor, id).value.client == actor.userId
    ensures id in orders && orders[id].client == actor.userId ==> ViewOrder(orders, actor, id).Ok?
  {
  }
}
