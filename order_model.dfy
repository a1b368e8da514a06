/**
  The order record: its enumerations, line items, status history, schema
  defaults and bounds, the order-number format
  `TM` + YY + MM + DD + zero-padded same-day sequence, and the two pre-save
  hooks (number generation when absent, final amount on every save). A
  loaded order is an `OrderDocument` object whose fields handlers assign;
  `Save` validates it against the schema and then runs the hooks.
*/
module OrderModel {
  import opened Text
  import opened Schemas

  datatype Statut = EnAttente | Confirmee | EnPreparation | Prete | EnLivraison | Livree | Annulee

  function StatutName(s: Statut): string {
    match s
    case EnAttente => "en-attente"
    case Confirmee => "confirmee"
    case EnPreparation => "en-preparation"
    case Prete => "prete"
    case EnLivraison => "en-livraison"
    case Livree => "livree"
    case Annulee => "annulee"
  }

  /** The `isIn` check on `statut`: one of the seven enumerated names. */
  function ParseStatut(s: string): (r: Option<Statut>)
    ensures r.Some? ==> StatutName(r.value) == s
  {
    if s == "en-attente" then Some(EnAttente)
    else if s == "confirmee" then Some(Confirmee)
    else if s == "en-preparation" then Some(EnPreparation)
    else if s == "prete" then Some(Prete)
    else if s == "en-livraison" then Some(EnLivraison)
    else if s == "livree" then Some(Livree)
    else if s == "annulee" then Some(Annulee)
    else None
  }

  /** Every enumerated status is accepted under its own name. */
  lemma ParseStatutName(s: Statut)
    ensures ParseStatut(StatutName(s)) == Some(s)
  {
  }

  datatype StatutPaiement = PaiementEnAttente | Paye | Echec | Rembourse

  datatype ModePaiement = Especes | OrangeMoney | Wave | CarteBancaire | Virement

  function ModePaiementName(m: ModePaiement): string {
    match m
    case Especes => "especes"
    case OrangeMoney => "orange-money"
    case Wave => "wave"
    case CarteBancaire => "carte-bancaire"
    case Virement => "virement"
  }

  function ParseModePaiement(s: string): (r: Option<ModePaiement>)
    ensures r.Some? ==> ModePaiementName(r.value) == s
  {
    if s == "especes" then Some(Especes)
    else if s == "orange-money" then Some(OrangeMoney)
    else if s == "wave" then Some(Wave)
    else if s == "carte-bancaire" then Some(CarteBancaire)
    else if s == "virement" then Some(Virement)
    else None
  }

  lemma ParseModePaiementName(m: ModePaiement)
    ensures ParseModePaiement(ModePaiementName(m)) == Some(m)
  {
  }

  /** Milliseconds since the epoch, as `new Date()` gives them. */
  type Timestamp = int

  /** A local calendar day: `getFullYear()`, `getMonth() + 1`, `getDate()`. */
  datatype CalendarDate = CalendarDate(year: nat, month: nat, day: nat)

  predicate ValidDate(d: CalendarDate) {
    1 <= d.month <= 12 && 1 <= d.day <= 31
  }

  /** The server clock at the time of a request. */
  datatype Clock = Clock(now: Timestamp, today: CalendarDate)

  /** One line of an order, with the price snapshot taken at creation. */
  datatype Article = Article(produit: ProductId, quantite: int, prixUnitaire: int, sousTotal: int)

  datatype HistoryEntry = HistoryEntry(statut: Statut, date: Timestamp, commentaire: Option<string>)

  datatype DeliveryAddress = DeliveryAddress(
    nom: Option<string>,
    telephone: Option<string>,
    rue: Option<string>,
    ville: Option<string>,
    region: Option<string>,
    codePostal: Option<string>,
    instructions: Option<string>)

  /** The fields of an order document; `numeroCommande` and `montantFinal` are absent until the first save. */
  datatype OrderData = OrderData(
    numeroCommande: Option<string>,
    client: UserId,
    articles: seq<Article>,
    montantTotal: int,
    fraisLivraison: int,
    montantFinal: Option<int>,
    statut: Statut,
    adresseLivraison: DeliveryAddress,
    modePaiement: ModePaiement,
    statutPaiement: StatutPaiement,
    dateLivraisonPrevue: Option<Timestamp>,
    dateLivraisonEffective: Option<Timestamp>,
    commentaires: Option<string>,
    historiqueStatuts: seq<HistoryEntry>)

  /** A new document: the schema defaults fill what the caller did not give. */
  function NewOrder(client: UserId, articles: seq<Article>, montantTotal: int, fraisLivraison: Option<int>,
                    adresse: DeliveryAddress, mode: ModePaiement, commentaires: Option<string>): (o: OrderData)
    ensures o.statut == EnAttente && o.statutPaiement == PaiementEnAttente
    ensures o.fraisLivraison == fraisLivraison.GetOr(0)
    ensures o.numeroCommande.None? && o.montantFinal.None? && o.historiqueStatuts == []
    ensures o.client == client && o.articles == articles && o.montantTotal == montantTotal
  {
    OrderData(None, client, articles, montantTotal, fraisLivraison.GetOr(0), None, EnAttente, adresse, mode,
              PaiementEnAttente, None, None, commentaires, [])
  }

  /** The schema's bounds and required fields, checked by Mongoose on save. */
  predicate SchemaValid(o: OrderData) {
    && o.numeroCommande.Some? && o.numeroCommande.value != ""
    && o.montantFinal.Some?
    && (forall i :: 0 <= i < |o.articles| ==> o.articles[i].quantite >= 1 && o.articles[i].prixUnitaire >= 0)
    && o.montantTotal >= 0
    && o.fraisLivraison >= 0
  }

  /** What every stored order satisfies: the schema, the final amount kept by the hook, and delivery implying payment. */
  predicate StoredOrderValid(o: OrderData) {
    && SchemaValid(o)
    && o.montantFinal == Some(o.montantTotal + o.fraisLivraison)
    && (o.statut == Livree ==> o.statutPaiement == Paye && o.dateLivraisonEffective.Some?)
  }

  // ---- order number ----

  /** `getFullYear().toString().slice(-2)`: the last two characters, or the whole string when shorter. */
  function YearDigits(year: nat): (r: string)
    ensures AllDigits(r)
  {
    var s := NatToString(year);
    if |s| >= 2 then s[|s| - 2..] else s
  }

  /** `TM` followed by the year, month and day parts. */
  function DatePrefix(d: CalendarDate): (r: string)
    ensures |r| >= 2 && r[..2] == "TM"
  {
    "TM" + YearDigits(d.year) + PadStart(NatToString(d.month), 2) + PadStart(NatToString(d.day), 2)
  }

  /** `(count + 1).toString().padStart(4, '0')`. */
  function SequencePart(count: nat): (r: string)
    ensures AllDigits(r)
  {
    PadStart(NatToString(count + 1), 4)
  }

  /** The number given to an order saved on day `d` when `count` orders were already created that day. */
  function OrderNumber(d: CalendarDate, count: nat): (r: string)
    ensures r != []
  {
    DatePrefix(d) + SequencePart(count)
  }

  /** With a year of at least two digits, the date prefix is exactly eight characters. */
  lemma {:induction false} DatePrefixLength(d: CalendarDate)
    requires d.year >= 10 && ValidDate(d)
    ensures |DatePrefix(d)| == 8
  {
    NatToStringLength(d.year, 1);
    NatToStringLength(d.month, 2);
    NatToStringLength(d.day, 2);
  }

  /** For a sequence number up to 9999 the order number is exactly twelve characters. */
  lemma {:induction false} OrderNumberLength(d: CalendarDate, count: nat)
    requires d.year >= 10 && ValidDate(d)
    requires count + 1 <= 9999
    ensures |OrderNumber(d, count)| == 12
  {
    DatePrefixLength(d);
    NatToStringLength(count + 1, 4);
  }

  /** Above 9999 `padStart` does not truncate: the number grows past twelve characters and keeps every digit. */
  lemma {:induction false} OrderNumberNotTruncated(d: CalendarDate, count: nat)
    requires d.year >= 10 && ValidDate(d)
    requires count + 1 > 9999
    ensures |OrderNumber(d, count)| > 12
    ensures OrderNumber(d, count)[8..] == NatToString(count + 1)
  {
    DatePrefixLength(d);
    NatToStringLength(count + 1, 4);
  }

  /** The characters after the date prefix read back as `count + 1`. */
  lemma {:induction false} OrderNumberSequence(d: CalendarDate, count: nat)
    requires d.year >= 10 && ValidDate(d)
    ensures OrderNumber(d, count)[..8] == DatePrefix(d)
    ensures AllDigits(OrderNumber(d, count)[8..])
    ensures ParseDigits(OrderNumber(d, count)[8..]) == count + 1
  {
    DatePrefixLength(d);
    assert OrderNumber(d, count)[8..] == SequencePart(count);
    PadStartRoundTrip(count + 1, 4);
  }

  /** On a fixed day, distinct same-day counts give distinct order numbers. */
  lemma {:induction false} OrderNumberInjective(d: CalendarDate, c1: nat, c2: nat)
    requires OrderNumber(d, c1) == OrderNumber(d, c2)
    ensures c1 == c2
  {
    CancelPrefix(DatePrefix(d), SequencePart(c1), SequencePart(c2));
    SequencePartInjective(c1, c2);
  }

  lemma SequencePartInjective(c1: nat, c2: nat)
    requires SequencePart(c1) == SequencePart(c2)
    ensures c1 == c2
  {
    SequencePartParses(c1);
    SequencePartParses(c2);
  }

  /** The sequence part reads back as the sequence number. */
  lemma SequencePartParses(count: nat)
    ensures ParseDigits(SequencePart(count)) == count + 1
  {
    PadStartRoundTrip(count + 1, 4);
  }

  lemma CancelPrefix(p: string, a: string, b: string)
    requires p + a == p + b
    ensures a == b
  {
    assert a == (p + a)[|p|..];
    assert b == (p + b)[|p|..];
  }

  // ---- pre-save hooks ----

  /** `!this.numeroCommande`: absent or the empty string. */
  predicate NeedsNumber(o: OrderData) {
    o.numeroCommande.None? || o.numeroCommande.value == ""
  }

  /** The first hook: generate the number only when there is none. */
  function WithOrderNumber(o: OrderData, today: CalendarDate, sameDayCount: nat): OrderData {
    if NeedsNumber(o) then o.(numeroCommande := Some(OrderNumber(today, sameDayCount))) else o
  }

  /** The second hook: the final amount is the total plus the delivery fee. */
  function WithFinalAmount(o: OrderData): OrderData {
    o.(montantFinal := Some(o.montantTotal + o.fraisLivraison))
  }

  /** The document as written by `save()`: both hooks, in registration order. */
  function AfterSave(o: OrderData, today: CalendarDate, sameDayCount: nat): (r: OrderData)
    ensures r.numeroCommande.Some? && r.numeroCommande.value != ""
    ensures NeedsNumber(o) ==> r.numeroCommande == Some(OrderNumber(today, sameDayCount))
    ensures !NeedsNumber(o) ==> r.numeroCommande == o.numeroCommande
    ensures r.montantFinal == Some(o.montantTotal + o.fraisLivraison)
    ensures r.(numeroCommande := o.numeroCommande, montantFinal := o.montantFinal) == o
  {
    WithFinalAmount(WithOrderNumber(o, today, sameDayCount))
  }

  /** Saving again, on any day and with any count, changes nothing: the number is kept and the final amount recomputes to itself. */
  lemma SaveIdempotent(o: OrderData, d1: CalendarDate, c1: nat, d2: CalendarDate, c2: nat)
    ensures AfterSave(AfterSave(o, d1, c1), d2, c2) == AfterSave(o, d1, c1)
  {
  }

  /** A stored order is a fixed point of the hooks. */
  lemma SaveKeepsStored(o: OrderData, d: CalendarDate, c: nat)
    requires StoredOrderValid(o)
    ensures AfterSave(o, d, c) == o
  {
  }

  /** A new document has neither number nor final amount, both required, so validating it before the hooks always fails. */
  lemma NewOrderFailsValidation(client: UserId, articles: seq<Article>, montantTotal: int, fraisLivraison: Option<int>,
                                adresse: DeliveryAddress, mode: ModePaiement, commentaires: Option<string>)
    ensures !SchemaValid(NewOrder(client, articles, montantTotal, fraisLivraison, adresse, mode, commentaires))
  {
  }

  /** Whereas the hooks fill both: validated after them, a new document passes when its amounts and lines are in bounds. */
  lemma NewOrderPassesAfterHooks(client: UserId, articles: seq<Article>, montantTotal: int, fraisLivraison: nat,
                                 adresse: DeliveryAddress, mode: ModePaiement, commentaires: Option<string>,
                                 today: CalendarDate, sameDayCount: nat)
    requires montantTotal >= 0
    requires forall i :: 0 <= i < |articles| ==> articles[i].quantite >= 1 && articles[i].prixUnitaire >= 0
    ensures StoredOrderValid(AfterSave(NewOrder(client, articles, montantTotal, Some(fraisLivraison), adresse, mode, commentaires),
                                       today, sameDayCount))
  {
  }

  /** A loaded order document; handlers assign its fields and call `Save`. */
  class OrderDocument {
    var numeroCommande: Option<string>
    var client: UserId
    var articles: seq<Article>
    var montantTotal: int
    var fraisLivraison: int
    var montantFinal: Option<int>
    var statut: Statut
    var adresseLivraison: DeliveryAddress
    var modePaiement: ModePaiement
    var statutPaiement: StatutPaiement
    var dateLivraisonPrevue: Option<Timestamp>
    var dateLivraisonEffective: Option<Timestamp>
    var commentaires: Option<string>
    var historiqueStatuts: seq<HistoryEntry>

    /** The document's fields as a value. */
    function Data(): OrderData
      reads this
    {
      OrderData(numeroCommande, client, articles, montantTotal, fraisLivraison, montantFinal, statut,
                adresseLivraison, modePaiement, statutPaiement, dateLivraisonPrevue, dateLivraisonEffective,
                commentaires, historiqueStatuts)
    }

    /** `new Order({...})`. */
    constructor New(client: UserId, articles: seq<Article>, montantTotal: int, fraisLivraison: Option<int>,
                    adresse: DeliveryAddress, mode: ModePaiement, commentaires: Option<string>)
      ensures Data() == NewOrder(client, articles, montantTotal, fraisLivraison, adresse, mode, commentaires)
    {
      this.numeroCommande := None;
      this.client := client;
      this.articles := articles;
      this.montantTotal := montantTotal;
      this.fraisLivraison := fraisLivraison.GetOr(0);
      this.montantFinal := None;
      this.statut := EnAttente;
      this.adresseLivraison := adresse;
      this.modePaiement := mode;
      this.statutPaiement := PaiementEnAttente;
      this.dateLivraisonPrevue := None;
      this.dateLivraisonEffective := None;
      this.commentaires := commentaires;
      this.historiqueStatuts := [];
    }

    /** `Order.findById`: a document hydrated from a stored record. */
    constructor Load(d: OrderData)
      ensures Data() == d
    {
      this.numeroCommande := d.numeroCommande;
      this.client := d.client;
      this.articles := d.articles;
      this.montantTotal := d.montantTotal;
      this.fraisLivraison := d.fraisLivraison;
      this.montantFinal := d.montantFinal;
      this.statut := d.statut;
      this.adresseLivraison := d.adresseLivraison;
      this.modePaiement := d.modePaiement;
      this.statutPaiement := d.statutPaiement;
      this.dateLivraisonPrevue := d.dateLivraisonPrevue;
      this.dateLivraisonEffective := d.dateLivraisonEffective;
      this.commentaires := d.commentaires;
      this.historiqueStatuts := d.historiqueStatuts;
    }

    /**
      `save()` as Mongoose runs it: the built-in validation hook is registered
      ahead of the schema's own `pre('save')` hooks, so the document is
      validated first; when that fails nothing else runs and the save is
      rejected. `today` and `sameDayCount` are what the first hook reads from
      the clock and the store.
    */
    method Save(today: CalendarDate, sameDayCount: nat) returns (ok: bool)
      modifies this
      ensures ok == SchemaValid(old(Data()))
      ensures ok ==> Data() == AfterSave(old(Data()), today, sameDayCount)
      ensures !ok ==> Data() == old(Data())
    {
      ok := SchemaValid(Data());
      if ok {
        RunHooks(today, sameDayCount);
      }
    }

    /**
      The evidently intended save: the two hooks run before validation (as
      `pre('validate')` hooks would), so the fields they fill are present when
      the schema is checked.
    */
    method SaveHooksFirst(today: CalendarDate, sameDayCount: nat) returns (ok: bool)
      modifies this
      ensures Data() == AfterSave(old(Data()), today, sameDayCount)
      ensures ok == SchemaValid(Data())
    {
      RunHooks(today, sameDayCount);
      ok := SchemaValid(Data());
    }

    /** The two `pre('save')` hooks in registration order: the number when there is none, then the final amount. */
    method RunHooks(today: CalendarDate, sameDayCount: nat)
      modifies this
      ensures Data() == AfterSave(old(Data()), today, sameDayCount)
    {
      if numeroCommande.None? || numeroCommande.value == "" {
        numeroCommande := Some(OrderNumber(today, sameDayCount));
      }
      montantFinal := Some(montantTotal + fraisLivraison);
    }
  }
}
