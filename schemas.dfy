/**
  The stored records the core reads and writes (the Product, Shop, Category
  and User schemas), the identity of the caller as the authentication
  middleware leaves it, the error kinds the handlers answer with, and the
  field formats the schemas and validators share (telephone, colour).
*/
module Schemas {
  import opened Text

  datatype Option<+T> = None | Some(value: T) {
    function GetOr(default: T): T {
      if Some? then value else default
    }
  }

  type UserId = nat
  type ProductId = nat
  type ShopId = nat
  type CategoryId = nat
  type OrderId = nat

  /** `typeUtilisateur`. */
  datatype Role = Client | Commercant | Admin

  /** `req.user`: the decoded token (user id and role). */
  datatype Actor = Actor(userId: UserId, role: Role)

  /** What a handler answers instead of a success payload. */
  datatype Failure =
    | Invalid                                        // 400, a request validator failed
    | ProductNotFound(id: ProductId)                 // 400
    | ProductUnavailable(nom: string)                // 400
    | InsufficientStock(nom: string, disponible: int)  // 400
    | NotCancellable                                 // 400
    | NameTaken                                      // 400
    | ParentNotFound                                 // 400
    | CategoryNotFound                               // 400
    | WrongPassword                                  // 400
    | Forbidden                                      // 403
    | NotFound                                       // 404
    | ServerError                                    // 500, an exception inside the handler

  datatype Result<+T> = Ok(value: T) | Err(error: Failure)

  /**
    A product; `quantiteDisponible` is the stock ledger that orders move, and
    `noteMoyenne` is `note.moyenne` (a JavaScript number, hence a real).
  */
  datatype Product = Product(
    nom: string,
    description: string,
    prix: int,
    quantiteDisponible: int,
    unite: string,
    categorie: CategoryId,
    commercant: UserId,
    boutique: ShopId,
    estDisponible: bool,
    devise: string,
    certification: seq<string>,
    noteMoyenne: real)

  /** A shop; `nombreProduits` is `statistiques.nombreProduits`. */
  datatype Shop = Shop(nom: string, proprietaire: UserId, nombreProduits: int)

  datatype Category = Category(
    nom: string,
    description: Option<string>,
    couleur: string,
    parent: Option<CategoryId>,
    ordre: int,
    estActive: bool)

  datatype UserAddress = UserAddress(rue: Option<string>, ville: Option<string>, region: Option<string>, codePostal: Option<string>)

  datatype User = User(
    nom: string,
    email: string,
    motDePasse: string,
    typeUtilisateur: Role,
    telephone: Option<string>,
    adresse: Option<UserAddress>,
    avatar: Option<string>,
    estActif: bool)

  /** The product units the schema and the creation validator accept. */
  const Unites: seq<string> := ["kg", "g", "L", "mL", "pièce", "paquet", "boîte", "sac"]

  /** The currencies of the product schema's `devise` enum; no route validator checks them. */
  const Devises: seq<string> := ["FCFA", "EUR", "USD"]

  /** The labels of the product schema's `certification` enum, checked entry by entry. */
  const Certifications: seq<string> := ["bio", "halal", "commerce-equitable", "local"]

  const DefaultCouleur: string := "#FF9800"

  /** The telephone pattern `^(\+221|00221)?[0-9]{9}$`. */
  predicate IsPhone(s: string) {
    (|s| == 9 && AllDigits(s))
    || (|s| == 13 && s[..4] == "+221" && AllDigits(s[4..]))
    || (|s| == 14 && s[..5] == "00221" && AllDigits(s[5..]))
  }

  /** The optional country prefix of a telephone number that matches the pattern. */
  function PhonePrefix(s: string): (p: string)
    requires IsPhone(s)
    ensures p == "" || p == "+221" || p == "00221"
    ensures |s| == |p| + 9 && s[..|p|] == p && AllDigits(s[|p|..])
  {
    if |s| == 9 then "" else if |s| == 13 then "+221" else "00221"
  }

  /** Nine digits after an allowed prefix always match. */
  lemma PhoneAccepts(p: string, digits: string)
    requires p == "" || p == "+221" || p == "00221"
    requires |digits| == 9 && AllDigits(digits)
    ensures IsPhone(p + digits)
  {
    var s := p + digits;
    assert s[|p|..] == digits;
    assert s[..|p|] == p;
  }

  /** An ASCII case-insensitive hexadecimal digit, `[0-9A-F]` under the `i` flag. */
  predicate IsHexDigit(c: char) {
    IsDigit(c) || ('A' <= c <= 'F') || ('a' <= c <= 'f')
  }

  /** The colour pattern `^#[0-9A-F]{6}$` with the `i` flag. */
  predicate IsHexColour(s: string) {
    |s| == 7 && s[0] == '#' && forall i :: 1 <= i < 7 ==> IsHexDigit(s[i])
  }

  /** ASCII upper-casing of one character: `a`-`z` to their own capitals, everything else unchanged. */
  function UpperAscii(c: char): (u: char)
    ensures 'a' <= c <= 'z' ==> 'A' <= u <= 'Z' && u as int == c as int - 32
    ensures !('a' <= c <= 'z') ==> u == c
  {
    if 'a' <= c <= 'z' then (c as int - 32) as char else c
  }

  /** ASCII upper-casing of a whole string, the comparison point for the case-insensitive colour check. */
  function Upper(s: string): (u: string)
    ensures |u| == |s| && forall i :: 0 <= i < |s| ==> u[i] == UpperAscii(s[i])
  {
    seq(|s|, i requires 0 <= i < |s| => UpperAscii(s[i]))
  }

  /** The colour check ignores letter case. */
  lemma HexColourIgnoresCase(s: string)
    ensures IsHexColour(s) <==> IsHexColour(Upper(s))
  {
    var u := Upper(s);
    if |s| == 7 {
      assert forall i :: 1 <= i < 7 ==> (IsHexDigit(s[i]) <==> IsHexDigit(u[i]));
    }
  }

  /** The schema default colour passes the schema's own pattern. */
  lemma DefaultCouleurIsHex()
    ensures IsHexColour(DefaultCouleur)
  {
  }
}
