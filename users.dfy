/**
  The profile routes of the authenticated user: `PUT /profil` copies an
  allow-list of fields from the request body onto the caller's user record,
  and `PUT /mot-de-passe` replaces the password once the old one has been
  confirmed. A user is loaded, changed field by field and saved; saving runs
  the schema's validators and then the hook that hashes a modified password.
  bcrypt's comparison and hashing are parameters (`matches`, `hash`).
*/
module Users {
  import opened Text
  import opened Schemas
  import opened Store

  const MinNom := 2
  const MaxNom := 50
  const MinMotDePasse := 6

  /**
    The body of `PUT /profil`; `None` is a field left `undefined`. The last
    four fields may be sent but are never copied.
  */
  datatype ProfileBody = ProfileBody(
    nom: Option<string>,
    telephone: Option<string>,
    adresse: Option<UserAddress>,
    avatar: Option<string>,
    email: Option<string>,
    motDePasse: Option<string>,
    typeUtilisateur: Option<Role>,
    estActif: Option<bool>)

  /**
    The route's validators, each skipped when its field is `undefined`:
    `nom` is 2 to 50 characters once trimmed, `telephone` matches the
    Senegalese pattern, `adresse.ville` is not blank once trimmed.
  */
  predicate ProfileBodyValid(b: ProfileBody) {
    && (b.nom.None? || MinNom <= |Trim(b.nom.value)| <= MaxNom)
    && (b.telephone.None? || IsPhone(b.telephone.value))
    && (b.adresse.None? || b.adresse.value.ville.None? || Trim(b.adresse.value.ville.value) != [])
  }

  /** The `trim()` sanitisers rewrite `nom` and `adresse.ville` in the body the handler then reads. */
  function Sanitized(b: ProfileBody): ProfileBody {
    var nom := if b.nom.Some? then Some(Trim(b.nom.value)) else None;
    var adresse :=
      if b.adresse.Some? && b.adresse.value.ville.Some?
      then Some(b.adresse.value.(ville := Some(Trim(b.adresse.value.ville.value))))
      else b.adresse;
    b.(nom := nom, adresse := adresse)
  }

  /**
    What saving a user validates: `nom` is required and at most 50
    characters, and a telephone, when present and not empty, matches the
    pattern (Mongoose's `match` validator lets the empty string through).
  */
  predicate UserSchemaValid(u: User) {
    u.nom != [] && |u.nom| <= MaxNom && (u.telephone.None? || u.telephone.value == [] || IsPhone(u.telephone.value))
  }

  predicate UsersValid(users: map<UserId, User>) {
    forall id :: id in users ==> UserSchemaValid(users[id])
  }

  /** The fields a profile update may assign, in the order it assigns them. */
  datatype Field = Nom | Telephone | Adresse | Avatar

  const AllowedFields: seq<Field> := [Nom, Telephone, Adresse, Avatar]

  /**
    `if (req.body[field] !== undefined) user[field] = req.body[field]`; the
    schema's `trim` setter trims a `nom` as it is assigned.
  */
  function AssignField(u: User, b: ProfileBody, f: Field): User {
    match f
    case Nom => if b.nom.Some? then u.(nom := Trim(b.nom.value)) else u
    case Telephone => if b.telephone.Some? then u.(telephone := b.telephone) else u
    case Adresse => if b.adresse.Some? then u.(adresse := b.adresse) else u
    case Avatar => if b.avatar.Some? then u.(avatar := b.avatar) else u
  }

  /** The fields `fs` assigned one after the other. */
  function AssignFields(u: User, b: ProfileBody, fs: seq<Field>): User {
    if fs == [] then u else AssignField(AssignFields(u, b, fs[..|fs| - 1]), b, fs[|fs| - 1])
  }

  /**
    The patched user described field by field: every allowed field the body
    gives replaces the stored one, everything else is the stored value.
  */
  function Patched(u: User, b: ProfileBody): User {
    User(
      if b.nom.Some? then Trim(b.nom.value) else u.nom,
      u.email,
      u.motDePasse,
      u.typeUtilisateur,
      if b.telephone.Some? then b.telephone else u.telephone,
      if b.adresse.Some? then b.adresse else u.adresse,
      if b.avatar.Some? then b.avatar else u.avatar,
      u.estActif)
  }

  /** Whatever the body sends, assigning fields never touches the protected ones. */
  lemma {:induction false} AssignFieldsKeepsProtected(u: User, b: ProfileBody, fs: seq<Field>)
    ensures AssignFields(u, b, fs).email == u.email
    ensures AssignFields(u, b, fs).motDePasse == u.motDePasse
    ensures AssignFields(u, b, fs).typeUtilisateur == u.typeUtilisateur
    ensures AssignFields(u, b, fs).estActif == u.estActif
  {
    if fs != [] {
      AssignFieldsKeepsProtected(u, b, fs[..|fs| - 1]);
    }
  }

  /** The allow-listed loop computes the declarative patch. */
  lemma AllowedFieldsPatch(u: User, b: ProfileBody)
    ensures AssignFields(u, b, AllowedFields) == Patched(u, b)
  {
    var fs := AllowedFields;
    assert fs[..1][..0] == [] && fs[..2][..1] == fs[..1] && fs[..3][..2] == fs[..2] && fs[..4][..3] == fs[..3];
    assert AssignFields(u, b, fs[..1]) == AssignField(u, b, Nom);
    assert AssignFields(u, b, fs[..2]) == AssignField(AssignFields(u, b, fs[..1]), b, Telephone);
    assert AssignFields(u, b, fs[..3]) == AssignField(AssignFields(u, b, fs[..2]), b, Adresse);
    assert fs[..4] == fs;
  }

  /** Each allowed field is replaced exactly when the body gives it; the other fields are kept. */
  lemma PatchedFields(u: User, b: ProfileBody)
    ensures b.nom.None? ==> Patched(u, b).nom == u.nom
    ensures b.nom.Some? ==> Patched(u, b).nom == Trim(b.nom.value)
    ensures Patched(u, b).telephone == if b.telephone.Some? then b.telephone else u.telephone
    ensures Patched(u, b).adresse == if b.adresse.Some? then b.adresse else u.adresse
    ensures Patched(u, b).avatar == if b.avatar.Some? then b.avatar else u.avatar
    ensures Patched(u, b).(nom := u.nom, telephone := u.telephone, adresse := u.adresse, avatar := u.avatar) == u
  {
  }

  /** A body that gives none of the allowed fields leaves the user as it was, whatever else it sends. */
  lemma OnlyAllowedFieldsMatter(u: User, b: ProfileBody)
    requires b.nom.None? && b.telephone.None? && b.adresse.None? && b.avatar.None?
    ensures AssignFields(u, b, AllowedFields) == u
  {
    AllowedFieldsPatch(u, b);
  }

  /** Sending the same profile update twice changes nothing the second time. */
  lemma PatchIdempotent(u: User, b: ProfileBody)
    ensures Patched(Patched(u, Sanitized(b)), Sanitized(b)) == Patched(u, Sanitized(b))
  {
  }

  /** `allowedFields.forEach(...)`: the fields assigned one by one onto the loaded user. */
  method ApplyAllowedFields(u: User, b: ProfileBody) returns (r: User)
    ensures r == Patched(u, b)
  {
    r := u;
    var i := 0;
    while i < |AllowedFields|
      invariant 0 <= i <= |AllowedFields|
      invariant r == AssignFields(u, b, AllowedFields[..i])
    {
      assert AllowedFields[..i + 1][..i] == AllowedFields[..i];
      r := AssignField(r, b, AllowedFields[i]);
      i := i + 1;
    }
    assert AllowedFields[..i] == AllowedFields;
    AllowedFieldsPatch(u, b);
  }

  /**
    The `pre('save')` hook: a password that differs from the stored one is
    replaced by its hash; otherwise the document is saved as it is.
  */
  function PreSave(stored: User, u: User, hash: string -> string): (r: User)
    ensures r.(motDePasse := u.motDePasse) == u
    ensures u.motDePasse == stored.motDePasse ==> r == u
    ensures u.motDePasse != stored.motDePasse ==> r.motDePasse == hash(u.motDePasse)
  {
    if u.motDePasse != stored.motDePasse then u.(motDePasse := hash(u.motDePasse)) else u
  }

  /** A profile update does not modify the password, so saving it hashes nothing. */
  lemma ProfileSaveSkipsHash(u: User, b: ProfileBody, hash: string -> string)
    ensures PreSave(u, Patched(u, b), hash) == Patched(u, b)
  {
  }

  /**
    `PUT /profil` for user `uid`: 400 when a validator fails, 404 when the
    user is gone, 500 when the patched document fails the schema, and
    otherwise the patched user.
  */
  function ProfileOutcome(users: map<UserId, User>, uid: UserId, b: ProfileBody): (r: Result<User>)
    ensures r == Err(Invalid) <==> !ProfileBodyValid(b)
    ensures r == Err(NotFound) <==> ProfileBodyValid(b) && uid !in users
    ensures r.Ok? ==> uid in users && r.value == Patched(users[uid], Sanitized(b)) && UserSchemaValid(r.value)
    ensures r.Err? ==> r.error.Invalid? || r.error.NotFound? || r.error.ServerError?
  {
    if !ProfileBodyValid(b) then Err(Invalid)
    else if uid !in users then Err(NotFound)
    else
      var p := Patched(users[uid], Sanitized(b));
      if !UserSchemaValid(p) then Err(ServerError) else Ok(p)
  }

  /** A valid body never makes a valid stored user fail validation on save: no 500 from a valid profile. */
  lemma ProfileSaveSucceeds(users: map<UserId, User>, uid: UserId, b: ProfileBody)
    requires UsersValid(users)
    requires ProfileBodyValid(b) && uid in users
    ensures ProfileOutcome(users, uid, b).Ok?
  {
    if b.nom.Some? {
      TrimIdempotent(b.nom.value);
    }
    assert UserSchemaValid(users[uid]);
  }

  /** Re-sending a profile update against the stored result answers it again and stores the same user. */
  lemma ProfileResendChangesNothing(users: map<UserId, User>, uid: UserId, b: ProfileBody)
    requires ProfileOutcome(users, uid, b).Ok?
    ensures var u := ProfileOutcome(users, uid, b).value;
            ProfileOutcome(users[uid := u], uid, b) == Ok(u)
  {
    PatchIdempotent(users[uid], b);
  }

  /** A successful profile update keeps every stored user valid. */
  lemma ProfileKeepsUsersValid(users: map<UserId, User>, uid: UserId, b: ProfileBody)
    requires UsersValid(users)
    requires ProfileOutcome(users, uid, b).Ok?
    ensures UsersValid(users[uid := ProfileOutcome(users, uid, b).value])
  {
  }

  /** A profile update never changes the email, the password, the role or the active flag. */
  lemma ProfileKeepsProtected(users: map<UserId, User>, uid: UserId, b: ProfileBody)
    requires ProfileOutcome(users, uid, b).Ok?
    ensures ProfileOutcome(users, uid, b).value.email == users[uid].email
    ensures ProfileOutcome(users, uid, b).value.motDePasse == users[uid].motDePasse
    ensures ProfileOutcome(users, uid, b).value.typeUtilisateur == users[uid].typeUtilisateur
    ensures ProfileOutcome(users, uid, b).value.estActif == users[uid].estActif
  {
  }

  /** A `nom` that is sent is stored trimmed, exactly as the sanitiser left it. */
  lemma ProfileStoresTrimmedNom(users: map<UserId, User>, uid: UserId, b: ProfileBody)
    requires ProfileOutcome(users, uid, b).Ok?
    requires b.nom.Some?
    ensures ProfileOutcome(users, uid, b).value.nom == Trim(b.nom.value)
  {
    TrimIdempotent(b.nom.value);
  }

  /** `PUT /profil`: validate, load the caller, assign the allowed fields, save. */
  method UpdateProfile(db: Database, actor: Actor, b: ProfileBody) returns (r: Result<User>)
    modifies db
    ensures r == ProfileOutcome(old(db.users), actor.userId, b)
    ensures db.users == if r.Ok? then old(db.users)[actor.userId := r.value] else old(db.users)
    ensures db.products == old(db.products) && db.orders == old(db.orders)
    ensures db.categories == old(db.categories) && db.shops == old(db.shops)
  {
    if !ProfileBodyValid(b) {
      return Err(Invalid);
    }
    if actor.userId !in db.users {
      return Err(NotFound);
    }
    var user := ApplyAllowedFields(db.users[actor.userId], Sanitized(b));
    if !UserSchemaValid(user) {
      return Err(ServerError);
    }
    db.users := db.users[actor.userId := user];
    r := Ok(user);
  }

  /**
    The validators of `PUT /mot-de-passe`: the old password is present and
    not empty, and the new one is present with at least 6 characters (a
    missing value is read as the empty string).
  */
  predicate PasswordBodyValid(ancien: Option<string>, nouveau: Option<string>) {
    ancien.Some? && ancien.value != [] && nouveau.Some? && |nouveau.value| >= MinMotDePasse
  }

  /**
    `PUT /mot-de-passe` for user `uid`: 400 on a failed validator, 404 when
    the user is gone, 400 when the old password does not match the stored
    hash, 500 when the stored document fails the schema, and otherwise the
    user with the new password put through the save hook.
  */
  function PasswordOutcome(users: map<UserId, User>, uid: UserId, ancien: Option<string>, nouveau: Option<string>,
                           matches: (string, string) -> bool, hash: string -> string): (r: Result<User>)
    ensures r == Err(Invalid) <==> !PasswordBodyValid(ancien, nouveau)
    ensures r == Err(NotFound) <==> PasswordBodyValid(ancien, nouveau) && uid !in users
    ensures r == Err(WrongPassword) <==>
      (PasswordBodyValid(ancien, nouveau) && uid in users && !matches(ancien.value, users[uid].motDePasse))
    ensures r.Ok? ==> PasswordBodyValid(ancien, nouveau) && uid in users && matches(ancien.value, users[uid].motDePasse)
    ensures r.Ok? ==> r.value.(motDePasse := users[uid].motDePasse) == users[uid]
    ensures r.Ok? && nouveau.value != users[uid].motDePasse ==> r.value.motDePasse == hash(nouveau.value)
  {
    if !PasswordBodyValid(ancien, nouveau) then Err(Invalid)
    else if uid !in users then Err(NotFound)
    else if !matches(ancien.value, users[uid].motDePasse) then Err(WrongPassword)
    else
      var u := users[uid];
      var changed := u.(motDePasse := nouveau.value);
      if !UserSchemaValid(changed) then Err(ServerError) else Ok(PreSave(u, changed, hash))
  }

  /** For a valid stored user the only refusals are the three the route names. */
  lemma PasswordSaveSucceeds(users: map<UserId, User>, uid: UserId, ancien: Option<string>, nouveau: Option<string>,
                             matches: (string, string) -> bool, hash: string -> string)
    requires UsersValid(users)
    requires PasswordBodyValid(ancien, nouveau) && uid in users && matches(ancien.value, users[uid].motDePasse)
    ensures PasswordOutcome(users, uid, ancien, nouveau, matches, hash).Ok?
  {
    assert UserSchemaValid(users[uid]);
  }

  /**
    When the hash of the new password is later accepted for it, the new
    password opens the next change: the old one has been replaced.
  */
  lemma PasswordChangeChains(users: map<UserId, User>, uid: UserId, ancien: string, nouveau: string, suivant: string,
                             matches: (string, string) -> bool, hash: string -> string)
    requires PasswordOutcome(users, uid, Some(ancien), Some(nouveau), matches, hash).Ok?
    requires nouveau != users[uid].motDePasse && matches(nouveau, hash(nouveau))
    requires |suivant| >= MinMotDePasse
    ensures PasswordOutcome(
              users[uid := PasswordOutcome(users, uid, Some(ancien), Some(nouveau), matches, hash).value],
              uid, Some(nouveau), Some(suivant), matches, hash).Ok?
  {
    var u := PasswordOutcome(users, uid, Some(ancien), Some(nouveau), matches, hash).value;
    assert u.nom == users[uid].nom && u.telephone == users[uid].telephone;
  }

  /** A successful password change keeps every stored user valid. */
  lemma PasswordKeepsUsersValid(users: map<UserId, User>, uid: UserId, ancien: Option<string>, nouveau: Option<string>,
                                matches: (string, string) -> bool, hash: string -> string)
    requires UsersValid(users)
    requires PasswordOutcome(users, uid, ancien, nouveau, matches, hash).Ok?
    ensures UsersValid(users[uid := PasswordOutcome(users, uid, ancien, nouveau, matches, hash).value])
  {
    var u := PasswordOutcome(users, uid, ancien, nouveau, matches, hash).value;
    assert u.nom == users[uid].nom && u.telephone == users[uid].telephone;
  }

  /** `PUT /mot-de-passe`: validate, load the caller, check the old password, overwrite it, save. */
  method ChangePassword(db: Database, actor: Actor, ancien: Option<string>, nouveau: Option<string>,
                        matches: (string, string) -> bool, hash: string -> string) returns (r: Result<User>)
    modifies db
    ensures r == PasswordOutcome(old(db.users), actor.userId, ancien, nouveau, matches, hash)
    ensures db.users == if r.Ok? then old(db.users)[actor.userId := r.value] else old(db.users)
    ensures db.products == old(db.products) && db.orders == old(db.orders)
    ensures db.categories == old(db.categories) && db.shops == old(db.shops)
  {
    if !PasswordBodyValid(ancien, nouveau) {
      return Err(Invalid);
    }
    if actor.userId !in db.users {
      return Err(NotFound);
    }
    var stored := db.users[actor.userId];
    if !matches(ancien.value, stored.motDePasse) {
      return Err(WrongPassword);
    }
    var user := stored;
    user := user.(motDePasse := nouveau.value);
    if !UserSchemaValid(user) {
      return Err(ServerError);
    }
    user := PreSave(stored, user, hash);
    db.users := db.users[actor.userId := user];
    r := Ok(user);
  }
}
