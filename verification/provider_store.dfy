/** The credential and model-profile tables of internal/llm/provider/store.go. */
module ProviderStore {
  import opened Outcome
  import opened Text

  // Texts drawn from a fixed list are enumerations; the last member stands for every text off the list.
  datatype OwnerType = Guild | User | Tenant | OtherOwner
  datatype ProviderID = OpenAI | Anthropic | Gemini | Custom | OtherProvider
  datatype Purpose = Chat | Reasoning | Embedding | Routing | OtherPurpose

  datatype Scope = Scope(ownerType: OwnerType, guildID: string, userID: string)

  datatype CredentialStatus = Active | Invalid | Revoked
  datatype TestStatus = Untested | Succeeded | Failed

  datatype Error =
    | BadRequest(field: string)
    | NotFound
    | ProviderMismatch
    | StoreFault
    | SealFailed
    | OpenFailed

  /** What a credential is sealed under. */
  datatype AssociatedData = AAD(owner: Scope, provider: ProviderID, name: string)

  /** An AEAD ciphertext, kept symbolically: the term says what was sealed under what. */
  datatype Ciphertext = Erased | Box(plaintext: string, aad: AssociatedData, nonce: nat)

  datatype SealedSecret = SealedSecret(ciphertext: Ciphertext, nonce: Option<nat>, keyID: string)

  /** A row of llm_credentials; revoked is "revoked_at is not null". */
  datatype Credential = Credential(
    owner: Scope, provider: ProviderID, name: string, secret: SealedSecret,
    status: CredentialStatus, lastTest: TestStatus, lastError: string, revoked: bool)

  /** A row of llm_model_profiles. */
  datatype Profile = Profile(
    owner: Scope, purpose: Purpose, credentialID: string, provider: ProviderID,
    modelID: string, params: string, enabled: bool)

  /** Both tables, with the database's lower() function, on which the label index is built. */
  datatype Tables = Tables(lower: string -> string, credentials: map<string, Credential>,
                           profiles: map<string, Profile>)

  datatype CredentialInput = CredentialInput(
    owner: Scope, provider: ProviderID, name: string, secret: SealedSecret, actor: string)

  datatype ProfileInput = ProfileInput(
    owner: Scope, purpose: Purpose, credentialID: string, provider: ProviderID,
    modelID: string, params: string, actor: string)

  /** What the database may do to one transaction: refuse to begin, fail a statement, be unable to
      count the rows a statement changed, fail to commit, or commit and lose the answer. */
  datatype Faults = Faults(begin: bool, first: bool, second: bool, uncounted: bool, commit: Fate)

  const NO_FAULTS := Faults(false, false, false, false, Done)

  /** What the caller is told of a transaction with this outcome. */
  function Told<T>(f: Faults, made: Result<T, Error>): Result<T, Error> {
    if made.Success? && f.commit == Unheard then Failure(StoreFault) else made
  }

  predicate SupportsPurpose(provider: ProviderID, purpose: Purpose) {
    !provider.OtherProvider? && !purpose.OtherPurpose? && !(provider.Anthropic? && purpose.Embedding?)
  }

  // ---- Normalisation ----

  predicate WellScoped(s: Scope) {
    && Trimmed(s.guildID) && Trimmed(s.userID)
    && match s.ownerType
       case Guild => s.guildID != "" && s.userID == ""
       case User => s.guildID == "" && s.userID != ""
       case Tenant => s.guildID == "" && s.userID == ""
       case OtherOwner => false
  }

  function NormalizeScope(scope: Scope): (r: Result<Scope, Error>)
    ensures r.Success? ==> WellScoped(r.value)
    ensures WellScoped(scope) ==> r == Success(scope)
  {
    var s := Scope(scope.ownerType, TrimSpace(scope.guildID), TrimSpace(scope.userID));
    if s.ownerType.Guild? then
      if s.guildID == "" then Failure(BadRequest("guild ID"))
      else if s.userID != "" then Failure(BadRequest("user ID"))
      else Success(s)
    else if s.ownerType.User? then
      if s.userID == "" then Failure(BadRequest("user ID"))
      else if s.guildID != "" then Failure(BadRequest("guild ID"))
      else Success(s)
    else if s.ownerType.Tenant? then
      if s.guildID != "" || s.userID != "" then Failure(BadRequest("guild or user ID")) else Success(s)
    else Failure(BadRequest("owner type"))
  }

  predicate NormalCredentialInput(input: CredentialInput) {
    && WellScoped(input.owner) && !input.provider.OtherProvider? && input.name != "" && Trimmed(input.name)
    && input.secret.ciphertext != Erased && input.secret.nonce.Some? && input.secret.keyID != ""
      && Trimmed(input.secret.keyID)
    && input.actor != "" && Trimmed(input.actor)
  }

  function NormalizeCredentialInput(input: CredentialInput): (r: Result<CredentialInput, Error>)
    ensures r.Success? ==> NormalCredentialInput(r.value)
    ensures NormalCredentialInput(input) ==> r == Success(input)
  {
    var scope := NormalizeScope(input.owner);
    if scope.Failure? then Failure(scope.error) else
    var secret := input.secret.(keyID := TrimSpace(input.secret.keyID));
    var clean := CredentialInput(scope.value, input.provider, TrimSpace(input.name), secret, TrimSpace(input.actor));
    if clean.provider.OtherProvider? then Failure(BadRequest("provider"))
    else if clean.name == "" then Failure(BadRequest("label"))
    else if secret.ciphertext == Erased then Failure(BadRequest("ciphertext"))
    else if secret.nonce.None? then Failure(BadRequest("nonce"))
    else if secret.keyID == "" then Failure(BadRequest("key ID"))
    else if clean.actor == "" then Failure(BadRequest("actor"))
    else Success(clean)
  }

  predicate NormalProfileInput(input: ProfileInput) {
    && WellScoped(input.owner) && SupportsPurpose(input.provider, input.purpose)
    && input.modelID != "" && Trimmed(input.modelID) && input.credentialID != "" && Trimmed(input.credentialID)
    && input.params != "" && Trimmed(input.params) && input.actor != "" && Trimmed(input.actor)
  }

  function NormalizeProfileInput(input: ProfileInput): (r: Result<ProfileInput, Error>)
    ensures r.Success? ==> NormalProfileInput(r.value)
    ensures NormalProfileInput(input) ==> r == Success(input)
  {
    var scope := NormalizeScope(input.owner);
    if scope.Failure? then Failure(scope.error) else
    var params := TrimSpace(input.params);
    var clean := ProfileInput(scope.value, input.purpose, TrimSpace(input.credentialID), input.provider,
                              TrimSpace(input.modelID), if params == "" then "{}" else params, TrimSpace(input.actor));
    if clean.purpose.OtherPurpose? then Failure(BadRequest("purpose"))
    else if clean.provider.OtherProvider? then Failure(BadRequest("provider"))
    else if clean.modelID == "" then Failure(BadRequest("model"))
    else if !SupportsPurpose(clean.provider, clean.purpose) then Failure(BadRequest("purpose"))
    else if clean.credentialID == "" then Failure(BadRequest("credential ID"))
    else if clean.actor == "" then Failure(BadRequest("actor"))
    else Success(clean)
  }

  // ---- What each transaction does to the tables, and its own outcome, which a lost answer may hide ----

  /** The row is an unrevoked entry of the owner's label index under this label. */
  predicate Holds(db: Tables, c: Credential, owner: Scope, name: string) {
    !c.revoked && c.owner == owner && db.lower(c.name) == db.lower(name)
  }

  predicate HeldBy(db: Tables, id: string, owner: Scope, name: string) {
    id in db.credentials && Holds(db, db.credentials[id], owner, name)
  }

  function Fresh(input: CredentialInput): Credential {
    Credential(input.owner, input.provider, input.name, input.secret, Active, Untested, "", false)
  }

  function Rotated(c: Credential, input: CredentialInput): Credential {
    c.(name := input.name, secret := input.secret, status := Active, lastTest := Untested, lastError := "", revoked := false)
  }

  function Wiped(c: Credential): Credential {
    c.(revoked := true, status := Revoked, secret := c.secret.(ciphertext := Erased, nonce := None))
  }

  /** The credential a new profile may point to. */
  predicate Selectable(db: Tables, input: ProfileInput) {
    input.credentialID in db.credentials &&
    var c := db.credentials[input.credentialID];
    c.provider == input.provider && c.owner == input.owner && c.status == Active && !c.revoked
  }

  predicate Chosen(p: Profile, owner: Scope, purpose: Purpose) {
    p.enabled && p.owner == owner && p.purpose == purpose
  }

  function Unselected(profiles: map<string, Profile>, owner: Scope, purpose: Purpose): map<string, Profile> {
    map id | id in profiles ::
      if Chosen(profiles[id], owner, purpose) then profiles[id].(enabled := false) else profiles[id]
  }

  /** UpsertCredential: a failure changes nothing; a success rewrites the one row that holds the label,
      or adds a row when none does. */
  ghost predicate UpsertStep(db: Tables, db': Tables, newID: string, input: CredentialInput, f: Faults,
                             r: Result<string, Error>) {
    var clean := NormalizeCredentialInput(input);
    var id := TrimSpace(newID);
    if clean.Failure? || id == "" || f.begin || f.first || f.commit == Undone then r.Failure? && db' == db
    else
      var input := clean.value;
      if exists held :: HeldBy(db, held, input.owner, input.name) then
        if r.Failure? then
          db' == db && exists held ::
              HeldBy(db, held, input.owner, input.name) && db.credentials[held].provider != input.provider
        else
          && HeldBy(db, r.value, input.owner, input.name)
          && db.credentials[r.value].provider == input.provider
          && db' == db.(credentials := db.credentials[r.value := Rotated(db.credentials[r.value], input)])
      else if id in db.credentials then r.Failure? && db' == db
      else r == Success(id) && db' == db.(credentials := db.credentials[id := Fresh(input)])
  }

  function RevokedRows(db: Tables, owner: Scope, name: string): map<string, Credential> {
    map id | id in db.credentials ::
      if Holds(db, db.credentials[id], owner, name) then Wiped(db.credentials[id]) else db.credentials[id]
  }

  /** The credentials whose profiles the second statement of a revocation disables. */
  predicate RevokedUnder(db: Tables, id: string, owner: Scope, name: string) {
    id in db.credentials &&
    var c := db.credentials[id];
    c.owner == owner && db.lower(c.name) == db.lower(name) && c.status == Revoked
  }

  function DisabledProfiles(db: Tables, owner: Scope, name: string): map<string, Profile> {
    map id | id in db.profiles ::
      var p := db.profiles[id];
      if p.enabled && RevokedUnder(db, p.credentialID, owner, name) then p.(enabled := false) else p
  }

  function Revocation(db: Tables, owner: Scope, name: string): Tables {
    var wiped := db.(credentials := RevokedRows(db, owner, name));
    wiped.(profiles := DisabledProfiles(wiped, owner, name))
  }

  ghost predicate RevokeStep(db: Tables, db': Tables, owner: Scope, name: string, actor: string, f: Faults,
                             r: Result<(), Error>) {
    var scope := NormalizeScope(owner);
    if scope.Failure? || TrimSpace(name) == "" || TrimSpace(actor) == ""
       || f.begin || f.first || f.second || f.commit == Undone then
      r.Failure? && db' == db
    else
      var name := TrimSpace(name);
      if !f.uncounted && !exists held :: HeldBy(db, held, scope.value, name) then r.Failure? && db' == db
      else
        r.Success? && db' == Revocation(db, scope.value, name)
  }

  ghost predicate TestStep(db: Tables, db': Tables, id: string, status: TestStatus, error: string, f: Faults,
                           r: Result<(), Error>) {
    var id := TrimSpace(id);
    if id == "" || f.begin || f.first || f.commit == Undone then r.Failure? && db' == db
    else if id in db.credentials && !db.credentials[id].revoked then
      var c := db.credentials[id].(lastTest := status, lastError := error);
      r.Success? && db' == db.(credentials := db.credentials[id := c])
    else r.Success? == f.uncounted && db' == db
  }

  function Selection(db: Tables, id: string, input: ProfileInput): Tables {
    var profile := Profile(input.owner, input.purpose, input.credentialID, input.provider, input.modelID, input.params, true);
    db.(profiles := Unselected(db.profiles, input.owner, input.purpose)[id := profile])
  }

  /** SelectModelProfile: the old choice is disabled first, and comes back if no row is inserted. */
  ghost predicate SelectStep(db: Tables, db': Tables, newID: string, input: ProfileInput, f: Faults,
                             r: Result<(), Error>) {
    var clean := NormalizeProfileInput(input);
    var id := TrimSpace(newID);
    if clean.Failure? || id == "" || f.begin || f.first || f.second || f.commit == Undone then r.Failure? && db' == db
    else
      var input := clean.value;
      if Selectable(db, input) then
        if id in db.profiles then r.Failure? && db' == db else r.Success? && db' == Selection(db, id, input)
      else if f.uncounted then r.Success? && db' == db.(profiles := Unselected(db.profiles, input.owner, input.purpose))
      else r.Failure? && db' == db
  }

  // ---- The store, statement by statement ----

  class SQLStore {
    const lower: string -> string
    var credentials: map<string, Credential>
    var profiles: map<string, Profile>

    ghost function Db(): Tables
      reads this
    {
      Tables(lower, credentials, profiles)
    }

    constructor (lower: string -> string)
      ensures Db() == Tables(lower, map[], map[])
    {
      this.lower := lower;
      credentials, profiles := map[], map[];
    }

    method UpsertCredential(input: CredentialInput, newID: string, f: Faults)
      returns (r: Result<string, Error>, ghost made: Result<string, Error>)
      modifies this
      ensures UpsertStep(old(Db()), Db(), newID, input, f, made) && r == Told(f, made)
    {
      var clean := NormalizeCredentialInput(input);
      if clean.Failure? { return Failure(clean.error), Failure(clean.error); }
      var input := clean.value;
      var id := TrimSpace(newID);
      if id == "" { return Failure(BadRequest("credential ID")), Failure(BadRequest("credential ID")); }
      if f.begin || f.first { return Failure(StoreFault), Failure(StoreFault); }
      var saved := credentials;
      if held :| held in credentials && !credentials[held].revoked && credentials[held].owner == input.owner
                 && lower(credentials[held].name) == lower(input.name)
      {
        assert HeldBy(Db(), held, input.owner, input.name);
        if credentials[held].provider != input.provider { return Failure(ProviderMismatch), Failure(ProviderMismatch); }
        credentials := credentials[held := Rotated(credentials[held], input)];
        r := Success(held);
      } else {
        assert !exists held :: HeldBy(Db(), held, input.owner, input.name);
        if id in credentials { return Failure(StoreFault), Failure(StoreFault); }
        credentials := credentials[id := Fresh(input)];
        r := Success(id);
      }
      made := if f.commit == Undone then Failure(StoreFault) else r;
      if f.commit == Undone { credentials := saved; }
      if f.commit != Done { r := Failure(StoreFault); }
    }

    /** First statement of a revocation: wipe the rows that hold the label. */
    method WipeHeld(owner: Scope, name: string) returns (affected: bool)
      modifies this`credentials
      ensures credentials == RevokedRows(old(Db()), owner, name)
      ensures affected == exists held :: HeldBy(old(Db()), held, owner, name)
    {
      if held :| held in credentials && !credentials[held].revoked && credentials[held].owner == owner
                 && lower(credentials[held].name) == lower(name)
      {
        assert HeldBy(Db(), held, owner, name);
        affected := true;
      } else {
        affected := false;
      }
      credentials := map id | id in credentials ::
        if !credentials[id].revoked && credentials[id].owner == owner && lower(credentials[id].name) == lower(name)
        then Wiped(credentials[id]) else credentials[id];
    }

    /** Second statement of a revocation: disable the profiles of the label's revoked rows. */
    method DisableRevoked(owner: Scope, name: string)
      modifies this`profiles
      ensures profiles == DisabledProfiles(old(Db()), owner, name)
    {
      var revoked := set id | id in credentials && credentials[id].owner == owner
                              && lower(credentials[id].name) == lower(name) && credentials[id].status == Revoked;
      profiles := map id | id in profiles ::
        if profiles[id].enabled && profiles[id].credentialID in revoked
        then profiles[id].(enabled := false) else profiles[id];
    }

    method RevokeCredential(owner: Scope, name: string, actor: string, f: Faults)
      returns (r: Result<(), Error>, ghost made: Result<(), Error>)
      modifies this
      ensures RevokeStep(old(Db()), Db(), owner, name, actor, f, made) && r == Told(f, made)
    {
      var scope := NormalizeScope(owner);
      if scope.Failure? { return Failure(scope.error), Failure(scope.error); }
      var name := TrimSpace(name);
      if name == "" { return Failure(BadRequest("label")), Failure(BadRequest("label")); }
      if TrimSpace(actor) == "" { return Failure(BadRequest("actor")), Failure(BadRequest("actor")); }
      if f.begin || f.first { return Failure(StoreFault), Failure(StoreFault); }
      var savedCredentials, savedProfiles := credentials, profiles;
      var affected := WipeHeld(scope.value, name);
      if !affected && !f.uncounted {
        credentials := savedCredentials;
        return Failure(NotFound), Failure(NotFound);
      }
      if f.second {
        credentials := savedCredentials;
        return Failure(StoreFault), Failure(StoreFault);
      }
      DisableRevoked(scope.value, name);
      if f.commit == Undone {
        credentials, profiles := savedCredentials, savedProfiles;
        return Failure(StoreFault), Failure(StoreFault);
      }
      made := Success(());
      r := if f.commit == Done then Success(()) else Failure(StoreFault);
    }

    method UpdateCredentialTestResult(id: string, status: TestStatus, error: string, f: Faults)
      returns (r: Result<(), Error>, ghost made: Result<(), Error>)
      modifies this
      ensures TestStep(old(Db()), Db(), id, status, error, f, made) && r == Told(f, made)
    {
      var id := TrimSpace(id);
      if id == "" { return Failure(BadRequest("credential ID")), Failure(BadRequest("credential ID")); }
      if f.begin || f.first { return Failure(StoreFault), Failure(StoreFault); }
      var saved := credentials;
      if id in credentials && !credentials[id].revoked {
        credentials := credentials[id := credentials[id].(lastTest := status, lastError := error)];
      } else if !f.uncounted {
        return Failure(NotFound), Failure(NotFound);
      }
      if f.commit == Undone {
        credentials := saved;
        return Failure(StoreFault), Failure(StoreFault);
      }
      made := Success(());
      r := if f.commit == Done then Success(()) else Failure(StoreFault);
    }

    method SelectModelProfile(input: ProfileInput, newID: string, f: Faults)
      returns (r: Result<(), Error>, ghost made: Result<(), Error>)
      modifies this
      ensures SelectStep(old(Db()), Db(), newID, input, f, made) && r == Told(f, made)
    {
      var clean := NormalizeProfileInput(input);
      if clean.Failure? { return Failure(clean.error), Failure(clean.error); }
      var input := clean.value;
      var id := TrimSpace(newID);
      if id == "" { return Failure(BadRequest("profile ID")), Failure(BadRequest("profile ID")); }
      if f.begin { return Failure(StoreFault), Failure(StoreFault); }
      var saved := profiles;
      profiles := Unselected(profiles, input.owner, input.purpose);
      if f.first || f.second {
        profiles := saved;
        return Failure(StoreFault), Failure(StoreFault);
      }
      var found := input.credentialID in credentials && credentials[input.credentialID].provider == input.provider
        && credentials[input.credentialID].owner == input.owner
        && credentials[input.credentialID].status == Active && !credentials[input.credentialID].revoked;
      if found {
        if id in profiles {
          profiles := saved;
          return Failure(StoreFault), Failure(StoreFault);
        }
        var p := Profile(input.owner, input.purpose, input.credentialID, input.provider, input.modelID, input.params, true);
        profiles := profiles[id := p];
      } else if !f.uncounted {
        profiles := saved;
        return Failure(NotFound), Failure(NotFound);
      }
      if f.commit == Undone {
        profiles := saved;
        return Failure(StoreFault), Failure(StoreFault);
      }
      made := Success(());
      r := if f.commit == Done then Success(()) else Failure(StoreFault);
    }

    /** Each read may fail in the database, and then returns no row. */
    method ActiveModelProfile(owner: Scope, purpose: Purpose, fault: bool) returns (r: Result<string, Error>)
      ensures ActiveRead(Db(), owner, purpose, fault, r)
    {
      var scope := NormalizeScope(owner);
      if scope.Failure? { return Failure(scope.error); }
      if purpose.OtherPurpose? { return Failure(BadRequest("purpose")); }
      if fault { return Failure(StoreFault); }
      if id :| id in profiles && Chosen(profiles[id], scope.value, purpose) {
        r := Success(id);
      } else {
        r := Failure(NotFound);
      }
    }

    method CredentialForResolution(owner: Scope, id: string, provider: ProviderID, fault: bool)
      returns (r: Result<string, Error>)
      ensures ResolutionRead(Db(), owner, id, provider, fault, r)
    {
      var scope := NormalizeScope(owner);
      if scope.Failure? { return Failure(scope.error); }
      var id := TrimSpace(id);
      if id == "" { return Failure(BadRequest("credential ID")); }
      if provider.OtherProvider? { return Failure(BadRequest("provider")); }
      if fault { return Failure(StoreFault); }
      if id in credentials && credentials[id].provider == provider && credentials[id].owner == scope.value
         && credentials[id].status == Active && !credentials[id].revoked {
        r := Success(id);
      } else {
        r := Failure(NotFound);
      }
    }

    method CredentialForTest(owner: Scope, name: string, fault: bool) returns (r: Result<string, Error>)
      ensures TestRead(Db(), owner, name, fault, r)
    {
      var scope := NormalizeScope(owner);
      if scope.Failure? { return Failure(scope.error); }
      var name := TrimSpace(name);
      if name == "" { return Failure(BadRequest("label")); }
      if fault { return Failure(StoreFault); }
      if id :| id in credentials && credentials[id].owner == scope.value && lower(credentials[id].name) == lower(name)
               && credentials[id].status == Active && !credentials[id].revoked
      {
        r := Success(id);
      } else {
        r := Failure(NotFound);
        assert forall id :: HeldBy(Db(), id, scope.value, name) ==> Db().credentials[id].status != Active;
      }
    }
  }

  // ---- What the three reads return: the id of the row read ----

  ghost predicate ActiveRead(db: Tables, owner: Scope, purpose: Purpose, fault: bool, r: Result<string, Error>) {
    var scope := NormalizeScope(owner);
    if scope.Failure? || purpose.OtherPurpose? then r.Failure?
    else if fault then r == Failure(StoreFault)
    else if r.Success? then r.value in db.profiles && Chosen(db.profiles[r.value], scope.value, purpose)
    else forall id :: id in db.profiles ==> !Chosen(db.profiles[id], scope.value, purpose)
  }

  ghost predicate ResolutionRead(db: Tables, owner: Scope, id: string, provider: ProviderID, fault: bool,
                                 r: Result<string, Error>) {
    var scope := NormalizeScope(owner);
    var id := TrimSpace(id);
    if scope.Failure? || id == "" || provider.OtherProvider? then r.Failure?
    else if fault then r == Failure(StoreFault)
    else if id in db.credentials && db.credentials[id].provider == provider && db.credentials[id].owner == scope.value
            && db.credentials[id].status == Active && !db.credentials[id].revoked then r == Success(id)
    else r.Failure?
  }

  ghost predicate TestRead(db: Tables, owner: Scope, name: string, fault: bool, r: Result<string, Error>) {
    var scope := NormalizeScope(owner);
    var name := TrimSpace(name);
    if scope.Failure? || name == "" then r.Failure?
    else if fault then r == Failure(StoreFault)
    else if r.Success? then HeldBy(db, r.value, scope.value, name) && db.credentials[r.value].status == Active
    else forall id :: HeldBy(db, id, scope.value, name) ==> db.credentials[id].status != Active
  }
}
