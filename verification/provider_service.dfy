/** The credential service of internal/llm/provider/service.go over the store's tables. */
module ProviderService {
  import opened Outcome
  import opened Text
  import opened ProviderStore

  // ---- Ideal authenticated encryption (secret.go) ----

  function Seal(key: string, plaintext: string, aad: AssociatedData, nonce: nat): (r: Result<SealedSecret, Error>) {
    if plaintext == "" then Failure(SealFailed) else Success(SealedSecret(Box(plaintext, aad, nonce), Some(nonce), key))
  }

  /** Opening demands the sealing key, nonce and associated data. */
  function Open(key: string, sealed: SealedSecret, aad: AssociatedData): (r: Result<string, Error>) {
    if sealed.keyID != key || sealed.nonce.None? || sealed.ciphertext == Erased then Failure(OpenFailed)
    else if sealed.ciphertext.nonce != sealed.nonce.value || sealed.ciphertext.aad != aad then Failure(OpenFailed)
    else Success(sealed.ciphertext.plaintext)
  }

  /** NewAESGCMSealer accepts only non-blank key ids and trims them. */
  predicate ValidKey(key: string) {
    key != "" && Trimmed(key)
  }

  // ---- Requests ----

  datatype AddRequest = AddRequest(owner: Scope, provider: ProviderID, name: string, secret: string, actor: string)
  datatype SelectRequest = SelectRequest(
    owner: Scope, purpose: Purpose, credentialID: string, provider: ProviderID, modelID: string, params: string,
    actor: string)
  datatype ResolveRequest = ResolveRequest(owner: Scope, purpose: Purpose, actor: string)
  datatype TestRequest = TestRequest(owner: Scope, name: string, actor: string)

  datatype ResolvedModel = ResolvedModel(
    owner: Scope, purpose: Purpose, provider: ProviderID, modelID: string, params: string,
    credentialID: string, credentialName: string, apiKey: string, billingOwnerID: string)

  /** What a provider's connection test reports: a transport error, or a status, possibly left blank. */
  datatype Probe = ProbeError | Probe(status: Option<TestStatus>, error: string)

  function BillingOwnerID(owner: Scope): string {
    match owner.ownerType
    case Guild => owner.guildID
    case User => owner.userID
    case _ => "tenant"
  }

  /** AddCredential up to the store call: validate, then seal the trimmed secret. */
  function AddInput(key: string, req: AddRequest, nonce: nat, sealerUp: bool): (r: Result<CredentialInput, Error>) {
    var scope := NormalizeScope(req.owner);
    if scope.Failure? then Failure(scope.error) else
    var provider, name, actor, secret := req.provider, TrimSpace(req.name), TrimSpace(req.actor), TrimSpace(req.secret);
    if provider.OtherProvider? then Failure(BadRequest("provider"))
    else if name == "" then Failure(BadRequest("label"))
    else if actor == "" then Failure(BadRequest("actor"))
    else if secret == "" then Failure(BadRequest("secret"))
    else if !sealerUp then Failure(SealFailed)
    else
      var sealed := Seal(key, secret, AAD(scope.value, provider, name), nonce);
      if sealed.Failure? then Failure(sealed.error)
      else
        var secret := sealed.value.(keyID := TrimSpace(sealed.value.keyID));
        Success(CredentialInput(scope.value, provider, name, secret, actor))
  }

  /** SelectModelProfile up to the store call. */
  function SelectInput(req: SelectRequest): (r: Result<ProfileInput, Error>) {
    NormalizeProfileInput(
      ProfileInput(req.owner, req.purpose, req.credentialID, req.provider, req.modelID, req.params, req.actor))
  }

  function ResolveInput(req: ResolveRequest): (r: Result<(Scope, Purpose), Error>) {
    var scope := NormalizeScope(req.owner);
    if scope.Failure? then Failure(scope.error)
    else if req.purpose.OtherPurpose? then Failure(BadRequest("purpose"))
    else if TrimSpace(req.actor) == "" then Failure(BadRequest("actor"))
    else Success((scope.value, req.purpose))
  }

  function TestInput(req: TestRequest): (r: Result<(Scope, string), Error>) {
    var scope := NormalizeScope(req.owner);
    if scope.Failure? then Failure(scope.error)
    else if TrimSpace(req.name) == "" then Failure(BadRequest("label"))
    else if TrimSpace(req.actor) == "" then Failure(BadRequest("actor"))
    else Success((scope.value, TrimSpace(req.name)))
  }

  // ---- What each service call does ----

  ghost predicate AddStep(key: string, db: Tables, db': Tables, req: AddRequest, newID: string, nonce: nat,
                          sealerUp: bool, f: Faults, r: Result<string, Error>) {
    var input := AddInput(key, req, nonce, sealerUp);
    if input.Failure? then r.Failure? && db' == db else UpsertStep(db, db', newID, input.value, f, r)
  }

  ghost predicate ChooseStep(db: Tables, db': Tables, req: SelectRequest, newID: string, f: Faults,
                             r: Result<(), Error>) {
    var input := SelectInput(req);
    if input.Failure? then r.Failure? && db' == db else SelectStep(db, db', newID, input.value, f, r)
  }

  function OpenRow(key: string, db: Tables, id: string, owner: Scope): Result<string, Error>
    requires id in db.credentials
  {
    var c := db.credentials[id];
    Open(key, c.secret, AAD(owner, c.provider, c.name))
  }

  /** Which of the reads of a resolution fail. */
  datatype ReadFaults = ReadFaults(profile: bool, credential: bool)

  /** ResolveActiveModel reads the profile from one state of the tables and the credential from a later one. */
  ghost predicate ResolveReads(key: string, dbProfile: Tables, dbCredential: Tables, req: ResolveRequest, f: ReadFaults,
                               r: Result<ResolvedModel, Error>) {
    var input := ResolveInput(req);
    if input.Failure? then r.Failure? else
    ReadsFor(key, dbProfile, dbCredential, input.value.0, input.value.1, f, r)
  }

  ghost predicate ReadsFor(key: string, dbProfile: Tables, dbCredential: Tables, owner: Scope, purpose: Purpose,
                           f: ReadFaults, r: Result<ResolvedModel, Error>) {
    exists profileID :: ActiveRead(dbProfile, owner, purpose, f.profile, profileID) &&
      if profileID.Failure? then r.Failure?
      else OpensFor(key, dbCredential, owner, purpose, dbProfile.profiles[profileID.value], f.credential, r)
  }

  /** The part of resolution that follows reading profile p. */
  ghost predicate OpensFor(key: string, db: Tables, owner: Scope, purpose: Purpose, p: Profile, fault: bool,
                           r: Result<ResolvedModel, Error>) {
    exists id :: ResolutionRead(db, owner, p.credentialID, p.provider, fault, id) &&
      if id.Failure? then r.Failure?
      else
        var secret := OpenRow(key, db, id.value, owner);
        if secret.Failure? then r.Failure?
        else r == Success(ResolvedModel(owner, purpose, p.provider, p.modelID, p.params, id.value,
                                        db.credentials[id.value].name, secret.value, BillingOwnerID(owner)))
  }

  class Service {
    const key: string
    const store: SQLStore

    constructor (key: string, store: SQLStore)
      ensures this.key == key && this.store == store
    {
      this.key, this.store := key, store;
    }

    method AddCredential(req: AddRequest, newID: string, nonce: nat, sealerUp: bool, f: Faults)
      returns (r: Result<string, Error>, ghost made: Result<string, Error>)
      modifies store
      ensures AddStep(key, old(store.Db()), store.Db(), req, newID, nonce, sealerUp, f, made) && r == Told(f, made)
    {
      var input := AddInput(key, req, nonce, sealerUp);
      if input.Failure? { return Failure(input.error), Failure(input.error); }
      r, made := store.UpsertCredential(input.value, newID, f);
    }

    method RevokeCredential(owner: Scope, name: string, actor: string, f: Faults)
      returns (r: Result<(), Error>, ghost made: Result<(), Error>)
      modifies store
      ensures RevokeStep(old(store.Db()), store.Db(), owner, name, actor, f, made) && r == Told(f, made)
    {
      var scope := NormalizeScope(owner);
      if scope.Failure? { return Failure(scope.error), Failure(scope.error); }
      var name, actor := TrimSpace(name), TrimSpace(actor);
      if name == "" { return Failure(BadRequest("label")), Failure(BadRequest("label")); }
      if actor == "" { return Failure(BadRequest("actor")), Failure(BadRequest("actor")); }
      r, made := store.RevokeCredential(scope.value, name, actor, f);
    }

    method SelectModelProfile(req: SelectRequest, newID: string, f: Faults)
      returns (r: Result<(), Error>, ghost made: Result<(), Error>)
      modifies store
      ensures ChooseStep(old(store.Db()), store.Db(), req, newID, f, made) && r == Told(f, made)
    {
      var input := SelectInput(req);
      if input.Failure? { return Failure(input.error), Failure(input.error); }
      r, made := store.SelectModelProfile(input.value, newID, f);
    }

    /** The outcome of a connection test is recorded on the row; a row that cannot be opened is recorded as such. */
    method TestCredential(req: TestRequest, probe: Probe, unreadable: bool, f: Faults)
      returns (r: Result<TestStatus, Error>, ghost tested: Option<string>)
      modifies store
      ensures TestedAs(key, old(store.Db()), store.Db(), req, probe, unreadable, f, r, tested)
    {
      tested := None;
      var input := TestInput(req);
      if input.Failure? { return Failure(input.error), None; }
      var (owner, name) := input.value;
      var id := store.CredentialForTest(owner, name, unreadable);
      if id.Failure? { return Failure(id.error), None; }
      tested := Some(id.value);
      var c := store.credentials[id.value];
      var secret := Open(key, c.secret, AAD(owner, c.provider, c.name));
      if secret.Failure? {
        var _, _ := store.UpdateCredentialTestResult(id.value, Failed, "secret_open_failed", f);
        return Failure(OpenFailed), tested;
      }
      if probe.ProbeError? {
        var _, _ := store.UpdateCredentialTestResult(id.value, Failed, "request_failed", f);
        return Failure(StoreFault), tested;
      }
      var status := if probe.status.None? then Failed else probe.status.value;
      var error := if status == Succeeded then "" else probe.error;
      var recorded, _ := store.UpdateCredentialTestResult(id.value, status, error, f);
      r := if recorded.Failure? then Failure(recorded.error) else Success(status);
    }

    method ResolveActiveModel(req: ResolveRequest, f: ReadFaults) returns (r: Result<ResolvedModel, Error>)
      ensures ResolveReads(key, store.Db(), store.Db(), req, f, r)
    {
      var input := ResolveInput(req);
      if input.Failure? { return Failure(input.error); }
      var (owner, purpose) := input.value;
      var profileID := store.ActiveModelProfile(owner, purpose, f.profile);
      if profileID.Failure? { return Failure(profileID.error); }
      var p := store.profiles[profileID.value];
      var credentialID := store.CredentialForResolution(owner, p.credentialID, p.provider, f.credential);
      if credentialID.Failure? { return Failure(credentialID.error); }
      var c := store.credentials[credentialID.value];
      var secret := Open(key, c.secret, AAD(owner, c.provider, c.name));
      if secret.Failure? { return Failure(OpenFailed); }
      r := Success(ResolvedModel(owner, purpose, p.provider, p.modelID, p.params, credentialID.value, c.name,
                                 secret.value, BillingOwnerID(owner)));
    }
  }

  /** What a test leaves on the tested row, and what it reports. */
  ghost predicate TestedAs(key: string, db: Tables, db': Tables, req: TestRequest, probe: Probe, unreadable: bool,
                           f: Faults, r: Result<TestStatus, Error>, tested: Option<string>) {
    var input := TestInput(req);
    if input.Failure? then r.Failure? && db' == db && tested == None else
    var (owner, name) := input.value;
    match tested
    case None => r.Failure? && db' == db && TestRead(db, owner, name, unreadable, Failure(r.error))
    case Some(id) =>
      && TestRead(db, owner, name, unreadable, Success(id))
      && if OpenRow(key, db, id, owner).Failure? then
           r == Failure(OpenFailed) && exists w :: TestStep(db, db', id, Failed, "secret_open_failed", f, w)
         else if probe.ProbeError? then
           r.Failure? && exists w :: TestStep(db, db', id, Failed, "request_failed", f, w)
         else
           var status := if probe.status.None? then Failed else probe.status.value;
           exists w :: TestStep(db, db', id, status, if status == Succeeded then "" else probe.error, f, w)
                       && r.Success? == Told(f, w).Success? && (r.Success? ==> r.value == status)
  }
}
