/** Every run of the credential service: what all reachable tables satisfy, and what resolution returns. */
module ProviderRuns {
  import opened Outcome
  import opened Text
  import opened ProviderStore
  import opened ProviderService

  /** A successful add or rotate: the row it wrote and the trimmed secret it was given. */
  datatype Write = Write(id: string, secret: string)

  datatype State = State(db: Tables, writes: seq<Write>)

  /** The outcome of one transaction belongs to the event that made it, whatever its caller was told. */
  datatype Event =
    | Add(req: AddRequest, newID: string, nonce: nat, sealerUp: bool, faults: Faults, added: Result<string, Error>)
    | Revoke(owner: Scope, name: string, actor: string, faults: Faults, done: Result<(), Error>)
    | Select(choice: SelectRequest, newID: string, faults: Faults, done: Result<(), Error>)
    | RecordTest(id: string, status: TestStatus, error: string, faults: Faults, done: Result<(), Error>)

  predicate Failed(e: Event) {
    if e.Add? then e.added.Failure? else e.done.Failure?
  }

  /** The caller was told of an error. */
  predicate Reported(e: Event) {
    if e.Add? then Told(e.faults, e.added).Failure? else Told(e.faults, e.done).Failure?
  }

  function WritesOf(e: Event): seq<Write> {
    if e.Add? && e.added.Success? then [Write(e.added.value, TrimSpace(e.req.secret))] else []
  }

  ghost predicate Step(key: string, s: State, e: Event, s': State) {
    && s'.writes == s.writes + WritesOf(e)
    && match e
       case Add(req, newID, nonce, sealerUp, f, r) => AddStep(key, s.db, s'.db, req, newID, nonce, sealerUp, f, r)
       case Revoke(owner, name, actor, f, r) => RevokeStep(s.db, s'.db, owner, name, actor, f, r)
       case Select(req, newID, f, r) => ChooseStep(s.db, s'.db, req, newID, f, r)
       case RecordTest(id, status, error, f, r) => TestStep(s.db, s'.db, id, status, error, f, r)
  }

  /** states[k] is the state after k of the events, starting from empty tables. */
  ghost predicate Run(key: string, states: seq<State>, events: seq<Event>) {
    && |states| == |events| + 1
    && states[0].db.credentials == map[] && states[0].db.profiles == map[] && states[0].writes == []
    && forall k :: 0 <= k < |events| ==> Step(key, states[k], events[k], states[k + 1])
  }

  /** The secret of the last write to the row, or "" if there was none. */
  function LastSecret(writes: seq<Write>, id: string): string {
    if writes == [] then ""
    else if writes[|writes| - 1].id == id then writes[|writes| - 1].secret
    else LastSecret(writes[..|writes| - 1], id)
  }

  // ---- The invariant ----

  /** A live row is sealed under its own owner, provider and label, with the last secret written to it;
      a revoked row has nothing left to open. */
  ghost predicate SealedRow(key: string, id: string, c: Credential, lastSecret: string) {
    && NamedRow(id, c)
    && (c.revoked ==> c == Wiped(c))
    && (!c.revoked ==> LiveRow(key, c, lastSecret) && lastSecret != "")
  }

  ghost predicate LiveRow(key: string, c: Credential, secret: string) {
    !c.revoked && c.status == Active && Open(key, c.secret, AAD(c.owner, c.provider, c.name)) == Success(secret)
  }

  ghost predicate NamedRow(id: string, c: Credential) {
    WellScoped(c.owner) && !c.provider.OtherProvider? && id != "" && Trimmed(id)
  }

  /** Every profile points to a credential of its own owner and provider; an enabled one to a live credential. */
  ghost predicate Anchored(credentials: map<string, Credential>, p: Profile) {
    p.credentialID in credentials &&
    var c := credentials[p.credentialID];
    c.owner == p.owner && c.provider == p.provider && (p.enabled ==> !c.revoked)
  }

  ghost predicate AllSealed(key: string, s: State) {
    forall id :: id in s.db.credentials ==> SealedRow(key, id, s.db.credentials[id], LastSecret(s.writes, id))
  }

  ghost predicate AllAnchored(db: Tables) {
    forall id :: id in db.profiles ==> Anchored(db.credentials, db.profiles[id])
  }

  ghost predicate OneHolder(db: Tables) {
    forall a, b | a in db.credentials && b in db.credentials && !db.credentials[b].revoked
      :: HeldBy(db, a, db.credentials[b].owner, db.credentials[b].name) ==> a == b
  }

  ghost predicate OneChoice(db: Tables) {
    forall a, b | a in db.profiles && b in db.profiles && db.profiles[a].enabled
      :: Chosen(db.profiles[b], db.profiles[a].owner, db.profiles[a].purpose) ==> a == b
  }

  ghost predicate Inv(key: string, s: State) {
    AllSealed(key, s) && AllAnchored(s.db) && OneHolder(s.db) && OneChoice(s.db)
  }

  /** What no event may change: rows stay, owners, providers and lowercased labels are fixed, revoked rows and the
      contents of profiles are frozen, and a disabled profile stays disabled. */
  ghost predicate Keeps(db: Tables, db': Tables) {
    && db'.lower == db.lower
    && (forall id :: id in db.credentials ==>
          && id in db'.credentials
          && db'.credentials[id].owner == db.credentials[id].owner
          && db'.credentials[id].provider == db.credentials[id].provider
          && db.lower(db'.credentials[id].name) == db.lower(db.credentials[id].name)
          && (db.credentials[id].revoked ==> db'.credentials[id] == db.credentials[id]))
    && (forall id :: id in db.profiles ==>
          && id in db'.profiles
          && db'.profiles[id] == db.profiles[id].(enabled := db'.profiles[id].enabled)
          && (db'.profiles[id].enabled ==> db.profiles[id].enabled))
  }

  // ---- Every step keeps it ----

  /** The store normalises what the service has already normalised: nothing changes the second time,
      so the label stored is the label sealed under. */
  lemma AddInputIsNormal(key: string, req: AddRequest, nonce: nat, sealerUp: bool)
    requires ValidKey(key)
    requires AddInput(key, req, nonce, sealerUp).Success?
    ensures var input := AddInput(key, req, nonce, sealerUp).value;
            && NormalCredentialInput(input)
            && Open(key, input.secret, AAD(input.owner, input.provider, input.name)) == Success(TrimSpace(req.secret))
            && TrimSpace(req.secret) != ""
  {
  }

  /** What a successful add or rotate does: one live row written, sealed for the request, and no other row
      holding its label. */
  ghost predicate Written(key: string, s: State, s': State, id: string, secret: string) {
    && id in s'.db.credentials
    && s'.db == s.db.(credentials := s.db.credentials[id := s'.db.credentials[id]])
    && s'.writes == s.writes + [Write(id, secret)]
    && secret != "" && NamedRow(id, s'.db.credentials[id])
    && LiveRow(key, s'.db.credentials[id], secret)
    && (forall other :: HeldBy(s.db, other, s'.db.credentials[id].owner, s'.db.credentials[id].name) ==> other == id)
    && (id in s.db.credentials ==>
          && !s.db.credentials[id].revoked
          && s.db.credentials[id].owner == s'.db.credentials[id].owner
          && s.db.credentials[id].provider == s'.db.credentials[id].provider
          && s.db.lower(s.db.credentials[id].name) == s.db.lower(s'.db.credentials[id].name))
  }

  lemma AddWrites(key: string, s: State, e: Event, s': State)
    requires ValidKey(key) && Inv(key, s) && e.Add? && e.added.Success? && Step(key, s, e, s')
    ensures Written(key, s, s', e.added.value, TrimSpace(e.req.secret))
  {
    AddInputIsNormal(key, e.req, e.nonce, e.sealerUp);
    var input := AddInput(key, e.req, e.nonce, e.sealerUp).value;
    UpsertWrites(key, s, s', e.newID, input, e.faults, e.added, TrimSpace(e.req.secret));
  }

  lemma UpsertWrites(key: string, s: State, s': State, newID: string, input: CredentialInput, f: Faults,
                     r: Result<string, Error>, secret: string)
    requires Inv(key, s) && r.Success? && UpsertStep(s.db, s'.db, newID, input, f, r)
    requires NormalCredentialInput(input)
    requires Open(key, input.secret, AAD(input.owner, input.provider, input.name)) == Success(secret) && secret != ""
    requires s'.writes == s.writes + [Write(r.value, secret)]
    ensures Written(key, s, s', r.value, secret)
  {
    var id := r.value;
    if held :| HeldBy(s.db, held, input.owner, input.name) {
      forall other | HeldBy(s.db, other, input.owner, input.name)
        ensures other == id
      {
        assert HeldBy(s.db, other, s.db.credentials[id].owner, s.db.credentials[id].name);
      }
    }
  }

  lemma WrittenSeals(key: string, s: State, s': State, id: string, secret: string)
    requires AllSealed(key, s) && Written(key, s, s', id, secret)
    ensures AllSealed(key, s')
  {
    assert s'.writes[..|s.writes|] == s.writes;
  }

  lemma WrittenHolders(key: string, s: State, s': State, id: string, secret: string)
    requires OneHolder(s.db) && Written(key, s, s', id, secret)
    ensures OneHolder(s'.db)
  {
    forall a, b | a in s'.db.credentials && b in s'.db.credentials && !s'.db.credentials[b].revoked
                  && HeldBy(s'.db, a, s'.db.credentials[b].owner, s'.db.credentials[b].name)
      ensures a == b
    {
      if a == id && b != id {
        assert HeldBy(s.db, b, s'.db.credentials[id].owner, s'.db.credentials[id].name);
      } else if a != id {
        assert HeldBy(s.db, a, s'.db.credentials[b].owner, s'.db.credentials[b].name);
      }
    }
  }

  lemma WrittenKeeps(key: string, s: State, s': State, id: string, secret: string)
    requires Inv(key, s) && Written(key, s, s', id, secret)
    ensures Inv(key, s')
  {
    WrittenSeals(key, s, s', id, secret);
    WrittenHolders(key, s, s', id, secret);
    forall p | p in s'.db.profiles
      ensures Anchored(s'.db.credentials, s'.db.profiles[p])
    {
      assert Anchored(s.db.credentials, s.db.profiles[p]);
    }
  }

  /** A change of rows that keeps owners and labels and revives nothing keeps the label index unique. */
  lemma NoNewHolders(db: Tables, db': Tables)
    requires OneHolder(db) && db'.lower == db.lower
    requires forall id :: id in db'.credentials ==>
      && id in db.credentials
      && db'.credentials[id].owner == db.credentials[id].owner && db'.credentials[id].name == db.credentials[id].name
      && (db.credentials[id].revoked ==> db'.credentials[id].revoked)
    ensures OneHolder(db')
  {
    forall a, b | a in db'.credentials && b in db'.credentials && !db'.credentials[b].revoked
                  && HeldBy(db', a, db'.credentials[b].owner, db'.credentials[b].name)
      ensures a == b
    {
      assert HeldBy(db, a, db.credentials[b].owner, db.credentials[b].name);
    }
  }

  /** The second statement of a revocation disables exactly what the first one would leave dangling. */
  lemma RevocationAnchors(db: Tables, owner: Scope, name: string)
    requires AllAnchored(db)
    ensures AllAnchored(Revocation(db, owner, name))
  {
    var db' := Revocation(db, owner, name);
    forall id | id in db'.profiles
      ensures Anchored(db'.credentials, db'.profiles[id])
    {
      assert Anchored(db.credentials, db.profiles[id]);
    }
  }

  lemma RevocationKeeps(key: string, s: State, s': State, owner: Scope, name: string)
    requires Inv(key, s) && s'.db == Revocation(s.db, owner, name) && s'.writes == s.writes
    ensures Inv(key, s')
  {
    hide SealedRow, Anchored;
    RevocationAnchors(s.db, owner, name);
    RevocationSeals(key, s, s', owner, name);
    NoNewHolders(s.db, s'.db);
    forall a, b | a in s'.db.profiles && b in s'.db.profiles && s'.db.profiles[a].enabled
                  && Chosen(s'.db.profiles[b], s'.db.profiles[a].owner, s'.db.profiles[a].purpose)
      ensures a == b
    {
      assert Chosen(s.db.profiles[b], s.db.profiles[a].owner, s.db.profiles[a].purpose);
    }
  }

  lemma RevocationSeals(key: string, s: State, s': State, owner: Scope, name: string)
    requires AllSealed(key, s) && s'.db.credentials == RevokedRows(s.db, owner, name) && s'.writes == s.writes
    ensures AllSealed(key, s')
  {
  }

  lemma UnselectionProfiles(db: Tables, db': Tables, owner: Scope, purpose: Purpose)
    requires AllAnchored(db) && OneChoice(db)
    requires db' == db.(profiles := Unselected(db.profiles, owner, purpose))
    ensures AllAnchored(db') && OneChoice(db')
    ensures forall id :: id in db'.profiles ==> !Chosen(db'.profiles[id], owner, purpose)
  {
    forall id | id in db'.profiles
      ensures Anchored(db'.credentials, db'.profiles[id])
    {
      assert Anchored(db.credentials, db.profiles[id]);
    }
    forall a, b | a in db'.profiles && b in db'.profiles && db'.profiles[a].enabled
                  && Chosen(db'.profiles[b], db'.profiles[a].owner, db'.profiles[a].purpose)
      ensures a == b
    {
      assert Chosen(db.profiles[b], db.profiles[a].owner, db.profiles[a].purpose);
    }
  }

  lemma SelectionProfiles(db: Tables, id: string, input: ProfileInput)
    requires AllAnchored(db) && OneChoice(db) && Selectable(db, input) && id !in db.profiles
    ensures AllAnchored(Selection(db, id, input)) && OneChoice(Selection(db, id, input))
  {
    var off, db' := db.(profiles := Unselected(db.profiles, input.owner, input.purpose)), Selection(db, id, input);
    UnselectionProfiles(db, off, input.owner, input.purpose);
    forall a, b | a in db'.profiles && b in db'.profiles && db'.profiles[a].enabled
                  && Chosen(db'.profiles[b], db'.profiles[a].owner, db'.profiles[a].purpose)
      ensures a == b
    {
      if a != id && b != id {
        assert Chosen(off.profiles[b], off.profiles[a].owner, off.profiles[a].purpose);
      }
    }
  }

  lemma ProfilesOnly(key: string, s: State, s': State)
    requires AllSealed(key, s) && OneHolder(s.db)
    requires s'.writes == s.writes && s'.db == s.db.(profiles := s'.db.profiles)
    ensures AllSealed(key, s') && OneHolder(s'.db)
  {
    NoNewHolders(s.db, s'.db);
  }

  lemma TestKeeps(key: string, s: State, s': State, id: string, status: TestStatus, error: string)
    requires Inv(key, s) && id in s.db.credentials && !s.db.credentials[id].revoked && s'.writes == s.writes
    requires var c := s.db.credentials[id].(lastTest := status, lastError := error);
             s'.db == s.db.(credentials := s.db.credentials[id := c])
    ensures Inv(key, s')
  {
    hide SealedRow;
    NoNewHolders(s.db, s'.db);
    TestSeals(key, s, s', id, status, error);
    forall p | p in s'.db.profiles
      ensures Anchored(s'.db.credentials, s'.db.profiles[p])
    {
      assert Anchored(s.db.credentials, s.db.profiles[p]);
    }
  }

  lemma TestSeals(key: string, s: State, s': State, id: string, status: TestStatus, error: string)
    requires AllSealed(key, s) && id in s.db.credentials && !s.db.credentials[id].revoked && s'.writes == s.writes
    requires s'.db.credentials == s.db.credentials[id := s.db.credentials[id].(lastTest := status, lastError := error)]
    ensures AllSealed(key, s')
  {
  }

  /** A transaction that fails leaves both tables exactly as they were; and so does every one that returns an error,
      unless it is the answer to its commit that was lost. */
  lemma FailureChangesNothing(key: string, s: State, e: Event, s': State)
    requires Step(key, s, e, s')
    ensures Failed(e) ==> s' == s
    ensures Reported(e) && e.faults.commit != Unheard ==> s' == s
  {
    if Failed(e) { assert s'.writes == s.writes; }
  }

  /** Every transaction, whatever faults strike it, keeps the invariant. */
  lemma StepKeepsInv(key: string, s: State, e: Event, s': State)
    requires ValidKey(key) && Inv(key, s) && Step(key, s, e, s')
    ensures Inv(key, s')
  {
    if Failed(e) {
      FailureChangesNothing(key, s, e, s');
    } else {
      match e
      case Add(req, _, _, _, _, added) =>
        AddWrites(key, s, e, s');
        WrittenKeeps(key, s, s', added.value, TrimSpace(req.secret));
      case Revoke(owner, name, _, _, _) =>
        assert s'.writes == s.writes;
        RevocationKeeps(key, s, s', NormalizeScope(owner).value, TrimSpace(name));
      case Select(req, newID, _, _) =>
        SelectKeeps(key, s, e, s');
      case RecordTest(id, status, error, _, _) =>
        assert s'.writes == s.writes && (s'.db == s.db ==> s' == s);
        if s'.db != s.db { TestKeeps(key, s, s', TrimSpace(id), status, error); }
    }
  }

  lemma SelectKeeps(key: string, s: State, e: Event, s': State)
    requires Inv(key, s) && e.Select? && e.done.Success? && Step(key, s, e, s')
    ensures Inv(key, s')
  {
    assert s'.writes == s.writes;
    ProfilesOnly(key, s, s');
    var input := SelectInput(e.choice).value;
    if Selectable(s.db, input) {
      SelectionProfiles(s.db, TrimSpace(e.newID), input);
    } else {
      UnselectionProfiles(s.db, s'.db, input.owner, input.purpose);
    }
  }

  lemma WrittenKeepsRows(key: string, s: State, s': State, id: string, secret: string)
    requires Written(key, s, s', id, secret)
    ensures Keeps(s.db, s'.db)
  {
  }

  lemma RevocationKeepsRows(db: Tables, owner: Scope, name: string)
    ensures Keeps(db, Revocation(db, owner, name))
  {
  }

  lemma TestKeepsRows(db: Tables, db': Tables, id: string, status: TestStatus, error: string, f: Faults,
                      r: Result<(), Error>)
    requires TestStep(db, db', id, status, error, f, r)
    ensures Keeps(db, db')
  {
  }

  lemma SelectKeepsRows(db: Tables, db': Tables, newID: string, input: ProfileInput, f: Faults, r: Result<(), Error>)
    requires SelectStep(db, db', newID, input, f, r)
    ensures Keeps(db, db')
  {
  }

  /** Every transaction keeps rows, owners, providers, revocations and disabled profiles. */
  lemma StepKeepsRows(key: string, s: State, e: Event, s': State)
    requires ValidKey(key) && Inv(key, s) && Step(key, s, e, s')
    ensures Keeps(s.db, s'.db)
  {
    if Failed(e) {
      FailureChangesNothing(key, s, e, s');
    } else {
      match e
      case Add(req, _, _, _, _, added) =>
        AddWrites(key, s, e, s');
        WrittenKeepsRows(key, s, s', added.value, TrimSpace(req.secret));
      case Revoke(owner, name, _, _, _) => RevocationKeepsRows(s.db, NormalizeScope(owner).value, TrimSpace(name));
      case Select(req, newID, f, r) => SelectKeepsRows(s.db, s'.db, newID, SelectInput(req).value, f, r);
      case RecordTest(id, status, error, f, r) => TestKeepsRows(s.db, s'.db, id, status, error, f, r);
    }
  }

  // ---- Over every run ----

  lemma EmptyInv(key: string, s: State)
    requires s.db.credentials == map[] && s.db.profiles == map[]
    ensures Inv(key, s)
  {
  }

  lemma {:induction false} RunInv(key: string, states: seq<State>, events: seq<Event>, k: nat)
    requires ValidKey(key) && Run(key, states, events) && k < |states|
    ensures Inv(key, states[k])
    decreases k
  {
    if k == 0 {
      EmptyInv(key, states[0]);
    } else {
      RunInv(key, states, events, k - 1);
      StepKeepsInv(key, states[k - 1], events[k - 1], states[k]);
    }
  }

  lemma {:induction false} RunKeeps(key: string, states: seq<State>, events: seq<Event>, i: nat, j: nat)
    requires ValidKey(key) && Run(key, states, events) && i <= j < |states|
    ensures Keeps(states[i].db, states[j].db)
    decreases j
  {
    if i < j {
      RunKeeps(key, states, events, i, j - 1);
      RunInv(key, states, events, j - 1);
      StepKeepsRows(key, states[j - 1], events[j - 1], states[j]);
    }
  }

  /** At most one enabled profile per owner and purpose, and one live credential per owner and lowercased label. */
  lemma AtMostOne(key: string, states: seq<State>, events: seq<Event>, k: nat, owner: Scope, purpose: Purpose,
                  name: string)
    requires ValidKey(key) && Run(key, states, events) && k < |states|
    ensures forall a, b | a in states[k].db.profiles && b in states[k].db.profiles
        && Chosen(states[k].db.profiles[a], owner, purpose)
      :: Chosen(states[k].db.profiles[b], owner, purpose) ==> a == b
    ensures forall a, b :: HeldBy(states[k].db, a, owner, name) && HeldBy(states[k].db, b, owner, name) ==> a == b
  {
    RunInv(key, states, events, k);
    var db := states[k].db;
    forall a, b | HeldBy(db, a, owner, name) && HeldBy(db, b, owner, name)
      ensures a == b
    {
      assert HeldBy(db, a, db.credentials[b].owner, db.credentials[b].name);
    }
  }

  /** Resolution, with any transactions between its two reads: where a profile was enabled at the first read, it
      succeeds exactly when neither read fails and its credential is still live at the second; and then it returns
      the last secret written to that credential, with the owner, provider and model of the profile. */
  lemma ResolveReturnsLatestSecret(key: string, states: seq<State>, events: seq<Event>, i: nat, j: nat,
                                   req: ResolveRequest, profileID: string, f: ReadFaults, r: Result<ResolvedModel, Error>)
    requires ValidKey(key) && Run(key, states, events) && i <= j < |states|
    requires ResolveReads(key, states[i].db, states[j].db, req, f, r)
    requires ResolveInput(req).Success? && profileID in states[i].db.profiles
    requires Chosen(states[i].db.profiles[profileID], ResolveInput(req).value.0, req.purpose)
    ensures var p := states[i].db.profiles[profileID];
            && p.credentialID in states[j].db.credentials
            && (r.Success? <==> !f.profile && !f.credential && !states[j].db.credentials[p.credentialID].revoked)
            && (r.Success? ==>
                  && r.value.apiKey == LastSecret(states[j].writes, p.credentialID)
                  && r.value.credentialID == p.credentialID && r.value.owner == p.owner && r.value.purpose == p.purpose
                  && r.value.provider == p.provider && r.value.modelID == p.modelID && r.value.params == p.params
                  && r.value.credentialName == states[j].db.credentials[p.credentialID].name)
  {
    RunInv(key, states, events, i);
    RunInv(key, states, events, j);
    RunKeeps(key, states, events, i, j);
    ResolveFrom(key, states[i], states[j], profileID, f, r);
    if !f.profile { OpensLatest(key, states[j], states[i].db.profiles[profileID], f.credential, r); }
  }

  /** Undisturbed, resolution of an enabled profile fails only with one of its reads, and returns the last secret. */
  lemma EnabledProfileResolves(key: string, states: seq<State>, events: seq<Event>, k: nat, req: ResolveRequest,
                               profileID: string, f: ReadFaults, r: Result<ResolvedModel, Error>)
    requires ValidKey(key) && Run(key, states, events) && k < |states|
    requires ResolveReads(key, states[k].db, states[k].db, req, f, r)
    requires ResolveInput(req).Success? && profileID in states[k].db.profiles
    requires Chosen(states[k].db.profiles[profileID], ResolveInput(req).value.0, req.purpose)
    ensures r.Success? <==> !f.profile && !f.credential
    ensures r.Success? ==>
      r.value.apiKey == LastSecret(states[k].writes, states[k].db.profiles[profileID].credentialID)
  {
    ResolveReturnsLatestSecret(key, states, events, k, k, req, profileID, f, r);
    RunInv(key, states, events, k);
    assert Anchored(states[k].db.credentials, states[k].db.profiles[profileID]);
  }

  lemma ResolveFrom(key: string, s: State, t: State, profileID: string, f: ReadFaults, r: Result<ResolvedModel, Error>)
    requires Inv(key, s) && Inv(key, t) && Keeps(s.db, t.db) && profileID in s.db.profiles
    requires var p := s.db.profiles[profileID];
             && p.enabled && !p.purpose.OtherPurpose? && WellScoped(p.owner)
             && ReadsFor(key, s.db, t.db, p.owner, p.purpose, f, r)
    ensures var p := s.db.profiles[profileID];
            && Anchored(t.db.credentials, p.(enabled := false))
            && if f.profile then r.Failure? else OpensFor(key, t.db, p.owner, p.purpose, p, f.credential, r)
  {
    var p := s.db.profiles[profileID];
    assert Anchored(s.db.credentials, p);
    assert !f.profile ==> ActiveRead(s.db, p.owner, p.purpose, false, Success(profileID));
  }

  lemma OpensLatest(key: string, t: State, p: Profile, fault: bool, r: Result<ResolvedModel, Error>)
    requires AllSealed(key, t) && Anchored(t.db.credentials, p.(enabled := false)) && WellScoped(p.owner)
    requires OpensFor(key, t.db, p.owner, p.purpose, p, fault, r)
    ensures var c := t.db.credentials[p.credentialID];
            && (r.Failure? <==> fault || c.revoked)
            && (r.Success? ==>
                  r.value == ResolvedModel(p.owner, p.purpose, p.provider, p.modelID, p.params, p.credentialID, c.name,
                                           LastSecret(t.writes, p.credentialID), BillingOwnerID(p.owner)))
  {
    assert SealedRow(key, p.credentialID, t.db.credentials[p.credentialID], LastSecret(t.writes, p.credentialID));
  }

  /** Without an enabled profile, or for a refused request, resolution fails. */
  lemma NothingToResolve(key: string, dbProfile: Tables, dbCredential: Tables, req: ResolveRequest, f: ReadFaults,
                         r: Result<ResolvedModel, Error>)
    requires ResolveReads(key, dbProfile, dbCredential, req, f, r)
    requires ResolveInput(req).Success? ==>
      forall id :: id in dbProfile.profiles ==> !Chosen(dbProfile.profiles[id], ResolveInput(req).value.0, req.purpose)
    ensures r.Failure?
  {
  }

  /** In every reachable state the row read for a test opens, to the last secret written to it. */
  lemma TestOpensLatestSecret(key: string, states: seq<State>, events: seq<Event>, k: nat, owner: Scope, name: string,
                              fault: bool, r: Result<string, Error>)
    requires ValidKey(key) && Run(key, states, events) && k < |states|
    requires WellScoped(owner) && TestRead(states[k].db, owner, name, fault, r)
    ensures r.Success? ==>
      r.value in states[k].db.credentials
        && OpenRow(key, states[k].db, r.value, owner) == Success(LastSecret(states[k].writes, r.value))
    ensures r.Failure? && !fault ==>
      TrimSpace(name) == "" || forall id :: !HeldBy(states[k].db, id, owner, TrimSpace(name))
  {
    RunInv(key, states, events, k);
    var db := states[k].db;
    if r.Success? {
      assert SealedRow(key, r.value, db.credentials[r.value], LastSecret(states[k].writes, r.value));
    } else {
      forall id | HeldBy(db, id, owner, TrimSpace(name))
        ensures db.credentials[id].status == Active
      {
        assert SealedRow(key, id, db.credentials[id], LastSecret(states[k].writes, id));
      }
    }
  }

  // ---- Revocation is final ----

  /** Right after a revocation no row holds the label, and what held it is wiped. */
  lemma RevokedAtOnce(key: string, s: State, e: Event, s': State, owner: Scope, name: string)
    requires e.Revoke? && e.done.Success? && Step(key, s, e, s')
    requires NormalizeScope(e.owner) == Success(owner) && TrimSpace(e.name) == name
    ensures forall id :: !HeldBy(s'.db, id, owner, name)
    ensures forall id :: HeldBy(s.db, id, owner, name) ==> s'.db.credentials[id] == Wiped(s.db.credentials[id])
  {
  }

  /** For ever after: the credential stays wiped and no enabled profile refers to it. */
  lemma RevocationIsFinal(key: string, states: seq<State>, events: seq<Event>, k: nat, j: nat, owner: Scope, name: string,
                          id: string)
    requires ValidKey(key) && Run(key, states, events) && k < j < |states|
    requires events[k].Revoke? && events[k].done.Success?
    requires NormalizeScope(events[k].owner) == Success(owner) && TrimSpace(events[k].name) == name
    requires HeldBy(states[k].db, id, owner, name)
    ensures id in states[j].db.credentials
    ensures states[j].db.credentials[id].revoked && states[j].db.credentials[id].secret.ciphertext == Erased
    ensures forall p :: p in states[j].db.profiles && states[j].db.profiles[p].enabled ==>
        states[j].db.profiles[p].credentialID != id
  {
    assert Step(key, states[k], events[k], states[k + 1]);
    RevokedAtOnce(key, states[k], events[k], states[k + 1], owner, name);
    RunKeeps(key, states, events, k + 1, j);
    RunInv(key, states, events, j);
    RevokedUnreachable(states[j].db, id);
  }

  lemma RevokedUnreachable(db: Tables, id: string)
    requires AllAnchored(db) && id in db.credentials && db.credentials[id].revoked
    ensures forall p :: p in db.profiles && db.profiles[p].enabled ==> db.profiles[p].credentialID != id
  {
    forall p | p in db.profiles && db.profiles[p].enabled
      ensures db.profiles[p].credentialID != id
    {
      assert Anchored(db.credentials, db.profiles[p]);
    }
  }

  /** Whatever later holds the revoked label is a new credential, which no profile from before can reach. */
  lemma ReAddedLabelIsNew(key: string, states: seq<State>, events: seq<Event>, k: nat, j: nat, owner: Scope, name: string,
                          id: string)
    requires ValidKey(key) && Run(key, states, events) && k < j < |states|
    requires events[k].Revoke? && events[k].done.Success?
    requires NormalizeScope(events[k].owner) == Success(owner) && TrimSpace(events[k].name) == name
    requires HeldBy(states[j].db, id, owner, name)
    ensures id !in states[k + 1].db.credentials
    ensures forall p :: p in states[k + 1].db.profiles ==>
      p in states[j].db.profiles && states[j].db.profiles[p].credentialID != id
  {
    assert Step(key, states[k], events[k], states[k + 1]);
    RevokedAtOnce(key, states[k], events[k], states[k + 1], owner, name);
    RunKeeps(key, states, events, k + 1, j);
    RunInv(key, states, events, k + 1);
    assert !HeldBy(states[k + 1].db, id, owner, name);
    forall p | p in states[k + 1].db.profiles
      ensures p in states[j].db.profiles && states[j].db.profiles[p].credentialID != id
    {
      assert Anchored(states[k + 1].db.credentials, states[k + 1].db.profiles[p]);
    }
  }

  /** A successful selection leaves its owner and purpose with an enabled profile exactly when the credential was
      selectable; it can succeed without only where the database cannot count inserted rows. */
  lemma SuccessfulSelection(s: State, s': State, req: SelectRequest, newID: string, f: Faults)
    requires AllAnchored(s.db) && OneChoice(s.db)
    requires ChooseStep(s.db, s'.db, req, newID, f, Success(()))
    ensures var input := SelectInput(req).value;
            && (!Selectable(s.db, input) ==> f.uncounted)
            && (Selectable(s.db, input) <==> exists id ::
                id in s'.db.profiles && Chosen(s'.db.profiles[id], input.owner, input.purpose))
            && (Selectable(s.db, input) ==> s'.db == Selection(s.db, TrimSpace(newID), input))
  {
    var input := SelectInput(req).value;
    if Selectable(s.db, input) {
      assert Chosen(s'.db.profiles[TrimSpace(newID)], input.owner, input.purpose);
    } else {
      UnselectionProfiles(s.db, s'.db, input.owner, input.purpose);
    }
  }

  // ---- A selection of nothing ----

  const HERE := Scope(Guild, "g", "")
  const ADDS := AddRequest(HERE, OpenAI, "main", "s", "admin")
  const CHOOSES := SelectRequest(HERE, Chat, "c", OpenAI, "m", "{}", "admin")

  /** The input that the request of a selection is normalised to. */
  function Chooses(id: string): ProfileInput {
    ProfileInput(HERE, Chat, id, OpenAI, "m", "{}", "admin")
  }

  lemma PlainTexts()
    ensures TrimSpace("g") == "g" && TrimSpace("c") == "c" && TrimSpace("p") == "p" && TrimSpace("") == ""
    ensures TrimSpace("m") == "m" && TrimSpace("{}") == "{}" && TrimSpace("s") == "s"
    ensures TrimSpace("main") == "main" && TrimSpace("admin") == "admin" && TrimSpace("gone") == "gone"
  {
    assert Trimmed("g") && Trimmed("c") && Trimmed("p") && Trimmed("m") && Trimmed("{}") && Trimmed("s");
    assert Trimmed("main") && Trimmed("admin") && Trimmed("gone");
  }

  lemma ExampleAdd(key: string, lower: string -> string) returns (db: Tables)
    requires ValidKey(key)
    ensures AddStep(key, Tables(lower, map[], map[]), db, ADDS, "c", 0, true, NO_FAULTS, Success("c"))
    ensures Selectable(db, Chooses("c")) && db.credentials.Keys == {"c"} && db.profiles == map[]
  {
    PlainTexts();
    hide TrimSpace;
    var input := AddInput(key, ADDS, 0, true).value;
    db := Tables(lower, map["c" := Fresh(input)], map[]);
    assert forall id :: !HeldBy(Tables(lower, map[], map[]), id, HERE, "main");
  }

  lemma ExampleSelect(db: Tables) returns (db': Tables)
    requires Selectable(db, Chooses("c")) && db.profiles == map[]
    ensures ChooseStep(db, db', CHOOSES, "p", NO_FAULTS, Success(()))
    ensures db'.credentials == db.credentials && "p" in db'.profiles && Chosen(db'.profiles["p"], HERE, Chat)
  {
    PlainTexts();
    hide TrimSpace;
    assert SelectInput(CHOOSES) == Success(Chooses("c"));
    db' := Selection(db, "p", Chooses("c"));
  }

  lemma ExampleSelectNothing(db: Tables) returns (db': Tables)
    requires db.credentials.Keys == {"c"}
    ensures var f := NO_FAULTS.(uncounted := true);
            ChooseStep(db, db', CHOOSES.(credentialID := "gone"), "p", f, Success(()))
    ensures forall id :: id in db'.profiles ==> !Chosen(db'.profiles[id], HERE, Chat)
  {
    PlainTexts();
    hide TrimSpace;
    assert SelectInput(CHOOSES.(credentialID := "gone")) == Success(Chooses("gone"));
    db' := db.(profiles := Unselected(db.profiles, HERE, Chat));
  }

  /** Such a run: a credential is added and chosen, and then one that does not exist is chosen where rows cannot be
      counted. That selection reports success, and leaves an owner who had a working choice with none. */
  lemma SelectionOfNothing(key: string, lower: string -> string) returns (states: seq<State>, events: seq<Event>)
    requires ValidKey(key)
    ensures Run(key, states, events) && |events| == 3 && events[2].Select? && !Reported(events[2])
    ensures exists id :: id in states[2].db.profiles && Chosen(states[2].db.profiles[id], HERE, Chat)
    ensures forall id :: id in states[3].db.profiles ==> !Chosen(states[3].db.profiles[id], HERE, Chat)
  {
    hide AddStep, ChooseStep, Selectable, Chosen;
    var db0 := Tables(lower, map[], map[]);
    var db1 := ExampleAdd(key, lower);
    var db2 := ExampleSelect(db1);
    var db3 := ExampleSelectNothing(db2);
    PlainTexts();
    hide TrimSpace;
    var writes := [Write("c", "s")];
    states := [State(db0, []), State(db1, writes), State(db2, writes), State(db3, writes)];
    var gone, f := CHOOSES.(credentialID := "gone"), NO_FAULTS.(uncounted := true);
    events := [Add(ADDS, "c", 0, true, NO_FAULTS, Success("c")), Select(CHOOSES, "p", NO_FAULTS, Success(())),
               Select(gone, "p", f, Success(()))];
    assert Step(key, states[0], events[0], states[1]);
    assert Step(key, states[1], events[1], states[2]);
    assert Step(key, states[2], events[2], states[3]);
  }
}
