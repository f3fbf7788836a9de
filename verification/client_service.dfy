/**
  The machine-client directory: client records holding the SHA-256 of their
  secret, and the `client_scopes` rows listing what each client may request.
  The two tables are maps; a failing database call is a `bool` parameter;
  the fresh client id and secret (`uuidv4`, `randomBytes`) are parameters.
  Timestamps (`created_at`, `updated_at`) are left out.
 */
module ClientService {
  import opened Wrappers

  /** `createHash('sha256').update(text).digest('hex')` */
  type Sha256 = string -> string

  ghost predicate InjectiveHash(hash: Sha256) {
    forall a, b {:trigger hash(a), hash(b)} :: hash(a) == hash(b) ==> a == b
  }

  /** A hex digest is never the empty string. */
  ghost predicate NonEmptyDigests(hash: Sha256) {
    forall a {:trigger hash(a)} :: hash(a) != ""
  }

  /** The columns a client record shares with callers. */
  datatype ClientInfo = ClientInfo(id: string, name: string, description: Option<string>, contactEmail: string,
                                   serviceType: string)

  /** A row of `clients`: the shareable columns and `hashed_secret`. */
  datatype ClientRecord = ClientRecord(info: ClientInfo, hashedSecret: string)

  /** `clients` keyed by id, and the `client_scopes` rows grouped by client id. */
  datatype Directory = Directory(clients: map<string, ClientRecord>, scopes: map<string, seq<string>>)

  /** A client as the service hands it out: never with its hashed secret. */
  datatype ClientView = ClientView(info: ClientInfo, scopes: seq<string>)

  /** The scope rows of a client (none when it has no rows). */
  function ScopesOf(dir: Directory, id: string): seq<string> {
    if id in dir.scopes then dir.scopes[id] else []
  }

  /** `clientData`; `serviceType == ""` stands for absent. */
  datatype NewClient = NewClient(name: string, description: Option<string>, contactEmail: string, serviceType: string,
                                 scopes: Option<seq<string>>)

  /** What `createClient` returns: the stored columns, the id, the plaintext secret (this once) and the scopes asked for. */
  datatype CreatedClient = CreatedClient(info: ClientInfo, clientId: string, clientSecret: string, scopes: seq<string>)

  const InvalidCredentials: string := "Invalid client credentials"

  /** `createClient` */
  function CreateClient(dir: Directory, hash: Sha256, data: NewClient, clientId: string, secret: string,
                        insertFails: bool, scopeInsertFails: bool): (s: Step<CreatedClient, Directory>)
    ensures insertFails || clientId in dir.clients <==> s.result.Err?
    ensures s.result.Err? ==> s.state == dir
    ensures s.result.Ok? ==>
              && clientId in s.state.clients
              && s.state.clients[clientId].hashedSecret == hash(secret)
              && s.state.clients[clientId].info.id == clientId
              && s.state.clients[clientId].info.name == data.name
              && s.state.clients[clientId].info.description == data.description
              && s.state.clients[clientId].info.contactEmail == data.contactEmail
              && s.state.clients[clientId].info.serviceType == (if data.serviceType != "" then data.serviceType else "application")
              && s.result.value.clientId == clientId && s.result.value.clientSecret == secret
              && s.result.value.info == s.state.clients[clientId].info
              && s.result.value.scopes == (if data.scopes.Some? then data.scopes.value else [])
              && (forall id :: id in dir.clients ==> id in s.state.clients && s.state.clients[id] == dir.clients[id])
              && s.state.clients.Keys == dir.clients.Keys + {clientId}
    ensures s.result.Ok? && data.scopes.Some? && |data.scopes.value| > 0 && !scopeInsertFails ==>
              ScopesOf(s.state, clientId) == ScopesOf(dir, clientId) + data.scopes.value
    ensures s.result.Ok? && (data.scopes.None? || |data.scopes.value| == 0 || scopeInsertFails) ==>
              s.state.scopes == dir.scopes
  {
    var info := ClientInfo(clientId, data.name, data.description, data.contactEmail,
                           if data.serviceType != "" then data.serviceType else "application");
    if insertFails || clientId in dir.clients then
      Step(Err("Error creating client: insert failed"), dir)
    else
      var withClient := dir.(clients := dir.clients[clientId := ClientRecord(info, hash(secret))]);
      var stored :=
        if data.scopes.Some? && |data.scopes.value| > 0 && !scopeInsertFails
        then withClient.(scopes := dir.scopes[clientId := ScopesOf(dir, clientId) + data.scopes.value])
        else withClient;
      Step(Ok(CreatedClient(info, clientId, secret, if data.scopes.Some? then data.scopes.value else [])), stored)
  }

  /** `getClientById`: the record without its secret; a failing scope read leaves the list empty. */
  function GetClientById(dir: Directory, id: string, readFails: bool, scopeReadFails: bool): (r: Result<ClientView>)
    ensures r.Ok? <==> !readFails && id in dir.clients
    ensures r.Ok? ==> r.value.info == dir.clients[id].info
    ensures r.Ok? ==> r.value.scopes == (if scopeReadFails then [] else ScopesOf(dir, id))
  {
    if readFails || id !in dir.clients then Err("Error fetching client: not found")
    else Ok(ClientView(dir.clients[id].info, if scopeReadFails then [] else ScopesOf(dir, id)))
  }

  /**
    `validateClientCredentials`: the client must exist and the hash of the
    offered secret must equal the stored one; both failures, and a failed
    read, give the same error.
   */
  function ValidateClientCredentials(dir: Directory, hash: Sha256, id: string, secret: string, readFails: bool,
                                     scopeReadFails: bool): (r: Result<ClientView>)
    ensures r.Ok? <==> !readFails && id in dir.clients && hash(secret) == dir.clients[id].hashedSecret
    ensures r.Err? ==> r.error == InvalidCredentials
    ensures r.Ok? ==> r.value.info == dir.clients[id].info
    ensures r.Ok? ==> r.value.scopes == (if scopeReadFails then [] else ScopesOf(dir, id))
  {
    if readFails || id !in dir.clients then Err(InvalidCredentials)
    else if hash(secret) != dir.clients[id].hashedSecret then Err(InvalidCredentials)
    else Ok(ClientView(dir.clients[id].info, if scopeReadFails then [] else ScopesOf(dir, id)))
  }

  /** A client created with a fresh id validates with the secret it was given, and carries the scopes it asked for. */
  lemma CreateThenValidate(dir: Directory, hash: Sha256, data: NewClient, clientId: string, secret: string)
    requires clientId !in dir.clients && clientId !in dir.scopes
    requires data.scopes.Some?
    ensures var s := CreateClient(dir, hash, data, clientId, secret, false, false);
            var v := ValidateClientCredentials(s.state, hash, clientId, secret, false, false);
            v.Ok? && v.value.scopes == data.scopes.value && v.value.info == s.result.value.info
  {
  }

  /**
    A client created with a fresh id is found by `getClientById` with the
    columns it was created with, and with its scope rows, when storing them worked.
   */
  lemma CreateThenGet(dir: Directory, hash: Sha256, data: NewClient, clientId: string, secret: string)
    requires clientId !in dir.clients
    ensures var s := CreateClient(dir, hash, data, clientId, secret, false, false);
            var r := GetClientById(s.state, clientId, false, false);
            && r.Ok?
            && r.value.info == ClientInfo(clientId, data.name, data.description, data.contactEmail,
                                          if data.serviceType != "" then data.serviceType else "application")
            && r.value.scopes == ScopesOf(dir, clientId) + (if data.scopes.Some? then data.scopes.value else [])
  {
  }

  /** Under an injective hash, only the secret a client was created with validates. */
  lemma CreatedSecretIsTheOnlySecret(dir: Directory, hash: Sha256, data: NewClient, clientId: string, secret: string,
                                     guess: string)
    requires InjectiveHash(hash) && guess != secret && clientId !in dir.clients
    ensures var s := CreateClient(dir, hash, data, clientId, secret, false, false);
            ValidateClientCredentials(s.state, hash, clientId, guess, false, false) == Err(InvalidCredentials)
  {
  }

  /**
    `updateData`: each field is `None` when absent; `scopes` is `Some` exactly
    when it is an array. `id` is a column of `clients` too, so a body carrying
    it re-keys the row.
   */
  datatype ClientUpdate = ClientUpdate(id: Option<string>, name: Option<string>, description: Option<string>,
                                       contactEmail: Option<string>, serviceType: Option<string>,
                                       hashedSecret: Option<string>, scopes: Option<seq<string>>)

  /** The key of the row after the update: the body's `id` when it has one. */
  function UpdatedKey(id: string, upd: ClientUpdate): string {
    if upd.id.Some? then upd.id.value else id
  }

  /** The row write goes through: it is readable, the row exists, and a new key clashes with no other row. */
  predicate RowWritable(dir: Directory, id: string, upd: ClientUpdate, writeFails: bool) {
    && !writeFails
    && id in dir.clients
    && (UpdatedKey(id, upd) == id || UpdatedKey(id, upd) !in dir.clients)
  }

  /** The shareable columns after an update: each supplied field replaces the stored one. */
  function UpdatedInfo(info: ClientInfo, upd: ClientUpdate): ClientInfo {
    ClientInfo(
      UpdatedKey(info.id, upd),
      if upd.name.Some? then upd.name.value else info.name,
      if upd.description.Some? then upd.description else info.description,
      if upd.contactEmail.Some? then upd.contactEmail.value else info.contactEmail,
      if upd.serviceType.Some? then upd.serviceType.value else info.serviceType)
  }

  /**
    The scope rows after an update. An array replaces them: the old rows are
    deleted (a failing delete, whose error the source ignores, keeps them)
    and the new ones inserted (a failing insert, also ignored, adds none).
    Without an array the rows are kept. Both statements use the id the
    update was called with, not a new key from the body.
   */
  function UpdatedScopes(dir: Directory, id: string, upd: ClientUpdate, scopeDeleteFails: bool, scopeInsertFails: bool)
    : (scopes: map<string, seq<string>>)
    ensures upd.scopes.None? ==> scopes == dir.scopes
    ensures upd.scopes.Some? ==>
              scopes == dir.scopes[id := (if scopeDeleteFails then ScopesOf(dir, id) else [])
                                         + (if scopeInsertFails then [] else upd.scopes.value)]
  {
    if upd.scopes.None? then dir.scopes
    else
      var kept := if scopeDeleteFails then ScopesOf(dir, id) else [];
      var inserted := if |upd.scopes.value| > 0 && !scopeInsertFails then upd.scopes.value else [];
      dir.scopes[id := kept + inserted]
  }

  /** The directory after a row write that went through: the row moves to its new key with `hashed`. */
  function WrittenDirectory(dir: Directory, id: string, upd: ClientUpdate, hashed: string, scopeDeleteFails: bool,
                            scopeInsertFails: bool): Directory
    requires id in dir.clients
  {
    var rec' := ClientRecord(UpdatedInfo(dir.clients[id].info, upd), hashed);
    Directory((dir.clients - {id})[UpdatedKey(id, upd) := rec'],
              UpdatedScopes(dir, id, upd, scopeDeleteFails, scopeInsertFails))
  }

  /**
    `updateClient` as the source has it: `hashed_secret` is stripped from the
    update only when it is truthy, so an empty string goes through to the row.
   */
  function UpdateClientAsWritten(dir: Directory, id: string, upd: ClientUpdate, writeFails: bool,
                                 scopeDeleteFails: bool, scopeInsertFails: bool): (s: Step<ClientInfo, Directory>)
    ensures s.result.Ok? <==> RowWritable(dir, id, upd, writeFails)
    ensures s.result.Err? ==> s.state == dir
    ensures s.result.Ok? ==> s.state.clients.Keys == dir.clients.Keys - {id} + {UpdatedKey(id, upd)}
  {
    if !RowWritable(dir, id, upd, writeFails) then Step(Err("Error updating client: not found"), dir)
    else
      var hashed := if upd.hashedSecret == Some("") then "" else dir.clients[id].hashedSecret;
      var dir' := WrittenDirectory(dir, id, upd, hashed, scopeDeleteFails, scopeInsertFails);
      Step(Ok(dir'.clients[UpdatedKey(id, upd)].info), dir')
  }

  /**
    An update carrying `hashed_secret: ""` blanks the stored digest, after
    which no secret validates (a digest is never empty): the client is locked out.
   */
  lemma UpdateAsWrittenLocksClientOut(dir: Directory, hash: Sha256, id: string, upd: ClientUpdate, secret: string)
    requires NonEmptyDigests(hash) && RowWritable(dir, id, upd, false) && upd.hashedSecret == Some("")
    ensures var after := UpdateClientAsWritten(dir, id, upd, false, false, false).state;
            ValidateClientCredentials(after, hash, UpdatedKey(id, upd), secret, false, false) == Err(InvalidCredentials)
  {
    assert hash(secret) != "";
  }

  /** `updateClient` as intended: the stored secret is never touched, whatever the update carries. */
  function UpdateClient(dir: Directory, id: string, upd: ClientUpdate, writeFails: bool, scopeDeleteFails: bool,
                        scopeInsertFails: bool)
    : (s: Step<ClientInfo, Directory>)
    ensures s.result.Ok? <==> RowWritable(dir, id, upd, writeFails)
    ensures s.result.Err? ==> s.state == dir
    ensures s.result.Ok? ==>
              var before := dir.clients[id].info;
              var key := UpdatedKey(id, upd);
              && s.state.clients.Keys == dir.clients.Keys - {id} + {key}
              && (upd.id.None? ==> key == id && s.state.clients.Keys == dir.clients.Keys)
              && s.state.clients[key].hashedSecret == dir.clients[id].hashedSecret
              && s.result.value == s.state.clients[key].info
              && (upd.id.Some? ==> s.result.value.id == upd.id.value)
              && (upd.id.None? ==> s.result.value.id == before.id)
              && (upd.name.Some? ==> s.result.value.name == upd.name.value)
              && (upd.name.None? ==> s.result.value.name == before.name)
              && (upd.description.Some? ==> s.result.value.description == upd.description)
              && (upd.description.None? ==> s.result.value.description == before.description)
              && (upd.contactEmail.Some? ==> s.result.value.contactEmail == upd.contactEmail.value)
              && (upd.contactEmail.None? ==> s.result.value.contactEmail == before.contactEmail)
              && (upd.serviceType.Some? ==> s.result.value.serviceType == upd.serviceType.value)
              && (upd.serviceType.None? ==> s.result.value.serviceType == before.serviceType)
              && (forall other :: other in dir.clients && other != id ==> s.state.clients[other] == dir.clients[other])
              && (forall other :: other != id ==> ScopesOf(s.state, other) == ScopesOf(dir, other))
    ensures s.result.Ok? && upd.scopes.None? ==> s.state.scopes == dir.scopes
    ensures s.result.Ok? && upd.scopes.Some? && !scopeDeleteFails ==>
              ScopesOf(s.state, id) == (if scopeInsertFails then [] else upd.scopes.value)
    ensures s.result.Ok? && upd.scopes.Some? && scopeDeleteFails ==>
              ScopesOf(s.state, id) == ScopesOf(dir, id) + (if scopeInsertFails then [] else upd.scopes.value)
  {
    if !RowWritable(dir, id, upd, writeFails) then Step(Err("Error updating client: not found"), dir)
    else
      var dir' := WrittenDirectory(dir, id, upd, dir.clients[id].hashedSecret, scopeDeleteFails, scopeInsertFails);
      Step(Ok(dir'.clients[UpdatedKey(id, upd)].info), dir')
  }

  /**
    Whatever an update carries, a secret that validated before validates
    after, under the row's key after the update, and one that did not still does not.
   */
  lemma UpdateKeepsCredentials(dir: Directory, hash: Sha256, id: string, upd: ClientUpdate, secret: string,
                               scopeDeleteFails: bool, scopeInsertFails: bool)
    ensures var s := UpdateClient(dir, id, upd, false, scopeDeleteFails, scopeInsertFails);
            var key := if s.result.Ok? then UpdatedKey(id, upd) else id;
            var before := ValidateClientCredentials(dir, hash, id, secret, false, false);
            ValidateClientCredentials(s.state, hash, key, secret, false, false).Ok? <==> before.Ok?
  {
  }

  /**
    A body carrying a new, unused `id` moves the client: the old id no longer
    authenticates, and the scope statements, which use the old id, give the
    new key no rows of its own.
   */
  lemma UpdateWithIdRekeysClient(dir: Directory, hash: Sha256, id: string, upd: ClientUpdate, secret: string)
    requires id in dir.clients && upd.id.Some? && upd.id.value != id && upd.id.value !in dir.clients
    ensures var after := UpdateClient(dir, id, upd, false, false, false).state;
            && ValidateClientCredentials(after, hash, id, secret, false, false) == Err(InvalidCredentials)
            && ScopesOf(after, upd.id.value) == ScopesOf(dir, upd.id.value)
  {
  }

  datatype ResetSecret = ResetSecret(clientId: string, clientSecret: string)

  /** `resetClientSecret`: store the digest of the new secret; an unknown id changes no row but still gets a secret back. */
  function ResetClientSecret(dir: Directory, hash: Sha256, id: string, newSecret: string, writeFails: bool)
    : (s: Step<ResetSecret, Directory>)
    ensures writeFails <==> s.result.Err?
    ensures s.result.Err? ==> s.state == dir
    ensures s.result.Ok? ==> s.result.value == ResetSecret(id, newSecret)
    ensures s.result.Ok? && id in dir.clients ==>
              && s.state.clients == dir.clients[id := dir.clients[id].(hashedSecret := hash(newSecret))]
              && s.state.scopes == dir.scopes
    ensures s.result.Ok? && id !in dir.clients ==> s.state == dir
  {
    if writeFails then Step(Err("Error resetting client secret: update failed"), dir)
    else if id in dir.clients then
      Step(Ok(ResetSecret(id, newSecret)), dir.(clients := dir.clients[id := dir.clients[id].(hashedSecret := hash(newSecret))]))
    else Step(Ok(ResetSecret(id, newSecret)), dir)
  }

  /** After a reset the returned secret validates, and under an injective hash no other secret does. */
  lemma ResetThenValidate(dir: Directory, hash: Sha256, id: string, newSecret: string, other: string)
    requires id in dir.clients
    ensures var s := ResetClientSecret(dir, hash, id, newSecret, false);
            ValidateClientCredentials(s.state, hash, id, s.result.value.clientSecret, false, false).Ok?
    ensures InjectiveHash(hash) && other != newSecret ==>
              var s := ResetClientSecret(dir, hash, id, newSecret, false);
              ValidateClientCredentials(s.state, hash, id, other, false, false) == Err(InvalidCredentials)
  {
  }

  /**
    `deleteClient`: the scope rows go first (that call's error is not
    checked, so a failing delete keeps them), then the record; a failing
    record delete still leaves the scope delete done.
   */
  function DeleteClient(dir: Directory, id: string, scopeDeleteFails: bool, deleteFails: bool): (s: Step<bool, Directory>)
    ensures !scopeDeleteFails ==> id !in s.state.scopes && ScopesOf(s.state, id) == []
    ensures scopeDeleteFails ==> s.state.scopes == dir.scopes
    ensures forall other :: other != id ==> ScopesOf(s.state, other) == ScopesOf(dir, other)
    ensures deleteFails <==> s.result.Err?
    ensures s.result.Err? ==> s.state.clients == dir.clients
    ensures s.result.Ok? ==> s.result.value && s.state.clients == dir.clients - {id}
  {
    var afterScopes := if scopeDeleteFails then dir else dir.(scopes := dir.scopes - {id});
    if deleteFails then Step(Err("Error deleting client: delete failed"), afterScopes)
    else Step(Ok(true), afterScopes.(clients := dir.clients - {id}))
  }

  /** A deleted client no longer authenticates, with any secret. */
  lemma DeleteThenValidateFails(dir: Directory, hash: Sha256, id: string, secret: string, scopeDeleteFails: bool)
    ensures var after := DeleteClient(dir, id, scopeDeleteFails, false).state;
            ValidateClientCredentials(after, hash, id, secret, false, false) == Err(InvalidCredentials)
  {
  }
}
