/** Saved logins of one agent, and switching between them without losing the one that is signed in. */
module Accounts {
  import opened Wrappers

  /** JSON as far as it is looked into; a `Token` is a string whose payload decodes to some claims. */
  datatype Json = Text(text: string) | Token(text: string, claims: Json) | Obj(fields: map<string, Json>) | Other(raw: string)

  const EMPTY_OBJECT := Obj(map[])

  datatype File = Missing | Garbage | Parsed(json: Json)

  /** Only objects are read from a file. */
  function ReadObject(file: File): Option<Json> {
    if file.Parsed? && file.json.Obj? then Some(file.json) else None
  }

  function Field(json: Json, key: string): Option<Json> {
    if json.Obj? && key in json.fields then Some(json.fields[key]) else None
  }

  predicate IsString(json: Json) {
    json.Text? || json.Token?
  }

  function StrField(json: Json, key: string): Option<string> {
    match Field(json, key)
    case Some(value) => if IsString(value) && value.text != [] then Some(value.text) else None
    case None => None
  }

  datatype Harness = ClaudeCode | Codex

  datatype Profile = Profile(email: string, displayName: Option<string>, organization: Option<string>)

  datatype Slot = Slot(
    id: nat,
    accountKey: string,
    profile: Profile,
    credentials: Json,
    claudeConfig: Option<Json>,
    savedAt: int,
    createdAt: Option<int>)
  {
    function Created(): int {
      createdAt.GetOr(savedAt)
    }
  }

  datatype SlotFile = Unreadable | Saved(slot: Slot)

  /** `keychain` is None where there is none, and Some(None) where it holds no login; Codex uses `credentials` alone. */
  datatype Home = Home(
    harness: Harness,
    slots: map<nat, SlotFile>,
    config: File,
    credentials: File,
    keychain: Option<Option<Json>>,
    firstSaves: seq<nat>)

  /** What the machine lets an operation do; `reread` is the second question to the keychain. */
  datatype Env = Env(
    now: int,
    slotWritten: bool,
    answered: bool,
    rereadAnswered: bool,
    credentialsWritten: bool,
    configWritten: bool,
    restored: bool,
    fileRemoved: bool)

  datatype Error =
    | UnknownAccount
    | SlotNotSaved
    | KeychainSilent
    | CannotBackUp
    | UnknownLogin
    | SlotGone
    | ConfigUnreadable
    | CredentialsNotWritten
    | ConfigNotWritten
    | SignedIn
    | NotRemoved

  // ---------------------------------------------------------------- slot ids

  /** Stands in for the hash of an account key: a number no other key has. */
  function SlotIdFor(key: string): nat {
    if key == [] then 0 else SlotIdFor(key[..|key| - 1]) * 0x20_0000 + key[|key| - 1] as int + 1
  }

  // ---------------------------------------------------------------- who is signed in

  datatype Identity = Identity(key: string, profile: Profile)

  function OauthIdentity(oauth: Json): Option<Identity> {
    var email := StrField(oauth, "emailAddress");
    if email.None? then None
    else
      Some(Identity(
        StrField(oauth, "accountUuid").GetOr(email.value),
        Profile(email.value, StrField(oauth, "displayName"), StrField(oauth, "organizationName"))))
  }

  function ConfigIdentity(config: File): Option<Identity> {
    var json := ReadObject(config);
    if json.None? then None
    else
      var oauth := Field(json.value, "oauthAccount");
      if oauth.None? then None else OauthIdentity(oauth.value)
  }

  /** The part of the configuration that is saved with a login. */
  function SavedConfig(config: Json): Json {
    var oauth := Field(config, "oauthAccount").GetOr(EMPTY_OBJECT);
    var userId := Field(config, "userID");
    if userId.Some? && IsString(userId.value) then Obj(map["oauthAccount" := oauth, "userID" := userId.value])
    else Obj(map["oauthAccount" := oauth])
  }

  /** Members of one workspace are told apart by their user ids. */
  function WorkspaceKey(email: string, openai: Json): string {
    var workspace := StrField(openai, "chatgpt_account_id");
    var user :=
      if StrField(openai, "chatgpt_user_id").Some? then StrField(openai, "chatgpt_user_id")
      else StrField(openai, "user_id");
    if workspace.None? then email
    else if user.Some? then user.value + "::" + workspace.value
    else workspace.value
  }

  function IdToken(auth: Json): Option<Json> {
    var tokens := Field(auth, "tokens");
    if tokens.None? then None
    else
      var token := Field(tokens.value, "id_token");
      if token.Some? && IsString(token.value) then token else None
  }

  function ClaimsOf(token: Json): Json {
    if token.Token? then token.claims else EMPTY_OBJECT
  }

  function LastFour(key: string): string {
    if |key| <= 4 then key else key[|key| - 4..]
  }

  /** `parse_codex_auth`; the key itself stands in for its hash. */
  function CodexIdentity(auth: Json): Option<Identity> {
    var token := IdToken(auth);
    if token.Some? then
      var claims := ClaimsOf(token.value);
      var email := StrField(claims, "email");
      if email.None? then None
      else
        var openai := Field(claims, "https://api.openai.com/auth").GetOr(Other("null"));
        Some(Identity(WorkspaceKey(email.value, openai), Profile(email.value, StrField(claims, "name"), None)))
    else
      var apiKey := StrField(auth, "OPENAI_API_KEY");
      if apiKey.None? then None
      else Some(Identity("api-key:" + apiKey.value, Profile("API key \U{B7}\U{2026}" + LastFour(apiKey.value), None, None)))
  }

  datatype Detected = Detected(
    identity: Identity,
    credentials: Result<Option<Json>, Error>,
    claudeConfig: Option<Json>)

  /** A login in the keychain counts; the file counts only where the keychain has none. */
  function ReadCredentials(h: Home, answered: bool): Result<Option<Json>, Error> {
    if h.keychain.Some? && !answered then Err(KeychainSilent)
    else if h.keychain.Some? && h.keychain.value.Some? then Ok(h.keychain.value)
    else Ok(ReadObject(h.credentials))
  }

  function WriteCredentials(h: Home, credentials: Json): Home {
    if h.keychain.Some? && (h.keychain.value.Some? || h.credentials.Missing?) then h.(keychain := Some(Some(credentials)))
    else h.(credentials := Parsed(credentials))
  }

  predicate LoginPresent(h: Home) {
    || (h.keychain.Some? && h.keychain.value.Some?)
    || !h.credentials.Missing?
  }

  function Detect(h: Home, answered: bool): Option<Detected> {
    match h.harness
    case ClaudeCode =>
      var identity := ConfigIdentity(h.config);
      if identity.None? then None
      else Some(Detected(identity.value, ReadCredentials(h, answered), Some(SavedConfig(h.config.json))))
    case Codex =>
      var auth := ReadObject(h.credentials);
      if auth.None? || CodexIdentity(auth.value).None? then None
      else Some(Detected(CodexIdentity(auth.value).value, Ok(auth), None))
  }

  /** The account that is signed in. */
  function LiveKey(h: Home): Option<string> {
    match h.harness
    case ClaudeCode => if ConfigIdentity(h.config).Some? then Some(ConfigIdentity(h.config).value.key) else None
    case Codex =>
      var auth := ReadObject(h.credentials);
      if auth.Some? && CodexIdentity(auth.value).Some? then Some(CodexIdentity(auth.value).value.key) else None
  }

  // ---------------------------------------------------------------- slots

  predicate IsSaved(slots: map<nat, SlotFile>, id: nat) {
    id in slots && slots[id].Saved?
  }

  /** The creation time that puts a new slot behind every saved one. */
  ghost function NextCreated(slots: map<nat, SlotFile>, ids: set<nat>, now: int): (r: int)
    requires ids <= slots.Keys
    ensures r >= now
    ensures forall id | id in ids && IsSaved(slots, id) :: r > slots[id].slot.Created()
    ensures r == now || exists id | id in ids && IsSaved(slots, id) :: r == slots[id].slot.Created() + 1
  {
    if ids == {} then now
    else
      var id :| id in ids;
      var rest := NextCreated(slots, ids - {id}, now);
      if IsSaved(slots, id) && slots[id].slot.Created() >= rest then slots[id].slot.Created() + 1 else rest
  }

  ghost function CreatedFor(slots: map<nat, SlotFile>, slot: Slot): int {
    if IsSaved(slots, slot.id) then slots[slot.id].slot.Created()
    else slot.createdAt.GetOr(NextCreated(slots, slots.Keys, slot.savedAt))
  }

  /** A login keeps the place it was first saved at. */
  ghost function WriteSlot(h: Home, slot: Slot): Home {
    h.(slots := h.slots[slot.id := Saved(slot.(createdAt := Some(CreatedFor(h.slots, slot))))],
       firstSaves := if IsSaved(h.slots, slot.id) then h.firstSaves else h.firstSaves + [slot.id])
  }

  function SlotOf(live: Detected, credentials: Json, now: int): Slot {
    Slot(SlotIdFor(live.identity.key), live.identity.key, live.identity.profile, credentials, live.claudeConfig, now, None)
  }

  predicate IsReadable(live: Detected) {
    live.credentials.Ok? && live.credentials.value.Some?
  }

  datatype Outcome<T> = Outcome(home: Home, result: Result<T, Error>)

  /** The signed-in login is saved to its own slot before anything else happens. */
  ghost function RefreshLive(h: Home, env: Env): Outcome<Option<Detected>> {
    var live := Detect(h, env.answered);
    if live.None? || !IsReadable(live.value) then Outcome(h, Ok(live))
    else if !env.slotWritten then Outcome(h, Err(SlotNotSaved))
    else Outcome(WriteSlot(h, SlotOf(live.value, live.value.credentials.value.value, env.now)), Ok(live))
  }

  // ---------------------------------------------------------------- switching

  /** Tokens of the machine stored beside a Claude login. */
  const SHARED_KEYS := ["mcpOAuth", "mcpOAuthClientConfig", "mcpXaaIdp", "mcpXaaIdpConfig", "pluginSecrets"]

  predicate IsOAuthLogin(json: Json) {
    json.Obj? && "claudeAiOauth" in json.fields
  }

  /** The saved login, with the live copies of the shared tokens. */
  function Compose(target: Json, live: Option<Json>): Json {
    if live.None? || !live.value.Obj? || !IsOAuthLogin(target) then target
    else
      Obj(map key | key in target.fields.Keys + live.value.fields.Keys
                    && (if key in SHARED_KEYS then key in live.value.fields else key in target.fields) ::
            if key in SHARED_KEYS then live.value.fields[key] else target.fields[key])
  }

  function TextOrNull(text: Option<string>): Json {
    if text.Some? then Text(text.value) else Other("null")
  }

  /** The identity written for a slot; slots without a saved one get it from their profile. */
  function OauthOf(slot: Slot): Json {
    var saved := if slot.claudeConfig.Some? then Field(slot.claudeConfig.value, "oauthAccount") else None;
    saved.GetOr(Obj(map[
      "accountUuid" := Text(slot.accountKey),
      "emailAddress" := Text(slot.profile.email),
      "organizationName" := TextOrNull(slot.profile.organization),
      "displayName" := TextOrNull(slot.profile.displayName)]))
  }

  function MergedConfig(config: map<string, Json>, slot: Slot): map<string, Json> {
    var userId := if slot.claudeConfig.Some? then Field(slot.claudeConfig.value, "userID") else None;
    var named := config["oauthAccount" := OauthOf(slot)];
    if userId.Some? && IsString(userId.value) then named["userID" := userId.value] else named - {"userID"}
  }

  function ActivateClaude(h: Home, slot: Slot, env: Env): Outcome<()> {
    var live := ReadCredentials(h, env.rereadAnswered);
    if !h.config.Missing? && ReadObject(h.config).None? then Outcome(h, Err(ConfigUnreadable))
    else if live.Err? then Outcome(h, Err(live.error))
    else if !env.credentialsWritten then Outcome(h, Err(CredentialsNotWritten))
    else
      var written := WriteCredentials(h, Compose(slot.credentials, live.value));
      if env.configWritten then
        var config := ReadObject(h.config).GetOr(EMPTY_OBJECT);
        Outcome(written.(config := Parsed(Obj(MergedConfig(FieldsOf(config), slot)))), Ok(()))
      else
        Outcome(if live.value.Some? && env.restored then WriteCredentials(written, live.value.value) else written,
                Err(ConfigNotWritten))
  }

  function FieldsOf(json: Json): map<string, Json> {
    if json.Obj? then json.fields else map[]
  }

  function ActivateCodex(h: Home, slot: Slot, env: Env): Outcome<()> {
    if env.credentialsWritten then Outcome(h.(credentials := Parsed(slot.credentials)), Ok(()))
    else Outcome(h, Err(CredentialsNotWritten))
  }

  /** Why a switch would lose the current login. */
  function Refusal(h: Home, live: Option<Detected>): Option<Error> {
    if live.Some? && live.value.credentials.Err? then Some(CannotBackUp)
    else if live.None? && LoginIsThere(h) then Some(UnknownLogin)
    else None
  }

  predicate LoginIsThere(h: Home) {
    match h.harness
    case ClaudeCode => LoginPresent(h)
    case Codex => !h.credentials.Missing?
  }

  /** An id that is not sixteen hexadecimal digits is None. */
  ghost function Activate(h: Home, id: Option<nat>, env: Env): Outcome<()> {
    var refreshed := RefreshLive(h, env);
    if id.None? then Outcome(h, Err(UnknownAccount))
    else if refreshed.result.Err? then Outcome(refreshed.home, Err(refreshed.result.error))
    else if Refusal(refreshed.home, refreshed.result.value).Some? then
      Outcome(refreshed.home, Err(Refusal(refreshed.home, refreshed.result.value).value))
    else if !IsSaved(refreshed.home.slots, id.value) then Outcome(refreshed.home, Err(SlotGone))
    else if h.harness.ClaudeCode? then ActivateClaude(refreshed.home, refreshed.home.slots[id.value].slot, env)
    else ActivateCodex(refreshed.home, refreshed.home.slots[id.value].slot, env)
  }

  function Without(ids: seq<nat>, id: nat): seq<nat> {
    if ids == [] then []
    else Without(ids[..|ids| - 1], id) + if ids[|ids| - 1] == id then [] else [ids[|ids| - 1]]
  }

  ghost function Remove(h: Home, id: Option<nat>, env: Env): Outcome<()> {
    var refreshed := RefreshLive(h, env);
    if id.None? then Outcome(h, Err(UnknownAccount))
    else if refreshed.result.Err? then Outcome(refreshed.home, Err(refreshed.result.error))
    else if refreshed.result.value.Some? && SlotIdFor(refreshed.result.value.value.identity.key) == id.value then
      Outcome(refreshed.home, Err(SignedIn))
    else if !env.fileRemoved then Outcome(refreshed.home, Err(NotRemoved))
    else
      Outcome(refreshed.home.(slots := refreshed.home.slots - {id.value},
                              firstSaves := Without(refreshed.home.firstSaves, id.value)), Ok(()))
  }

  // ---------------------------------------------------------------- listing

  datatype Account = Account(id: nat, email: string, active: bool)

  predicate Precedes(a: Slot, b: Slot) {
    a.Created() < b.Created() || (a.Created() == b.Created() && a.id < b.id)
  }

  /** The readable slots, each once, oldest first. */
  ghost predicate IsListing(slots: map<nat, SlotFile>, listed: seq<Slot>) {
    && (forall i | 0 <= i < |listed| :: IsSaved(slots, listed[i].id) && slots[listed[i].id].slot == listed[i])
    && (forall id | IsSaved(slots, id) :: exists i | 0 <= i < |listed| :: listed[i].id == id)
    && (forall i, j | 0 <= i < j < |listed| :: Precedes(listed[i], listed[j]))
  }

  /** A listing on its way: the slots named by `ids` are still to come, and none of them precedes a listed one. */
  ghost predicate ListsAllBut(slots: map<nat, SlotFile>, ids: set<nat>, listed: seq<Slot>) {
    && (forall id | id in ids :: IsSaved(slots, id))
    && (forall i | 0 <= i < |listed| :: IsSaved(slots, listed[i].id) && slots[listed[i].id].slot == listed[i])
    && (forall id | IsSaved(slots, id) :: id in ids || exists i | 0 <= i < |listed| :: listed[i].id == id)
    && (forall i, j | 0 <= i < j < |listed| :: Precedes(listed[i], listed[j]))
    && (forall i, id | 0 <= i < |listed| && id in ids :: Precedes(listed[i], slots[id].slot))
  }

  lemma ListingGoesOn(slots: map<nat, SlotFile>, ids: set<nat>, listed: seq<Slot>, first: nat)
    requires NamesMatch(slots) && ListsAllBut(slots, ids, listed) && first in ids
    requires forall id | id in ids :: id == first || Precedes(slots[first].slot, slots[id].slot)
    ensures ListsAllBut(slots, ids - {first}, listed + [slots[first].slot])
  {
    hide Precedes;
    var longer := listed + [slots[first].slot];
    assert longer[|listed|].id == first;
    forall id | IsSaved(slots, id) ensures id in ids - {first} || exists i | 0 <= i < |longer| :: longer[i].id == id {
      if id !in ids {
        var i :| 0 <= i < |listed| && listed[i].id == id;
        assert longer[i].id == id;
      }
    }
  }

  function AccountsOf(listed: seq<Slot>, live: Option<Detected>): seq<Account> {
    var saved := seq(|listed|, i requires 0 <= i < |listed| =>
      Account(listed[i].id, listed[i].profile.email, live.Some? && live.value.identity.key == listed[i].accountKey));
    if live.Some? && forall i | 0 <= i < |listed| :: listed[i].accountKey != live.value.identity.key then
      saved + [Account(SlotIdFor(live.value.identity.key), live.value.identity.profile.email, true)]
    else saved
  }

  // ---------------------------------------------------------------- the operations in place

  /** File names are the ids inside the files. */
  ghost predicate NamesMatch(slots: map<nat, SlotFile>) {
    forall id | IsSaved(slots, id) :: slots[id].slot.id == id
  }

  class Stores {
    const harness: Harness
    var slots: map<nat, SlotFile>
    var config: File
    var credentials: File
    var keychain: Option<Option<Json>>
    ghost var firstSaves: seq<nat>

    ghost function State(): Home
      reads this
    {
      Home(harness, slots, config, credentials, keychain, firstSaves)
    }

    constructor (harness: Harness, config: File, credentials: File, keychain: Option<Option<Json>>)
      ensures State() == Home(harness, map[], config, credentials, keychain, [])
    {
      this.harness, this.config, this.credentials, this.keychain := harness, config, credentials, keychain;
      slots, firstSaves := map[], [];
    }

    method ReadLive(answered: bool) returns (r: Result<Option<Json>, Error>)
      ensures r == ReadCredentials(State(), answered)
    {
      if keychain.Some? {
        if !answered {
          return Err(KeychainSilent);
        }
        if keychain.value.Some? {
          return Ok(keychain.value);
        }
      }
      r := Ok(ReadObject(credentials));
    }

    method WriteLive(login: Json)
      modifies this`keychain, this`credentials
      ensures State() == WriteCredentials(old(State()), login)
    {
      if keychain.Some? && (keychain.value.Some? || credentials.Missing?) {
        keychain := Some(Some(login));
      } else {
        credentials := Parsed(login);
      }
    }

    method DetectLive(answered: bool) returns (live: Option<Detected>)
      ensures live == Detect(State(), answered)
    {
      if harness.ClaudeCode? {
        var identity := ConfigIdentity(config);
        if identity.None? {
          return None;
        }
        var login := ReadLive(answered);
        live := Some(Detected(identity.value, login, Some(SavedConfig(config.json))));
      } else {
        var auth := ReadObject(credentials);
        if auth.None? || CodexIdentity(auth.value).None? {
          return None;
        }
        live := Some(Detected(CodexIdentity(auth.value).value, Ok(auth), None));
      }
    }

    /** The time that puts a new slot behind all others. */
    method LatestCreated(now: int) returns (created: int)
      ensures created == NextCreated(slots, slots.Keys, now)
    {
      created := now;
      var ids := slots.Keys;
      while ids != {}
        invariant ids <= slots.Keys
        invariant created >= now
        invariant forall id | id in slots.Keys - ids && IsSaved(slots, id) :: created > slots[id].slot.Created()
        invariant created == now || exists id | id in slots.Keys && IsSaved(slots, id) :: created == slots[id].slot.Created() + 1
      {
        var id :| id in ids;
        if IsSaved(slots, id) && slots[id].slot.Created() >= created {
          created := slots[id].slot.Created() + 1;
        }
        ids := ids - {id};
      }
    }

    method SaveSlot(slot: Slot)
      modifies this`slots, this`firstSaves
      ensures State() == WriteSlot(old(State()), slot)
    {
      var created: int;
      if IsSaved(slots, slot.id) {
        created := slots[slot.id].slot.Created();
      } else {
        created := LatestCreated(slot.savedAt);
        created := slot.createdAt.GetOr(created);
        firstSaves := firstSaves + [slot.id];
      }
      slots := slots[slot.id := Saved(slot.(createdAt := Some(created)))];
    }

    method Refresh(env: Env) returns (result: Result<Option<Detected>, Error>)
      modifies this`slots, this`firstSaves
      ensures Outcome(State(), result) == RefreshLive(old(State()), env)
    {
      var live := DetectLive(env.answered);
      if live.Some? && IsReadable(live.value) {
        if !env.slotWritten {
          return Err(SlotNotSaved);
        }
        SaveSlot(SlotOf(live.value, live.value.credentials.value.value, env.now));
      }
      result := Ok(live);
    }

    method SwitchClaude(slot: Slot, env: Env) returns (result: Result<(), Error>)
      modifies this`config, this`credentials, this`keychain
      ensures Outcome(State(), result) == ActivateClaude(old(State()), slot, env)
    {
      hide Compose, MergedConfig;
      if !config.Missing? && ReadObject(config).None? {
        return Err(ConfigUnreadable);
      }
      var merged := MergedConfig(FieldsOf(ReadObject(config).GetOr(EMPTY_OBJECT)), slot);
      var live := ReadLive(env.rereadAnswered);
      if live.Err? {
        return Err(live.error);
      }
      if !env.credentialsWritten {
        return Err(CredentialsNotWritten);
      }
      WriteLive(Compose(slot.credentials, live.value));
      if !env.configWritten {
        if live.value.Some? && env.restored {
          WriteLive(live.value.value);
        }
        return Err(ConfigNotWritten);
      }
      config := Parsed(Obj(merged));
      result := Ok(());
    }

    method SwitchTo(id: Option<nat>, env: Env) returns (result: Result<(), Error>)
      modifies this
      ensures Outcome(State(), result) == Activate(old(State()), id, env)
    {
      hide RefreshLive, ActivateClaude;
      if id.None? {
        return Err(UnknownAccount);
      }
      var live := Refresh(env);
      if live.Err? {
        return Err(live.error);
      }
      if Refusal(Home(harness, slots, config, credentials, keychain, []), live.value).Some? {
        return Err(Refusal(Home(harness, slots, config, credentials, keychain, []), live.value).value);
      }
      if !IsSaved(slots, id.value) {
        return Err(SlotGone);
      }
      if harness.ClaudeCode? {
        result := SwitchClaude(slots[id.value].slot, env);
      } else if env.credentialsWritten {
        credentials := Parsed(slots[id.value].slot.credentials);
        result := Ok(());
      } else {
        result := Err(CredentialsNotWritten);
      }
    }

    method RemoveSlot(id: Option<nat>, env: Env) returns (result: Result<(), Error>)
      modifies this`slots, this`firstSaves
      ensures Outcome(State(), result) == Remove(old(State()), id, env)
    {
      hide RefreshLive;
      if id.None? {
        return Err(UnknownAccount);
      }
      var live := Refresh(env);
      if live.Err? {
        return Err(live.error);
      }
      if live.value.Some? && SlotIdFor(live.value.value.identity.key) == id.value {
        return Err(SignedIn);
      }
      if !env.fileRemoved {
        return Err(NotRemoved);
      }
      slots := slots - {id.value};
      firstSaves := Without(firstSaves, id.value);
      result := Ok(());
    }

    /** The readable slots, sorted by creation time and id. */
    method ReadSlots() returns (listed: seq<Slot>)
      requires NamesMatch(slots)
      ensures IsListing(slots, listed)
    {
      listed := [];
      var ids := set id | id in slots && slots[id].Saved?;
      while ids != {}
        invariant ListsAllBut(slots, ids, listed)
      {
        ghost var earliest := EarliestExists(slots, ids);
        var first :| first in ids && forall id | id in ids :: id == first || Precedes(slots[first].slot, slots[id].slot);
        ListingGoesOn(slots, ids, listed, first);
        listed := listed + [slots[first].slot];
        ids := ids - {first};
      }
    }

    method List(env: Env) returns (result: Result<seq<Account>, Error>)
      requires NamesMatch(slots)
      modifies this`slots, this`firstSaves
      ensures State() == RefreshLive(old(State()), env).home
      ensures result.Err? <==> RefreshLive(old(State()), env).result.Err?
      ensures result.Ok? ==>
        exists listed :: IsListing(slots, listed) && result.value == AccountsOf(listed, RefreshLive(old(State()), env).result.value)
    {
      var live := Refresh(env);
      if live.Err? {
        return Err(live.error);
      }
      var listed := ReadSlots();
      result := Ok(AccountsOf(listed, live.value));
    }
  }

  lemma {:induction false} EarliestExists(slots: map<nat, SlotFile>, ids: set<nat>) returns (first: nat)
    requires ids != {} && NamesMatch(slots) && forall id | id in ids :: IsSaved(slots, id)
    ensures first in ids && forall id | id in ids :: id == first || Precedes(slots[first].slot, slots[id].slot)
  {
    var some :| some in ids;
    if ids == {some} {
      return some;
    }
    var rest := EarliestExists(slots, ids - {some});
    if Precedes(slots[some].slot, slots[rest].slot) {
      return some;
    }
    return rest;
  }
}
