/** What switches leave of the agent's configuration, and the identities saved, restored and shown. */
module AccountsConfig {
  import opened Wrappers
  import opened Accounts
  import opened AccountsSafety
  import opened AccountsLogins

  /** A setting of Claude's configuration. */
  function Setting(h: Home, name: string): Option<Json> {
    if ReadObject(h.config).Some? then Field(h.config.json, name) else None
  }

  /** The settings that belong to the account signed in. */
  predicate IsPersonal(name: string) {
    name == "oauthAccount" || name == "userID"
  }

  function UserId(h: Home): Option<Json> {
    var id := Setting(h, "userID");
    if id.Some? && IsString(id.value) then id else None
  }

  // ---------------------------------------------------------------- other settings

  /** A successful switch sets the two personal settings and leaves every other one. */
  lemma SwitchSets(h: Home, slot: Slot, env: Env, name: string)
    requires ActivateClaude(h, slot, env).result.Ok?
    ensures var r := ActivateClaude(h, slot, env).home;
            var saved := if slot.claudeConfig.Some? then Field(slot.claudeConfig.value, "userID") else None;
            && (!IsPersonal(name) ==> Setting(r, name) == Setting(h, name))
            && Setting(r, "oauthAccount") == Some(OauthOf(slot))
            && Setting(r, "userID") == if saved.Some? && IsString(saved.value) then saved else None
  {
    hide Compose, OauthOf, ReadCredentials;
  }

  lemma FailedSwitchSetsNothing(h: Home, slot: Slot, env: Env)
    requires ActivateClaude(h, slot, env).result.Err?
    ensures ActivateClaude(h, slot, env).home.config == h.config
  {
    hide Compose, MergedConfig, ReadCredentials;
  }

  lemma DoKeepsSettings(h: Home, op: Op, name: string)
    requires !IsPersonal(name)
    ensures Setting(Do(h, op), name) == Setting(h, name)
  {
    hide RefreshLive, ActivateClaude, Setting, Refusal, Remove, IsPersonal;
    RefreshLeavesTheLogin(h, op.env);
    var refreshed := RefreshLive(h, op.env).home;
    SettingIsOfConfig(h, refreshed, name);
    match op
    case ListOp(env) =>
    case RemoveOp(id, env) =>
      RemoveLeavesTheLogin(h, id, env);
      SettingIsOfConfig(h, Do(h, op), name);
    case ActivateOp(id, env) =>
      if id.Some? && IsSaved(refreshed.slots, id.value) {
        var slot := refreshed.slots[id.value].slot;
        if ActivateClaude(refreshed, slot, env).result.Ok? {
          SwitchSets(refreshed, slot, env, name);
        } else {
          FailedSwitchSetsNothing(refreshed, slot, env);
          SettingIsOfConfig(refreshed, ActivateClaude(refreshed, slot, env).home, name);
        }
        SettingIsOfConfig(refreshed, ActivateCodex(refreshed, slot, env).home, name);
      }
  }

  lemma SettingIsOfConfig(h: Home, r: Home, name: string)
    requires r.config == h.config
    ensures Setting(r, name) == Setting(h, name)
  {
  }

  /** Over every run, whatever is switched, fails or stops halfway: all other settings stay as they were. */
  lemma {:induction false} OtherSettingsStay(h: Home, ops: seq<Op>, name: string)
    requires !IsPersonal(name)
    ensures Setting(DoAll(h, ops), name) == Setting(h, name)
  {
    hide Do, Setting;
    if ops != [] {
      OtherSettingsStay(h, ops[..|ops| - 1], name);
      DoKeepsSettings(DoAll(h, ops[..|ops| - 1]), ops[|ops| - 1], name);
    }
  }

  // ---------------------------------------------------------------- there and back

  lemma SavedIdentity(h: Home, env: Env)
    requires h.harness.ClaudeCode? && LiveKey(h).Some?
    ensures var live := Detect(h, env.answered);
            && live.Some? && live.value.identity.key == LiveKey(h).value && live.value.claudeConfig.Some?
            && var saved := live.value.claudeConfig.value;
               Field(saved, "oauthAccount") == Setting(h, "oauthAccount") && Field(saved, "userID") == UserId(h)
    ensures Setting(h, "oauthAccount").Some?
    ensures StoredLogin(h).Some? && KeychainAnswers(h, env.answered) ==> IsReadable(Detect(h, env.answered).value)
  {
    hide OauthIdentity;
  }

  /** The saved slot holds the personal settings. */
  predicate Keeps(slot: Slot, oauth: Option<Json>, userId: Option<Json>) {
    && slot.claudeConfig.Some?
    && Field(slot.claudeConfig.value, "oauthAccount") == oauth && Field(slot.claudeConfig.value, "userID") == userId
  }

  lemma SwitchedAwaySavesTheIdentity(h: Home, key: string, login: Json, away: Op)
    requires Sound(h) && h.harness.ClaudeCode? && LiveKey(h) == Some(key) && StoredLogin(h) == Some(login)
    requires away.ActivateOp? && away.id.Some? && away.id != Some(SlotIdFor(key))
    requires Activate(h, away.id, away.env).result.Ok?
    ensures var r := Do(h, away);
            && LiveKey(r) != Some(key) && IsSaved(r.slots, SlotIdFor(key))
            && Keeps(r.slots[SlotIdFor(key)].slot, Setting(h, "oauthAccount"), UserId(h))
  {
    SwitchedAwaySavesTheLogin(h, key, login, away);
    SwitchTold(h, away.id.value, away.env);
    ReachesMeansBackedUp(h, away.id.value, away.env);
    SavedIdentity(h, away.env);
    hide LiveKey, StoredLogin, SlotIdFor, Activate, Sound, Detect, Setting, UserId;
    LiveLoginIsSavedFirst(h, away);
  }

  lemma SwitchRestoresTheIdentity(h: Home, key: string, env: Env, oauth: Json, userId: Option<Json>)
    requires Sound(h) && h.harness.ClaudeCode? && LiveKey(h) != Some(key) && IsSaved(h.slots, SlotIdFor(key))
    requires Keeps(h.slots[SlotIdFor(key)].slot, Some(oauth), userId)
    requires userId.Some? ==> IsString(userId.value)
    requires Activate(h, Some(SlotIdFor(key)), env).result.Ok?
    ensures var r := Activate(h, Some(SlotIdFor(key)), env).home;
            Setting(r, "oauthAccount") == Some(oauth) && Setting(r, "userID") == userId
  {
    RefreshWritesOwnSlotOnly(h, env, key);
    RefreshLeavesTheLogin(h, env);
    var refreshed := RefreshLive(h, env).home;
    var slot := h.slots[SlotIdFor(key)].slot;
    hide RefreshLive, ActivateClaude, Setting, SlotIdFor, LiveKey, Refusal;
    SwitchSets(refreshed, slot, env, "");
  }

  /**
   * Switching away from an account of Claude's, doing anything that neither uses nor removes it, and switching back
   * brings its identity and its user id back as they were, and none if there was none.
   */
  lemma SwitchingBackRestoresTheIdentity(h: Home, key: string, login: Json, away: Op, ops: seq<Op>, back: Op)
    requires Sound(h) && h.harness.ClaudeCode? && LiveKey(h) == Some(key) && StoredLogin(h) == Some(login)
    requires away.ActivateOp? && away.id.Some? && away.id != Some(SlotIdFor(key))
    requires Activate(h, away.id, away.env).result.Ok?
    requires forall i | 0 <= i < |ops| :: !Uses(ops[i], SlotIdFor(key))
    requires back.ActivateOp? && back.id == Some(SlotIdFor(key))
    requires Activate(DoAll(Do(h, away), ops), back.id, back.env).result.Ok?
    ensures var r := Do(DoAll(Do(h, away), ops), back);
            Setting(r, "oauthAccount") == Setting(h, "oauthAccount") && Setting(r, "userID") == UserId(h)
  {
    SwitchedAwaySavesTheIdentity(h, key, login, away);
    SavedIdentity(h, away.env);
    UserIdIsString(h);
    DoIsSound(h, away);
    var left := Do(h, away);
    SavedLoginIsKept(left, ops, key);
    EveryRunIsSound(left, ops);
    hide LiveKey, StoredLogin, SlotIdFor, Activate, Sound, DoAll, Setting, UserId, Keeps, Detect;
    SwitchRestoresTheIdentity(DoAll(left, ops), key, back.env, Setting(h, "oauthAccount").value, UserId(h));
  }

  lemma UserIdIsString(h: Home)
    ensures UserId(h).Some? ==> IsString(UserId(h).value)
  {
  }

  // ---------------------------------------------------------------- the profiles shown

  /** The profile names whom the saved identity names. */
  predicate ShowsItsIdentity(harness: Harness, slot: Slot) {
    match harness
    case ClaudeCode =>
      slot.claudeConfig.Some? ==>
        var oauth := Field(slot.claudeConfig.value, "oauthAccount");
        && oauth.Some? && StrField(oauth.value, "emailAddress") == Some(slot.profile.email)
        && slot.profile.displayName == StrField(oauth.value, "displayName")
        && slot.profile.organization == StrField(oauth.value, "organizationName")
    case Codex =>
      var token := IdToken(slot.credentials);
      if token.Some? then
        StrField(ClaimsOf(token.value), "email") == Some(slot.profile.email)
        && slot.profile.displayName == StrField(ClaimsOf(token.value), "name")
      else
        var apiKey := StrField(slot.credentials, "OPENAI_API_KEY");
        apiKey.Some? && slot.profile.email == "API key \U{B7}\U{2026}" + LastFour(apiKey.value)
  }

  ghost predicate AllShowTheirIdentity(h: Home) {
    forall id | IsSaved(h.slots, id) :: ShowsItsIdentity(h.harness, h.slots[id].slot)
  }

  lemma DetectedShowsItsIdentity(h: Home, env: Env)
    requires Detect(h, env.answered).Some? && IsReadable(Detect(h, env.answered).value)
    ensures var live := Detect(h, env.answered).value;
            ShowsItsIdentity(h.harness, SlotOf(live, live.credentials.value.value, env.now))
  {
    hide WorkspaceKey, SlotIdFor;
  }

  lemma RefreshShowsIdentities(h: Home, env: Env)
    requires AllShowTheirIdentity(h)
    ensures AllShowTheirIdentity(RefreshLive(h, env).home)
  {
    hide Detect, ShowsItsIdentity, SlotIdFor;
    var live := Detect(h, env.answered);
    if live.Some? && IsReadable(live.value) && env.slotWritten {
      DetectedShowsItsIdentity(h, env);
      var slot := SlotOf(live.value, live.value.credentials.value.value, env.now);
      TimeShowsNothing(h.harness, slot, slot.(createdAt := Some(CreatedFor(h.slots, slot))));
    }
  }

  lemma TimeShowsNothing(harness: Harness, a: Slot, b: Slot)
    requires a.(createdAt := None) == b.(createdAt := None)
    ensures ShowsItsIdentity(harness, a) == ShowsItsIdentity(harness, b)
  {
    hide StrField, Field, IdToken;
  }

  /** Over every run, each saved slot shows whom its identity names. */
  lemma {:induction false} EveryRunShowsIdentities(h: Home, ops: seq<Op>)
    requires AllShowTheirIdentity(h)
    ensures AllShowTheirIdentity(DoAll(h, ops))
  {
    if ops != [] {
      var before, last := DoAll(h, ops[..|ops| - 1]), ops[|ops| - 1];
      EveryRunShowsIdentities(h, ops[..|ops| - 1]);
      RefreshShowsIdentities(before, last.env);
      RefreshLeavesTheLogin(before, last.env);
      if last.ActivateOp? {
        ActivateLeavesSlots(before, last.id, last.env);
        ActivateKeepsHarness(before, last.id, last.env);
      }
      hide RefreshLive, Activate, ShowsItsIdentity, DoAll;
    }
  }

  lemma ActivateKeepsHarness(h: Home, id: Option<nat>, env: Env)
    ensures Activate(h, id, env).home.harness == h.harness
  {
    RefreshLeavesTheLogin(h, env);
    hide RefreshLive, Compose, MergedConfig, Refusal, ReadCredentials;
  }

  /** The address of the account that is signed in. */
  function AddressInUse(h: Home): Option<string> {
    match h.harness
    case ClaudeCode => if Setting(h, "oauthAccount").Some? then StrField(Setting(h, "oauthAccount").value, "emailAddress") else None
    case Codex =>
      var auth := ReadObject(h.credentials);
      if auth.None? then None
      else if IdToken(auth.value).Some? then StrField(ClaimsOf(IdToken(auth.value).value), "email")
      else
        var apiKey := StrField(auth.value, "OPENAI_API_KEY");
        if apiKey.Some? then Some("API key \U{B7}\U{2026}" + LastFour(apiKey.value)) else None
  }

  lemma LiveAddress(h: Home, env: Env)
    requires RefreshLive(h, env).result.Ok? && RefreshLive(h, env).result.value.Some?
    ensures Some(RefreshLive(h, env).result.value.value.identity.profile.email) == AddressInUse(h)
  {
    hide WorkspaceKey, SlotIdFor, CreatedFor, SavedConfig, ReadCredentials;
  }

  /** The list shows each saved login under the address of its identity, and besides them at most the one in use. */
  lemma ListShowsTheIdentities(h: Home, ops: seq<Op>, env: Env, listed: seq<Slot>)
    requires AllShowTheirIdentity(h)
    requires var shown := RefreshLive(DoAll(h, ops), env); shown.result.Ok? && IsListing(shown.home.slots, listed)
    ensures var w := DoAll(h, ops);
            var accounts := AccountsOf(listed, RefreshLive(w, env).result.value);
            && |listed| <= |accounts| <= |listed| + 1
            && (forall i | 0 <= i < |listed| ::
                  accounts[i].id == listed[i].id && accounts[i].email == listed[i].profile.email
                  && ShowsItsIdentity(w.harness, listed[i]))
            && (|accounts| > |listed| ==> Some(accounts[|listed|].email) == AddressInUse(w))
  {
    var w := DoAll(h, ops);
    EveryRunShowsIdentities(h, ops);
    RefreshShowsIdentities(w, env);
    RefreshLeavesTheLogin(w, env);
    if RefreshLive(w, env).result.value.Some? {
      LiveAddress(w, env);
    }
    hide RefreshLive, ShowsItsIdentity, DoAll, AddressInUse, SlotIdFor, Precedes;
  }

  /** A slot with no saved identity signs in whom its profile names, exactly if there is something to name. */
  lemma ProfileNamesTheAccount(slot: Slot)
    requires slot.claudeConfig.None?
    ensures OauthIdentity(OauthOf(slot)) == Some(Identity(slot.accountKey, slot.profile)) <==>
            slot.accountKey != [] && slot.profile.email != []
            && slot.profile.displayName != Some([]) && slot.profile.organization != Some([])
  {
    var oauth := OauthOf(slot);
    assert StrField(oauth, "emailAddress") == if slot.profile.email == [] then None else Some(slot.profile.email);
    assert StrField(oauth, "accountUuid") == if slot.accountKey == [] then None else Some(slot.accountKey);
    assert StrField(oauth, "displayName")
        == if slot.profile.displayName == Some([]) then None else slot.profile.displayName;
    assert StrField(oauth, "organizationName")
        == if slot.profile.organization == Some([]) then None else slot.profile.organization;
  }

  // ---------------------------------------------------------------- members of one workspace

  /** Two members of one workspace are two accounts. */
  lemma WorkspaceMembersDiffer(email: string, other: string, a: Json, b: Json)
    requires StrField(a, "chatgpt_account_id").Some?
    requires StrField(a, "chatgpt_account_id") == StrField(b, "chatgpt_account_id")
    requires StrField(a, "chatgpt_user_id").Some? && StrField(b, "chatgpt_user_id").Some?
    ensures WorkspaceKey(email, a) == WorkspaceKey(other, b) <==>
            StrField(a, "chatgpt_user_id") == StrField(b, "chatgpt_user_id")
  {
    hide StrField;
    var u, v := StrField(a, "chatgpt_user_id").value, StrField(b, "chatgpt_user_id").value;
    var end := "::" + StrField(a, "chatgpt_account_id").value;
    assert WorkspaceKey(email, a) == u + end && WorkspaceKey(other, b) == v + end;
    if u + end == v + end {
      assert |u| == |v| && (u + end)[..|u|] == u && (v + end)[..|v|] == v;
    }
  }
}
