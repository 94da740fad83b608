/** What every sequence of listings, switches and removals keeps of the saved logins. */
module AccountsSafety {
  import opened Wrappers
  import opened Accounts

  datatype Op = ListOp(env: Env) | ActivateOp(id: Option<nat>, env: Env) | RemoveOp(id: Option<nat>, env: Env)

  ghost function Do(h: Home, op: Op): Home {
    match op
    case ListOp(env) => RefreshLive(h, env).home
    case ActivateOp(id, env) => Activate(h, id, env).home
    case RemoveOp(id, env) => Remove(h, id, env).home
  }

  ghost function DoAll(h: Home, ops: seq<Op>): Home {
    if ops == [] then h else Do(DoAll(h, ops[..|ops| - 1]), ops[|ops| - 1])
  }

  // ---------------------------------------------------------------- the invariant

  /** The account a slot signs in. */
  function ActivatedKey(harness: Harness, slot: Slot): Option<string> {
    match harness
    case ClaudeCode =>
      if OauthIdentity(OauthOf(slot)).Some? then Some(OauthIdentity(OauthOf(slot)).value.key) else None
    case Codex =>
      if slot.credentials.Obj? && CodexIdentity(slot.credentials).Some? then Some(CodexIdentity(slot.credentials).value.key)
      else None
  }

  predicate SlotIsSound(harness: Harness, id: nat, slot: Slot) {
    slot.id == id && id == SlotIdFor(slot.accountKey) && ActivatedKey(harness, slot) == Some(slot.accountKey)
  }

  ghost predicate SlotsAreSound(harness: Harness, slots: map<nat, SlotFile>) {
    forall id | IsSaved(slots, id) :: SlotIsSound(harness, id, slots[id].slot)
  }

  function CreatedOf(slots: map<nat, SlotFile>, id: nat): int {
    if IsSaved(slots, id) then slots[id].slot.Created() else 0
  }

  /** The order of first saves lists the readable slots, and their creation times rise along it. */
  ghost predicate OrderIsSound(slots: map<nat, SlotFile>, order: seq<nat>) {
    && (forall i | 0 <= i < |order| :: IsSaved(slots, order[i]))
    && (forall id | IsSaved(slots, id) :: id in order)
    && (forall i, j | 0 <= i < j < |order| :: CreatedOf(slots, order[i]) < CreatedOf(slots, order[j]))
  }

  ghost predicate Sound(h: Home) {
    SlotsAreSound(h.harness, h.slots) && OrderIsSound(h.slots, h.firstSaves)
  }

  lemma {:induction false} SlotIdsDiffer(a: string, b: string)
    ensures SlotIdFor(a) == SlotIdFor(b) ==> a == b
  {
    if a != [] && b != [] && SlotIdFor(a) == SlotIdFor(b) {
      var x, y := a[|a| - 1], b[|b| - 1];
      assert x == y && SlotIdFor(a[..|a| - 1]) == SlotIdFor(b[..|b| - 1]);
      SlotIdsDiffer(a[..|a| - 1], b[..|b| - 1]);
      assert a == a[..|a| - 1] + [x] && b == b[..|b| - 1] + [y];
    }
  }

  lemma DetectedSlotIsSound(h: Home, env: Env)
    requires Detect(h, env.answered).Some? && IsReadable(Detect(h, env.answered).value)
    ensures var live := Detect(h, env.answered).value;
            var slot := SlotOf(live, live.credentials.value.value, env.now);
            SlotIsSound(h.harness, slot.id, slot)
  {
    hide CodexIdentity, OauthIdentity, SlotIdFor;
  }

  lemma OrderAppends(slots: map<nat, SlotFile>, order: seq<nat>, id: nat, slot: Slot)
    requires OrderIsSound(slots, order) && !IsSaved(slots, id)
    requires forall other | IsSaved(slots, other) :: slots[other].slot.Created() < slot.Created()
    ensures OrderIsSound(slots[id := Saved(slot)], order + [id])
  {
    var more := slots[id := Saved(slot)];
    assert forall i | 0 <= i < |order| :: order[i] != id && more[order[i]] == slots[order[i]];
  }

  lemma OrderStays(slots: map<nat, SlotFile>, order: seq<nat>, id: nat, slot: Slot)
    requires OrderIsSound(slots, order) && IsSaved(slots, id) && slot.Created() == slots[id].slot.Created()
    ensures OrderIsSound(slots[id := Saved(slot)], order)
  {
    var more := slots[id := Saved(slot)];
    assert forall i | 0 <= i < |order| :: IsSaved(more, order[i]) && CreatedOf(more, order[i]) == CreatedOf(slots, order[i]);
  }

  lemma WriteIsSound(h: Home, slot: Slot)
    requires Sound(h) && SlotIsSound(h.harness, slot.id, slot) && slot.createdAt.None?
    ensures Sound(WriteSlot(h, slot))
  {
    hide SlotIdFor, ActivatedKey, OrderIsSound;
    var full := slot.(createdAt := Some(CreatedFor(h.slots, slot)));
    ActivatedKeyIgnoresTime(h.harness, slot, full);
    if IsSaved(h.slots, slot.id) {
      OrderStays(h.slots, h.firstSaves, slot.id, full);
    } else {
      OrderAppends(h.slots, h.firstSaves, slot.id, full);
    }
  }

  lemma ActivatedKeyIgnoresTime(harness: Harness, a: Slot, b: Slot)
    requires a.(createdAt := None) == b.(createdAt := None)
    ensures ActivatedKey(harness, a) == ActivatedKey(harness, b)
  {
    hide CodexIdentity, OauthIdentity;
  }

  lemma RefreshIsSound(h: Home, env: Env)
    requires Sound(h)
    ensures Sound(RefreshLive(h, env).home)
  {
    hide Sound, WriteSlot, Detect;
    var live := Detect(h, env.answered);
    if live.Some? && IsReadable(live.value) && env.slotWritten {
      DetectedSlotIsSound(h, env);
      WriteIsSound(h, SlotOf(live.value, live.value.credentials.value.value, env.now));
    }
  }

  /** Saving the signed-in login touches nothing that is live. */
  lemma RefreshLeavesTheLogin(h: Home, env: Env)
    ensures var r := RefreshLive(h, env).home;
            r == h.(slots := r.slots, firstSaves := r.firstSaves) && LiveKey(r) == LiveKey(h)
  {
    hide ConfigIdentity, CodexIdentity, SavedConfig;
  }

  lemma ActivateLeavesSlots(h: Home, id: Option<nat>, env: Env)
    ensures var r := Activate(h, id, env).home;
            var refreshed := RefreshLive(h, env).home;
            id.Some? ==> r.slots == refreshed.slots && r.firstSaves == refreshed.firstSaves && r.harness == refreshed.harness
    ensures id.None? ==> Activate(h, id, env).home == h
  {
    hide RefreshLive, Compose, MergedConfig, Refusal, ReadCredentials;
  }

  lemma {:induction false} WithoutFacts(order: seq<nat>, id: nat)
    ensures id !in Without(order, id)
    ensures forall x | x in order && x != id :: x in Without(order, id)
    ensures forall x | x in Without(order, id) :: x in order
  {
    if order != [] {
      WithoutFacts(order[..|order| - 1], id);
      assert order == order[..|order| - 1] + [order[|order| - 1]];
    }
  }

  lemma {:induction false} WithoutKeepsRising(slots: map<nat, SlotFile>, order: seq<nat>, id: nat)
    requires forall i | 0 <= i < |order| :: IsSaved(slots, order[i])
    requires forall i, j | 0 <= i < j < |order| :: CreatedOf(slots, order[i]) < CreatedOf(slots, order[j])
    ensures forall i | 0 <= i < |Without(order, id)| :: IsSaved(slots, Without(order, id)[i])
    ensures forall i, j | 0 <= i < j < |Without(order, id)| ::
              CreatedOf(slots, Without(order, id)[i]) < CreatedOf(slots, Without(order, id)[j])
  {
    if order != [] {
      var n := |order| - 1;
      var before := Without(order[..n], id);
      WithoutKeepsRising(slots, order[..n], id);
      WithoutFacts(order[..n], id);
      forall i | 0 <= i < |before| ensures CreatedOf(slots, before[i]) < CreatedOf(slots, order[n]) {
        assert before[i] in order[..n];
        var k :| 0 <= k < n && order[..n][k] == before[i];
        assert order[k] == before[i];
      }
    }
  }

  lemma OrderLoses(slots: map<nat, SlotFile>, order: seq<nat>, id: nat)
    requires OrderIsSound(slots, order)
    ensures OrderIsSound(slots - {id}, Without(order, id))
  {
    WithoutFacts(order, id);
    WithoutKeepsRising(slots, order, id);
    var less, left := slots - {id}, Without(order, id);
    forall i | 0 <= i < |left| ensures left[i] != id && IsSaved(less, left[i]) && less[left[i]] == slots[left[i]] {
      assert left[i] in left;
    }
  }

  lemma RemoveIsSound(h: Home, id: Option<nat>, env: Env)
    requires Sound(h)
    ensures Sound(Remove(h, id, env).home)
  {
    hide RefreshLive, SlotIdFor, OrderIsSound, SlotIsSound;
    RefreshIsSound(h, env);
    if id.Some? {
      OrderLoses(RefreshLive(h, env).home.slots, RefreshLive(h, env).home.firstSaves, id.value);
    }
  }

  lemma DoIsSound(h: Home, op: Op)
    requires Sound(h)
    ensures Sound(Do(h, op)) && Do(h, op).harness == h.harness
  {
    hide RefreshLive, Activate, Remove, OrderIsSound, SlotIsSound;
    RefreshIsSound(h, op.env);
    RefreshLeavesTheLogin(h, op.env);
    match op
    case ListOp(env) =>
    case ActivateOp(id, env) => ActivateLeavesSlots(h, id, env);
    case RemoveOp(id, env) =>
      RemoveIsSound(h, id, env);
      RemoveLeavesTheLogin(h, id, env);
  }

  lemma RemoveLeavesTheLogin(h: Home, id: Option<nat>, env: Env)
    ensures var r := Remove(h, id, env).home;
            && r.harness == h.harness && LiveKey(r) == LiveKey(h)
            && r.config == h.config && r.credentials == h.credentials && r.keychain == h.keychain
  {
    hide RefreshLive, SlotIdFor, ConfigIdentity, CodexIdentity;
    RefreshLeavesTheLogin(h, env);
  }

  /** Stores that hold no slots yet are sound. */
  lemma NewStoresAreSound(harness: Harness, config: File, credentials: File, keychain: Option<Option<Json>>)
    ensures Sound(Home(harness, map[], config, credentials, keychain, []))
  {
  }

  lemma {:induction false} EveryRunIsSound(h: Home, ops: seq<Op>)
    requires Sound(h)
    ensures Sound(DoAll(h, ops)) && DoAll(h, ops).harness == h.harness
  {
    hide Sound, Do;
    if ops != [] {
      EveryRunIsSound(h, ops[..|ops| - 1]);
      DoIsSound(DoAll(h, ops[..|ops| - 1]), ops[|ops| - 1]);
    }
  }

  // ---------------------------------------------------------------- the replaced login

  /** An operation that names no account at all is refused before anything else happens. */
  predicate NamesAnAccount(op: Op) {
    op.ListOp? || op.id.Some?
  }

  /** Every operation, whatever comes of it, first saves the signed-in login as it is under its own account. */
  lemma LiveLoginIsSavedFirst(h: Home, op: Op)
    requires NamesAnAccount(op) && op.env.slotWritten
    requires Detect(h, op.env.answered).Some? && IsReadable(Detect(h, op.env.answered).value)
    ensures var live := Detect(h, op.env.answered).value;
            var own := SlotIdFor(live.identity.key);
            var r := Do(h, op);
            && IsSaved(r.slots, own)
            && r.slots[own].slot.accountKey == live.identity.key
            && r.slots[own].slot.credentials == live.credentials.value.value
            && r.slots[own].slot.claudeConfig == live.claudeConfig
  {
    hide Detect, SlotIdFor, Activate;
    if op.ActivateOp? {
      ActivateLeavesSlots(h, op.id, op.env);
    }
  }

  lemma RefreshWritesOwnSlotOnly(h: Home, env: Env, key: string)
    requires LiveKey(h) != Some(key)
    ensures var own := SlotIdFor(key);
            var r := RefreshLive(h, env).home;
            IsSaved(h.slots, own) ==> IsSaved(r.slots, own) && r.slots[own] == h.slots[own]
  {
    hide ConfigIdentity, CodexIdentity, SavedConfig, SlotIdFor;
    var live := Detect(h, env.answered);
    if live.Some? {
      SlotIdsDiffer(live.value.identity.key, key);
    }
  }

  lemma SwitchedKey(h: Home, slot: Slot, env: Env)
    requires h.harness.ClaudeCode? && ActivateClaude(h, slot, env).result.Ok?
    ensures LiveKey(ActivateClaude(h, slot, env).home) == ActivatedKey(ClaudeCode, slot)
  {
    hide Compose, OauthIdentity, ReadCredentials;
    var r := ActivateClaude(h, slot, env).home;
    assert Field(r.config.json, "oauthAccount") == Some(OauthOf(slot));
  }

  lemma FailedSwitchKeepsKey(h: Home, slot: Slot, env: Env)
    requires h.harness.ClaudeCode? && ActivateClaude(h, slot, env).result.Err?
    ensures LiveKey(ActivateClaude(h, slot, env).home) == LiveKey(h)
  {
    hide Compose, MergedConfig, ConfigIdentity, ReadCredentials;
  }

  /** After a switch that succeeds, the account of that slot is the one signed in; after one that fails, nothing changed about that. */
  lemma SwitchDecidesWhoIsSignedIn(h: Home, id: Option<nat>, env: Env)
    requires Sound(h)
    ensures var r := Activate(h, id, env);
            && (r.result.Ok? ==> id.Some? && IsSaved(r.home.slots, id.value)
                                 && LiveKey(r.home) == Some(r.home.slots[id.value].slot.accountKey))
            && (r.result.Err? ==> LiveKey(r.home) == LiveKey(h))
  {
    hide RefreshLive, ActivateClaude, Refusal, SlotIdFor, OrderIsSound, CodexIdentity, ConfigIdentity, OauthIdentity;
    RefreshIsSound(h, env);
    RefreshLeavesTheLogin(h, env);
    ActivateLeavesSlots(h, id, env);
    var refreshed := RefreshLive(h, env).home;
    if id.Some? && IsSaved(refreshed.slots, id.value) {
      var slot := refreshed.slots[id.value].slot;
      assert SlotIsSound(h.harness, id.value, slot);
      if h.harness.ClaudeCode? {
        if ActivateClaude(refreshed, slot, env).result.Ok? {
          SwitchedKey(refreshed, slot, env);
        } else {
          FailedSwitchKeepsKey(refreshed, slot, env);
        }
      }
    }
  }

  predicate Uses(op: Op, id: nat) {
    (op.ActivateOp? || op.RemoveOp?) && op.id == Some(id)
  }

  lemma DoKeepsSlot(h: Home, op: Op, key: string)
    requires Sound(h) && LiveKey(h) != Some(key) && IsSaved(h.slots, SlotIdFor(key)) && !Uses(op, SlotIdFor(key))
    ensures var r := Do(h, op);
            IsSaved(r.slots, SlotIdFor(key)) && r.slots[SlotIdFor(key)] == h.slots[SlotIdFor(key)] && LiveKey(r) != Some(key)
  {
    hide RefreshLive, Activate, SlotIdFor, LiveKey, OrderIsSound;
    var own := SlotIdFor(key);
    RefreshWritesOwnSlotOnly(h, op.env, key);
    RefreshLeavesTheLogin(h, op.env);
    match op
    case ListOp(env) =>
    case ActivateOp(id, env) =>
      DoIsSound(h, op);
      ActivateLeavesSlots(h, id, env);
      SwitchDecidesWhoIsSignedIn(h, id, env);
      assert Activate(h, id, env).result.Ok? ==>
        SlotIsSound(h.harness, id.value, Activate(h, id, env).home.slots[id.value].slot);
    case RemoveOp(id, env) => RemoveLeavesTheLogin(h, id, env);
  }

  /** A saved login that is not signed in stays exactly as it was saved until somebody switches to it or removes it. */
  lemma {:induction false} SavedLoginIsKept(h: Home, ops: seq<Op>, key: string)
    requires Sound(h) && LiveKey(h) != Some(key) && IsSaved(h.slots, SlotIdFor(key))
    requires forall i | 0 <= i < |ops| :: !Uses(ops[i], SlotIdFor(key))
    ensures var r := DoAll(h, ops);
            IsSaved(r.slots, SlotIdFor(key)) && r.slots[SlotIdFor(key)] == h.slots[SlotIdFor(key)] && LiveKey(r) != Some(key)
  {
    hide Sound, Do, LiveKey, SlotIdFor;
    if ops != [] {
      var init, last := ops[..|ops| - 1], ops[|ops| - 1];
      assert forall i | 0 <= i < |init| :: init[i] == ops[i];
      SavedLoginIsKept(h, init, key);
      EveryRunIsSound(h, init);
      assert !Uses(ops[|ops| - 1], SlotIdFor(key));
      DoKeepsSlot(DoAll(h, init), last, key);
    }
  }

  // ---------------------------------------------------------------- what a switch puts in place

  predicate SharesAgree(target: Json, live: Json)
    requires target.Obj? && live.Obj?
  {
    forall key | key in SHARED_KEYS :: Field(target, key) == Field(live, key)
  }

  lemma ComposedFields(target: Json, live: Json, key: string)
    requires live.Obj? && IsOAuthLogin(target)
    ensures var r := Compose(target, Some(live));
            r.Obj? && Field(r, key) == if key in SHARED_KEYS then Field(live, key) else Field(target, key)
  {
  }

  /** A saved login comes back exactly as saved unless it and the live one are OAuth logins whose shared tokens differ. */
  lemma LoginComesBackVerbatimExactly(target: Json, live: Option<Json>)
    ensures Compose(target, live) == target <==>
            live.None? || !live.value.Obj? || !IsOAuthLogin(target) || SharesAgree(target, live.value)
  {
    if live.Some? && live.value.Obj? && IsOAuthLogin(target) {
      var r := Compose(target, live);
      forall key ensures Field(r, key) == if key in SHARED_KEYS then Field(live.value, key) else Field(target, key) {
        ComposedFields(target, live.value, key);
      }
      if SharesAgree(target, live.value) {
        forall key ensures Field(r, key) == Field(target, key) {
        }
        SameFields(r, target);
      }
      if r == target {
        forall key | key in SHARED_KEYS ensures Field(target, key) == Field(live.value, key) {
          assert Field(r, key) == Field(live.value, key);
        }
      }
    }
  }

  lemma SameFields(a: Json, b: Json)
    requires a.Obj? && b.Obj? && forall key :: Field(a, key) == Field(b, key)
    ensures a == b
  {
    forall key ensures key in a.fields <==> key in b.fields {
      assert Field(a, key) == Field(b, key);
    }
    forall key | key in a.fields ensures a.fields[key] == b.fields[key] {
      assert Field(a, key) == Field(b, key);
    }
    assert a.fields == b.fields;
  }

  lemma ReadAfterWrite(h: Home, login: Json)
    requires login.Obj?
    ensures ReadCredentials(WriteCredentials(h, login), true) == Ok(Some(login))
  {
  }

  ghost predicate AllOAuth(h: Home) {
    && h.harness.ClaudeCode?
    && (forall id | IsSaved(h.slots, id) :: IsOAuthLogin(h.slots[id].slot.credentials))
    && HoldsOAuth(h)
  }

  predicate HoldsOAuth(h: Home) {
    var live := ReadCredentials(h, true);
    live.Ok? && live.value.Some? && IsOAuthLogin(live.value.value)
  }

  /** The shared token under this key, as it is live. */
  function SharedToken(h: Home, key: string): Option<Json>
    requires HoldsOAuth(h)
  {
    Field(ReadCredentials(h, true).value.value, key)
  }

  lemma RefreshKeepsOAuth(h: Home, env: Env)
    requires AllOAuth(h)
    ensures AllOAuth(RefreshLive(h, env).home)
  {
    hide ConfigIdentity, SavedConfig, SlotIdFor, CreatedFor, IsOAuthLogin;
  }

  lemma WrittenKeepsTokens(h: Home, slot: Slot)
    requires HoldsOAuth(h) && IsOAuthLogin(slot.credentials)
    ensures var live := ReadCredentials(h, true).value;
            var r := WriteCredentials(h, Compose(slot.credentials, live));
            HoldsOAuth(r) && forall key | key in SHARED_KEYS :: SharedToken(r, key) == SharedToken(h, key)
  {
    hide ReadCredentials, WriteCredentials;
    var live := ReadCredentials(h, true).value.value;
    var composed := Compose(slot.credentials, Some(live));
    ReadAfterWrite(h, composed);
    forall key ensures Field(composed, key) == if key in SHARED_KEYS then Field(live, key) else Field(slot.credentials, key) {
      ComposedFields(slot.credentials, live, key);
    }
    assert IsOAuthLogin(composed) by {
      assert "claudeAiOauth" !in SHARED_KEYS by { OauthIsNotShared(); }
      assert Field(composed, "claudeAiOauth") == Field(slot.credentials, "claudeAiOauth");
    }
  }

  lemma OauthIsNotShared()
    ensures "claudeAiOauth" !in SHARED_KEYS
  {
    assert "claudeAiOauth"[0] == 'c';
    assert forall i | 0 <= i < |SHARED_KEYS| :: SHARED_KEYS[i][0] != 'c';
  }

  lemma SwitchKeepsTokens(h: Home, slot: Slot, env: Env)
    requires AllOAuth(h) && IsOAuthLogin(slot.credentials)
    ensures var r := ActivateClaude(h, slot, env).home;
            AllOAuth(r) && forall key | key in SHARED_KEYS :: SharedToken(r, key) == SharedToken(h, key)
  {
    hide Compose, MergedConfig, IsOAuthLogin, WriteCredentials;
    var live := ReadCredentials(h, env.rereadAnswered);
    if live.Ok? {
      assert live == ReadCredentials(h, true);
      WrittenKeepsTokens(h, slot);
      var written := WriteCredentials(h, Compose(slot.credentials, live.value));
      WriteLeavesTheRest(h, Compose(slot.credentials, live.value));
      WriteLeavesTheRest(written, live.value.value);
      ObjectOfOAuth(live.value.value);
      ReadAfterWrite(written, live.value.value);
    }
  }

  lemma ObjectOfOAuth(json: Json)
    requires IsOAuthLogin(json)
    ensures json.Obj?
  {
  }

  lemma WriteLeavesTheRest(h: Home, login: Json)
    ensures var r := WriteCredentials(h, login);
            r == h.(credentials := r.credentials, keychain := r.keychain)
  {
  }

  lemma DoKeepsTokens(h: Home, op: Op)
    requires AllOAuth(h)
    ensures AllOAuth(Do(h, op))
    ensures forall key | key in SHARED_KEYS :: SharedToken(Do(h, op), key) == SharedToken(h, key)
  {
    hide RefreshLive, ActivateClaude, Refusal, IsOAuthLogin, SlotIdFor;
    RefreshKeepsOAuth(h, op.env);
    RefreshLeavesTheLogin(h, op.env);
    var refreshed := RefreshLive(h, op.env).home;
    if op.ActivateOp? && op.id.Some? && IsSaved(refreshed.slots, op.id.value) {
      SwitchKeepsTokens(refreshed, refreshed.slots[op.id.value].slot, op.env);
    }
  }

  /** Between OAuth logins, the machine's MCP and plugin tokens survive every switch, even one that fails halfway. */
  lemma {:induction false} SharedTokensSurvive(h: Home, ops: seq<Op>)
    requires AllOAuth(h)
    ensures AllOAuth(DoAll(h, ops))
    ensures forall key | key in SHARED_KEYS :: SharedToken(DoAll(h, ops), key) == SharedToken(h, key)
  {
    hide AllOAuth, Do, HoldsOAuth, SharedToken;
    AllHoldOAuth(h);
    if ops != [] {
      SharedTokensSurvive(h, ops[..|ops| - 1]);
      AllHoldOAuth(DoAll(h, ops[..|ops| - 1]));
      DoKeepsTokens(DoAll(h, ops[..|ops| - 1]), ops[|ops| - 1]);
    }
  }

  lemma AllHoldOAuth(h: Home)
    requires AllOAuth(h)
    ensures HoldsOAuth(h)
  {
  }

  // ---------------------------------------------------------------- the list after a switch

  /** After a successful switch the list marks the account switched to, and no other. */
  lemma SwitchMarksExactlyOne(h: Home, id: nat, env: Env, later: Env, listed: seq<Slot>)
    requires Sound(h) && Activate(h, Some(id), env).result.Ok?
    requires RefreshLive(Activate(h, Some(id), env).home, later).result.Ok?
    requires IsListing(RefreshLive(Activate(h, Some(id), env).home, later).home.slots, listed)
    ensures var accounts := AccountsOf(listed, RefreshLive(Activate(h, Some(id), env).home, later).result.value);
            && (exists i | 0 <= i < |accounts| :: accounts[i].id == id && accounts[i].active)
            && (forall i | 0 <= i < |accounts| :: accounts[i].active <==> accounts[i].id == id)
  {
    var switched := Activate(h, Some(id), env).home;
    DoIsSound(h, ActivateOp(Some(id), env));
    SwitchDecidesWhoIsSignedIn(h, Some(id), env);
    RefreshIsSound(switched, later);
    var key := switched.slots[id].slot.accountKey;
    assert SlotIsSound(h.harness, id, switched.slots[id].slot);
    hide Activate, OrderIsSound, SlotIdFor, ActivatedKey;
    RefreshKeepsKeys(switched, later, id);
    var shown := RefreshLive(switched, later);
    DetectedKeyIsLive(switched, later);
    MarksExactly(shown.home, listed, shown.result.value, id, key);
  }

  lemma DetectedKeyIsLive(h: Home, env: Env)
    requires RefreshLive(h, env).result.Ok?
    ensures var live := RefreshLive(h, env).result.value;
            LiveKey(h) == if live.Some? then Some(live.value.identity.key) else None
  {
    hide ConfigIdentity, CodexIdentity, SavedConfig, WriteSlot;
  }

  lemma RefreshKeepsKeys(h: Home, env: Env, id: nat)
    requires Sound(h) && IsSaved(h.slots, id)
    ensures var r := RefreshLive(h, env).home;
            IsSaved(r.slots, id) && r.slots[id].slot.accountKey == h.slots[id].slot.accountKey
  {
    hide Detect, SlotIdFor, ActivatedKey, OrderIsSound;
    var live := Detect(h, env.answered);
    assert SlotIsSound(h.harness, id, h.slots[id].slot);
    if live.Some? {
      SlotIdsDiffer(live.value.identity.key, h.slots[id].slot.accountKey);
    }
  }

  lemma MarksExactly(h: Home, listed: seq<Slot>, live: Option<Detected>, id: nat, key: string)
    requires Sound(h) && IsListing(h.slots, listed)
    requires live.Some? && live.value.identity.key == key && IsSaved(h.slots, id) && h.slots[id].slot.accountKey == key
    ensures var accounts := AccountsOf(listed, live);
            && (exists i | 0 <= i < |accounts| :: accounts[i].id == id && accounts[i].active)
            && (forall i | 0 <= i < |accounts| :: accounts[i].active <==> accounts[i].id == id)
  {
    hide OrderIsSound, SlotIdFor, ActivatedKey, Precedes;
    assert SlotIsSound(h.harness, id, h.slots[id].slot);
    var accounts := AccountsOf(listed, live);
    var at :| 0 <= at < |listed| && listed[at].id == id;
    assert listed[at].accountKey == key;
    assert accounts[at].id == id && accounts[at].active;
    forall i | 0 <= i < |accounts| ensures accounts[i].active <==> accounts[i].id == id {
      assert SlotIsSound(h.harness, listed[i].id, h.slots[listed[i].id].slot);
      SlotIdsDiffer(listed[i].accountKey, key);
    }
  }

  // ---------------------------------------------------------------- the order of the list

  predicate Rises(times: seq<int>) {
    forall i, j | 0 <= i < j < |times| :: times[i] < times[j]
  }

  lemma {:induction false} RisingAreEqual(a: seq<int>, b: seq<int>)
    requires Rises(a) && Rises(b) && forall t :: t in a <==> t in b
    ensures a == b
  {
    assert (a != [] ==> a[0] in a) && (b != [] ==> b[0] in b);
    if a != [] && b != [] {
      var m, n := |a| - 1, |b| - 1;
      assert a[m] in b && b[n] in a;
      assert a[m] == b[n];
      forall t ensures t in a[..m] <==> t in b[..n] {
        assert t in a <==> t in a[..m] || t == a[m];
        assert t in b <==> t in b[..n] || t == b[n];
      }
      RisingAreEqual(a[..m], b[..n]);
      assert a == a[..m] + [a[m]] && b == b[..n] + [b[n]];
    }
  }

  /** The creation times of some saved slots. */
  function Times(slots: map<nat, SlotFile>, ids: seq<nat>): seq<int> {
    seq(|ids|, i requires 0 <= i < |ids| => CreatedOf(slots, ids[i]))
  }

  function IdsOf(listed: seq<Slot>): seq<nat> {
    seq(|listed|, i requires 0 <= i < |listed| => listed[i].id)
  }

  lemma TimesOfListingRise(slots: map<nat, SlotFile>, order: seq<nat>, listed: seq<Slot>)
    requires OrderIsSound(slots, order) && IsListing(slots, listed)
    ensures Rises(Times(slots, IdsOf(listed)))
  {
    forall i, j | 0 <= i < j < |listed| ensures listed[i].Created() < listed[j].Created() {
      assert Precedes(listed[i], listed[j]);
      assert listed[i].id in order && listed[j].id in order;
    }
  }

  lemma SameTimes(slots: map<nat, SlotFile>, order: seq<nat>, listed: seq<Slot>, t: int)
    requires OrderIsSound(slots, order) && IsListing(slots, listed)
    ensures t in Times(slots, IdsOf(listed)) <==> t in Times(slots, order)
  {
    hide Precedes, Slot.Created;
    var a, b := Times(slots, IdsOf(listed)), Times(slots, order);
    if t in a {
      var i :| 0 <= i < |a| && a[i] == t;
      assert listed[i].id in order;
      var k :| 0 <= k < |order| && order[k] == listed[i].id;
      assert b[k] == t;
    }
    if t in b {
      var k :| 0 <= k < |b| && b[k] == t;
      assert IsSaved(slots, order[k]);
      var i :| 0 <= i < |listed| && listed[i].id == order[k];
      assert a[i] == t;
    }
  }

  lemma ListingFollowsOrder(slots: map<nat, SlotFile>, order: seq<nat>, listed: seq<Slot>)
    requires OrderIsSound(slots, order) && IsListing(slots, listed)
    ensures IdsOf(listed) == order
  {
    hide IsListing, Slot.Created;
    var a, b := Times(slots, IdsOf(listed)), Times(slots, order);
    TimesOfListingRise(slots, order, listed);
    forall t ensures t in a <==> t in b {
      SameTimes(slots, order, listed, t);
    }
    RisingAreEqual(a, b);
    assert |a| == |listed| && |b| == |order|;
    forall i | 0 <= i < |listed| ensures listed[i].id == order[i] {
      assert a[i] == b[i];
      assert listed[i].id in order by { ListedIsSaved(slots, listed, i); }
      var k :| 0 <= k < |order| && order[k] == listed[i].id;
      assert b[k] == b[i];
    }
  }

  lemma ListedIsSaved(slots: map<nat, SlotFile>, listed: seq<Slot>, i: nat)
    requires IsListing(slots, listed) && i < |listed|
    ensures IsSaved(slots, listed[i].id)
  {
  }

  /** Whatever was done since, the list shows the saved logins in the order they were first saved. */
  lemma ListingIsInOrderOfFirstSave(h: Home, ops: seq<Op>, listed: seq<Slot>)
    requires Sound(h) && IsListing(DoAll(h, ops).slots, listed)
    ensures IdsOf(listed) == DoAll(h, ops).firstSaves
  {
    EveryRunIsSound(h, ops);
    hide DoAll;
    ListingFollowsOrder(DoAll(h, ops).slots, DoAll(h, ops).firstSaves, listed);
  }

  // ---------------------------------------------------------------- refusals

  predicate SameLogin(a: Home, b: Home) {
    a.config == b.config && a.credentials == b.credentials && a.keychain == b.keychain
  }

  /** Where the keychain stays silent, the slot cannot be written, or nobody knows the account, nothing is overwritten. */
  lemma UnsavedLoginIsLeftAlone(h: Home, id: Option<nat>, env: Env)
    requires var live := Detect(h, env.answered);
             (live.None? && LoginIsThere(h)) || (live.Some? && live.value.credentials.Err?)
             || (live.Some? && IsReadable(live.value) && !env.slotWritten)
    ensures Activate(h, id, env).result.Err? && Activate(h, id, env).home == h
  {
    hide Detect, ActivateClaude, ActivateCodex;
  }

  lemma RestoreUndoesWrite(h: Home, login: Json, live: Json)
    requires ReadCredentials(h, true) == Ok(Some(live))
    ensures WriteCredentials(WriteCredentials(h, login), live) == h
  {
  }
}
