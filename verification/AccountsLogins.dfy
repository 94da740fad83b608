/** What becomes of each account's login over switches that succeed, fail, or stop halfway. */
module AccountsLogins {
  import opened Wrappers
  import opened Accounts
  import opened AccountsSafety

  // ---------------------------------------------------------------- the login of an account

  /** The login the agent would use now. */
  function StoredLogin(h: Home): Option<Json> {
    match h.harness
    case ClaudeCode => ReadCredentials(h, true).value
    case Codex => ReadObject(h.credentials)
  }

  /** An account's login: the one in use while it is signed in, and otherwise the saved one. */
  function LoginOf(h: Home, key: string): Option<Json> {
    if LiveKey(h) == Some(key) && StoredLogin(h).Some? then StoredLogin(h)
    else if IsSaved(h.slots, SlotIdFor(key)) then Some(h.slots[SlotIdFor(key)].slot.credentials)
    else None
  }

  /** A login as a switch puts it in place: Claude's takes the machine's shared tokens along. */
  function PutInPlace(h: Home, login: Json): Json {
    if h.harness.ClaudeCode? then Compose(login, StoredLogin(h)) else login
  }

  // ---------------------------------------------------------------- how far a switch comes

  predicate KeychainAnswers(h: Home, answered: bool) {
    h.harness.Codex? || h.keychain.None? || answered
  }

  /** The login in use is saved first, or there is none. */
  predicate CanBackUp(h: Home, env: Env) {
    if LiveKey(h).Some? then KeychainAnswers(h, env.answered) && (StoredLogin(h).Some? ==> env.slotWritten)
    else !LoginIsThere(h)
  }

  /** The slot exists, or is written when the login in use is saved. */
  predicate SlotIsThere(h: Home, id: nat) {
    IsSaved(h.slots, id) || (IsOwnSlot(h, id) && StoredLogin(h).Some?)
  }

  predicate IsOwnSlot(h: Home, id: nat) {
    LiveKey(h).Some? && SlotIdFor(LiveKey(h).value) == id
  }

  /** The login a switch to this slot would use. */
  function TargetLogin(h: Home, id: nat): Json
    requires SlotIsThere(h, id)
  {
    if IsOwnSlot(h, id) && StoredLogin(h).Some? then StoredLogin(h).value else h.slots[id].slot.credentials
  }

  predicate ConfigIsReadable(h: Home) {
    h.config.Missing? || ReadObject(h.config).Some?
  }

  /** Nothing keeps the switch from writing the credentials. */
  predicate ReachesWrite(h: Home, id: nat, env: Env) {
    && CanBackUp(h, env) && SlotIsThere(h, id)
    && (h.harness.ClaudeCode? ==> ConfigIsReadable(h) && KeychainAnswers(h, env.rereadAnswered))
  }

  predicate GoesThrough(h: Home, id: nat, env: Env) {
    ReachesWrite(h, id, env) && env.credentialsWritten && (h.harness.ClaudeCode? ==> env.configWritten)
  }

  /** The credentials are written and the configuration is not, and nothing is put back. */
  predicate StopsHalfway(h: Home, id: nat, env: Env) {
    && h.harness.ClaudeCode?
    && ReachesWrite(h, id, env) && env.credentialsWritten && !env.configWritten
    && !(StoredLogin(h).Some? && env.restored)
  }

  predicate WritesKeychain(h: Home) {
    h.keychain.Some? && (h.keychain.value.Some? || h.credentials.Missing?)
  }

  /** Writing this login changes what is stored. */
  predicate Replaces(h: Home, login: Json) {
    if WritesKeychain(h) then h.keychain.value != Some(login) else h.credentials != Parsed(login)
  }

  /** Once written, this login is the one the agent reads: files are read only if they hold an object. */
  predicate IsReadBack(h: Home, login: Json) {
    WritesKeychain(h) || login.Obj?
  }

  /** What a refresh does, told by its inputs. */
  lemma RefreshTold(h: Home, env: Env)
    ensures var r := RefreshLive(h, env);
            var saves := LiveKey(h).Some? && KeychainAnswers(h, env.answered) && StoredLogin(h).Some?;
            && (r.result.Ok? <==> !(saves && !env.slotWritten))
            && (r.result.Ok? ==> (r.result.value.Some? <==> LiveKey(h).Some?))
            && (r.result.Ok? && r.result.value.Some? ==>
                  (r.result.value.value.credentials.Err? <==> !KeychainAnswers(h, env.answered))
                  && r.result.value.value.identity.key == LiveKey(h).value)
            && (if saves && env.slotWritten then
                  IsSaved(r.home.slots, SlotIdFor(LiveKey(h).value))
                  && r.home.slots[SlotIdFor(LiveKey(h).value)].slot.credentials == StoredLogin(h).value
                  && (forall id | id != SlotIdFor(LiveKey(h).value) ::
                        IsSaved(r.home.slots, id) == IsSaved(h.slots, id)
                        && (IsSaved(h.slots, id) ==> r.home.slots[id] == h.slots[id]))
                else r.home == h)
  {
    hide ConfigIdentity, CodexIdentity, SavedConfig, SlotIdFor, CreatedFor;
  }

  lemma SameStoresSameLogin(h: Home, r: Home)
    requires r == h.(slots := r.slots, firstSaves := r.firstSaves)
    ensures StoredLogin(r) == StoredLogin(h) && LiveKey(r) == LiveKey(h) && LoginIsThere(r) == LoginIsThere(h)
    ensures WritesKeychain(r) == WritesKeychain(h)
  {
    hide ConfigIdentity, CodexIdentity;
  }

  /** A switch comes as far as its inputs say. */
  lemma SwitchTold(h: Home, id: nat, env: Env)
    ensures var r := Activate(h, Some(id), env);
            && (r.result.Ok? <==> GoesThrough(h, id, env))
            && (!ReachesWrite(h, id, env) || !env.credentialsWritten ==> SameLogin(r.home, h))
            && (ReachesWrite(h, id, env) ==> RefreshLive(h, env).result.Ok?)
            && (ReachesWrite(h, id, env) ==> IsSaved(RefreshLive(h, env).home.slots, id))
            && (ReachesWrite(h, id, env) ==>
                  RefreshLive(h, env).home.slots[id].slot.credentials == TargetLogin(h, id))
  {
    var refreshed := RefreshLive(h, env);
    RefreshTold(h, env);
    RefreshLeavesTheLogin(h, env);
    SameStoresSameLogin(h, refreshed.home);
    hide RefreshLive, SlotIdFor, LiveKey, LoginIsThere, Compose, MergedConfig;
  }

  // ---------------------------------------------------------------- switches that stop halfway

  lemma WriteTold(h: Home, login: Json)
    ensures WriteCredentials(h, login).config == h.config
    ensures SameLogin(WriteCredentials(h, login), h) <==> !Replaces(h, login)
    ensures h.harness.ClaudeCode? ==>
              StoredLogin(WriteCredentials(h, login)) == if IsReadBack(h, login) then Some(login) else None
  {
  }

  /** What a switch that reaches its writes leaves in the stores. */
  lemma WritesTold(h: Home, id: nat, env: Env)
    requires h.harness.ClaudeCode? && ReachesWrite(h, id, env) && env.credentialsWritten
    ensures var r := Activate(h, Some(id), env).home;
            var written := WriteCredentials(h, PutInPlace(h, TargetLogin(h, id)));
            && r.slots == RefreshLive(h, env).home.slots
            && (if !env.configWritten && StoredLogin(h).Some? && env.restored then SameLogin(r, h)
                else r.credentials == written.credentials && r.keychain == written.keychain
                     && (!env.configWritten ==> r.config == h.config))
  {
    SwitchTold(h, id, env);
    ActivateLeavesSlots(h, Some(id), env);
    RefreshLeavesTheLogin(h, env);
    SameStoresSameLogin(h, RefreshLive(h, env).home);
    RefreshTold(h, env);
    if StoredLogin(h).Some? {
      RestoreUndoesWrite(h, PutInPlace(h, TargetLogin(h, id)), StoredLogin(h).value);
    }
    WrittenToTold(h, RefreshLive(h, env).home, PutInPlace(h, TargetLogin(h, id)));
    hide RefreshLive, SlotIdFor, LiveKey, LoginIsThere, Compose, MergedConfig, TargetLogin, Refusal;
  }

  lemma WrittenToTold(h: Home, r: Home, login: Json)
    requires r == h.(slots := r.slots, firstSaves := r.firstSaves)
    ensures WriteCredentials(r, login) == WriteCredentials(h, login).(slots := r.slots, firstSaves := r.firstSaves)
    ensures forall live :: WriteCredentials(WriteCredentials(r, login), live)
              == WriteCredentials(WriteCredentials(h, login), live).(slots := r.slots, firstSaves := r.firstSaves)
  {
  }

  /**
   * A switch that fails leaves the login in use as it was, except exactly when it stops halfway and the credentials
   * it wrote are not those that were there.
   */
  lemma FailedSwitchLeavesLoginExactly(h: Home, id: nat, env: Env)
    ensures var r := Activate(h, Some(id), env);
            r.result.Err? && !SameLogin(r.home, h) <==>
              StopsHalfway(h, id, env) && Replaces(h, PutInPlace(h, TargetLogin(h, id)))
  {
    hide RefreshLive, Activate, LiveKey, LoginIsThere, Compose, TargetLogin, StoredLogin, WriteCredentials, Replaces, CanBackUp,
      SlotIsThere;
    SwitchTold(h, id, env);
    if ReachesWrite(h, id, env) && env.credentialsWritten {
      if h.harness.ClaudeCode? {
        WritesTold(h, id, env);
        WriteTold(h, PutInPlace(h, TargetLogin(h, id)));
      }
    }
  }

  // ---------------------------------------------------------------- logins nobody could read

  /** The login that was in use is in its own account's slot. */
  predicate SavedAsIs(h: Home, r: Home) {
    && LiveKey(h).Some? && StoredLogin(h).Some?
    && IsSaved(r.slots, SlotIdFor(LiveKey(h).value))
    && r.slots[SlotIdFor(LiveKey(h).value)].slot.credentials == StoredLogin(h).value
  }

  /**
   * A successful switch leaves the login that was there unsaved exactly if the account was known and the login could
   * not be read, and then it is overwritten.
   */
  lemma UnreadLoginIsOverwrittenExactly(h: Home, id: nat, env: Env)
    ensures var r := Activate(h, Some(id), env);
            r.result.Ok? && LoginIsThere(h) && !SavedAsIs(h, r.home) <==>
              GoesThrough(h, id, env) && LoginIsThere(h) && StoredLogin(h).None?
    ensures GoesThrough(h, id, env) && LoginIsThere(h) && StoredLogin(h).None? ==>
              h.harness.ClaudeCode? && LiveKey(h).Some?
              && Activate(h, Some(id), env).home.credentials == Parsed(TargetLogin(h, id))
  {
    SwitchTold(h, id, env);
    RefreshTold(h, env);
    ActivateLeavesSlots(h, Some(id), env);
    if GoesThrough(h, id, env) && LoginIsThere(h) {
      UnreadIsClaude(h, env);
      if StoredLogin(h).None? {
        WritesTold(h, id, env);
      }
    }
    hide RefreshLive, Activate, SlotIdFor, LiveKey, Compose, TargetLogin;
  }

  lemma UnreadIsClaude(h: Home, env: Env)
    requires CanBackUp(h, env) && LoginIsThere(h)
    ensures LiveKey(h).Some?
    ensures StoredLogin(h).None? ==> h.harness.ClaudeCode? && !WritesKeychain(h)
  {
    hide ConfigIdentity, CodexIdentity;
  }

  // ---------------------------------------------------------------- one operation

  /** A switch to this account that succeeds. */
  ghost predicate SwitchesTo(h: Home, op: Op, key: string) {
    op.ActivateOp? && op.id == Some(SlotIdFor(key)) && Activate(h, op.id, op.env).result.Ok?
  }

  ghost predicate RemovesLogin(h: Home, op: Op, key: string) {
    op.RemoveOp? && op.id == Some(SlotIdFor(key)) && Remove(h, op.id, op.env).result.Ok?
  }

  /** What should become of an account's login: a switch puts it in place, a removal takes it away, else it stays. */
  ghost function After(h: Home, op: Op, key: string, login: Option<Json>): Option<Json> {
    if RemovesLogin(h, op, key) then None
    else if SwitchesTo(h, op, key) && login.Some? then Some(PutInPlace(h, login.value))
    else login
  }

  /** The operation leaves another account's login in use under the identity of the one signed in. */
  predicate Mixes(h: Home, op: Op) {
    && op.ActivateOp? && op.id.Some? && LiveKey(h).Some?
    && StopsHalfway(h, op.id.value, op.env)
    && IsReadBack(h, PutInPlace(h, TargetLogin(h, op.id.value)))
    && Some(PutInPlace(h, TargetLogin(h, op.id.value))) != LoginOf(h, LiveKey(h).value)
  }

  lemma RefreshKeepsLogin(h: Home, env: Env, key: string)
    ensures LoginOf(RefreshLive(h, env).home, key) == LoginOf(h, key)
  {
    RefreshTold(h, env);
    RefreshLeavesTheLogin(h, env);
    SameStoresSameLogin(h, RefreshLive(h, env).home);
    if LiveKey(h).Some? {
      SlotIdsDiffer(LiveKey(h).value, key);
    }
    hide RefreshLive, SlotIdFor, LiveKey, StoredLogin;
  }

  lemma RemoveKeepsLogin(h: Home, op: Op, key: string)
    requires op.RemoveOp?
    ensures LoginOf(Do(h, op), key) == After(h, op, key, LoginOf(h, key))
  {
    RefreshKeepsLogin(h, op.env, key);
    RefreshTold(h, op.env);
    RefreshLeavesTheLogin(h, op.env);
    var refreshed := RefreshLive(h, op.env).home;
    SameStoresSameLogin(h, refreshed);
    SameStoresSameLogin(refreshed, Do(h, op));
    hide RefreshLive, SlotIdFor, LiveKey, StoredLogin;
  }

  /** A switch that does not come as far as the writes, or is undone, changes nobody's login. */
  lemma FailedSwitchKeepsLogin(h: Home, op: Op, key: string)
    requires op.ActivateOp? && Activate(h, op.id, op.env).result.Err?
    requires SameLogin(Do(h, op), h)
    ensures LoginOf(Do(h, op), key) == LoginOf(h, key)
  {
    RefreshKeepsLogin(h, op.env, key);
    ActivateLeavesSlots(h, op.id, op.env);
    RefreshLeavesTheLogin(h, op.env);
    SameLoginSameKey(RefreshLive(h, op.env).home, Do(h, op));
    hide RefreshLive, Activate, SlotIdFor, LiveKey, StoredLogin;
  }

  lemma SameLoginSameKey(h: Home, r: Home)
    requires SameLogin(r, h) && r.harness == h.harness
    ensures LiveKey(r) == LiveKey(h) && StoredLogin(r) == StoredLogin(h)
  {
    hide ConfigIdentity, CodexIdentity;
  }

  /** A saved login belongs to the account its slot is named after. */
  lemma SlotOfKey(h: Home, id: nat, key: string)
    requires Sound(h) && IsSaved(h.slots, id)
    ensures SlotIdFor(key) == id <==> h.slots[id].slot.accountKey == key
    ensures h.harness.Codex? ==> h.slots[id].slot.credentials.Obj?
  {
    hide CodexIdentity, OauthIdentity, OrderIsSound;
    assert SlotIsSound(h.harness, id, h.slots[id].slot);
    hide SlotIdFor;
    SlotIdsDiffer(h.slots[id].slot.accountKey, key);
  }

  lemma TargetIsItsLogin(h: Home, id: nat, key: string)
    requires SlotIsThere(h, id) && SlotIdFor(key) == id
    ensures LoginOf(h, key) == Some(TargetLogin(h, id))
  {
    if LiveKey(h).Some? {
      SlotIdsDiffer(LiveKey(h).value, key);
    }
    hide SlotIdFor, LiveKey, StoredLogin;
  }

  /** What a successful switch leaves in use. */
  lemma StoredAfterSwitch(h: Home, id: nat, env: Env)
    requires Sound(h) && GoesThrough(h, id, env)
    ensures var r := Activate(h, Some(id), env).home;
            StoredLogin(r) == Some(PutInPlace(h, TargetLogin(h, id)))
            || (StoredLogin(r).None? && PutInPlace(h, TargetLogin(h, id)) == TargetLogin(h, id))
  {
    SwitchTold(h, id, env);
    if h.harness.ClaudeCode? {
      WritesTold(h, id, env);
      WriteTold(h, PutInPlace(h, TargetLogin(h, id)));
      ComposedIsReadable(TargetLogin(h, id), StoredLogin(h));
      hide LiveKey, SlotIdFor, Compose, TargetLogin, RefreshLive, Refusal, MergedConfig;
    } else {
      RefreshIsSound(h, env);
      RefreshLeavesTheLogin(h, env);
      SlotOfKey(RefreshLive(h, env).home, id, "");
      hide LiveKey, SlotIdFor, Compose, TargetLogin, RefreshLive, Sound;
    }
  }

  lemma ComposedIsReadable(target: Json, live: Option<Json>)
    ensures Compose(target, live).Obj? || Compose(target, live) == target
  {
  }

  lemma SwitchKeepsLogins(h: Home, id: nat, env: Env, key: string)
    requires Sound(h) && GoesThrough(h, id, env)
    ensures LoginOf(Activate(h, Some(id), env).home, key)
         == After(h, ActivateOp(Some(id), env), key, LoginOf(h, key))
  {
    var refreshed := RefreshLive(h, env).home;
    var r := Activate(h, Some(id), env).home;
    SwitchTold(h, id, env);
    StoredAfterSwitch(h, id, env);
    SwitchDecidesWhoIsSignedIn(h, Some(id), env);
    ActivateLeavesSlots(h, Some(id), env);
    RefreshIsSound(h, env);
    SlotOfKey(refreshed, id, key);
    hide RefreshLive, Activate, SlotIdFor, LiveKey, StoredLogin, TargetLogin, Sound, PutInPlace, ReachesWrite;
    if SlotIdFor(key) == id {
      TargetIsItsLogin(h, id, key);
    } else {
      OtherLoginIsSaved(h, id, env, key);
    }
  }

  lemma OtherLoginIsSaved(h: Home, id: nat, env: Env, key: string)
    requires ReachesWrite(h, id, env)
    ensures LoginOf(h, key) ==
              if IsSaved(RefreshLive(h, env).home.slots, SlotIdFor(key)) then
                Some(RefreshLive(h, env).home.slots[SlotIdFor(key)].slot.credentials)
              else None
  {
    RefreshTold(h, env);
    ReachesMeansBackedUp(h, id, env);
    if LiveKey(h).Some? {
      SlotIdsDiffer(LiveKey(h).value, key);
    }
    hide RefreshLive, SlotIdFor, LiveKey, StoredLogin, ReachesWrite;
  }

  lemma ReachesMeansBackedUp(h: Home, id: nat, env: Env)
    requires ReachesWrite(h, id, env)
    ensures LiveKey(h).Some? ==> KeychainAnswers(h, env.answered) && (StoredLogin(h).Some? ==> env.slotWritten)
  {
    hide LiveKey, StoredLogin;
  }

  /** A switch that stops halfway leaves a foreign login under the old identity, or nobody notices. */
  lemma HalfwaySwitchTold(h: Home, id: nat, env: Env, key: string)
    requires StopsHalfway(h, id, env)
    ensures var composed := PutInPlace(h, TargetLogin(h, id));
            LoginOf(Activate(h, Some(id), env).home, key) ==
              if LiveKey(h) == Some(key) && IsReadBack(h, composed) then Some(composed) else LoginOf(h, key)
  {
    var refreshed := RefreshLive(h, env).home;
    var r := Activate(h, Some(id), env).home;
    var composed := PutInPlace(h, TargetLogin(h, id));
    SwitchTold(h, id, env);
    WritesTold(h, id, env);
    WriteTold(h, composed);
    RefreshTold(h, env);
    RefreshLeavesTheLogin(h, env);
    ConfigDecidesKey(h, r);
    StoredIs(r, WriteCredentials(h, composed));
    ReachesMeansBackedUp(h, id, env);
    if LiveKey(h).Some? {
      SlotIdsDiffer(LiveKey(h).value, key);
    }
    hide RefreshLive, Activate, SlotIdFor, LiveKey, StoredLogin, TargetLogin, PutInPlace, WriteCredentials, ReachesWrite,
      IsReadBack;
  }

  lemma ConfigDecidesKey(h: Home, r: Home)
    requires h.harness.ClaudeCode? && r.harness == h.harness && r.config == h.config
    ensures LiveKey(r) == LiveKey(h)
  {
    hide ConfigIdentity;
  }

  lemma StoredIs(h: Home, r: Home)
    requires r.harness == h.harness && r.credentials == h.credentials && r.keychain == h.keychain
    ensures StoredLogin(r) == StoredLogin(h)
  {
  }

  ghost predicate LoginsFollow(h: Home, op: Op) {
    forall key :: LoginOf(Do(h, op), key) == After(h, op, key, LoginOf(h, key))
  }

  /** An operation does to every account's login what it should, exactly if it does not mix two of them up. */
  lemma LoginsFollowExactly(h: Home, op: Op)
    requires Sound(h)
    ensures LoginsFollow(h, op) <==> !Mixes(h, op)
  {
    hide RefreshLive, Activate, Remove, LoginOf, After, Sound;
    match op
    case ListOp(env) =>
      forall key ensures LoginOf(Do(h, op), key) == After(h, op, key, LoginOf(h, key)) {
        RefreshKeepsLogin(h, env, key);
        ListChangesNone(h, op, key);
      }
    case RemoveOp(id, env) =>
      forall key ensures LoginOf(Do(h, op), key) == After(h, op, key, LoginOf(h, key)) {
        RemoveKeepsLogin(h, op, key);
      }
    case ActivateOp(id, env) => SwitchFollowsExactly(h, op);
  }

  lemma ListChangesNone(h: Home, op: Op, key: string)
    requires op.ListOp? || (op.ActivateOp? && Activate(h, op.id, op.env).result.Err?)
    ensures After(h, op, key, LoginOf(h, key)) == LoginOf(h, key)
  {
    hide Activate, SlotIdFor, LoginOf;
  }

  lemma SwitchFollowsExactly(h: Home, op: Op)
    requires Sound(h) && op.ActivateOp?
    ensures LoginsFollow(h, op) <==> !Mixes(h, op)
  {
    hide RefreshLive, Activate, LoginOf, After, Sound, StopsHalfway, GoesThrough, IsReadBack, PutInPlace, TargetLogin, LiveKey,
      SameLogin, Replaces;
    if op.id.None? {
      NamelessSwitch(h, op);
    } else {
      var id, env := op.id.value, op.env;
      SwitchTold(h, id, env);
      FailedSwitchLeavesLoginExactly(h, id, env);
      if GoesThrough(h, id, env) {
        forall key ensures LoginOf(Do(h, op), key) == After(h, op, key, LoginOf(h, key)) {
          SwitchKeepsLogins(h, id, env, key);
        }
        SuccessIsNotHalfway(h, id, env);
      } else if StopsHalfway(h, id, env) {
        HalfwayFollowsExactly(h, op);
      } else {
        forall key ensures LoginOf(Do(h, op), key) == After(h, op, key, LoginOf(h, key)) {
          FailedSwitchKeepsLogin(h, op, key);
          ListChangesNone(h, op, key);
        }
      }
    }
  }

  lemma NamelessSwitch(h: Home, op: Op)
    requires op.ActivateOp? && op.id.None?
    ensures LoginsFollow(h, op)
  {
    hide LoginOf;
    forall key ensures LoginOf(Do(h, op), key) == After(h, op, key, LoginOf(h, key)) {
    }
  }

  lemma SuccessIsNotHalfway(h: Home, id: nat, env: Env)
    requires GoesThrough(h, id, env)
    ensures !StopsHalfway(h, id, env)
  {
  }

  lemma HalfwayFollowsExactly(h: Home, op: Op)
    requires op.ActivateOp? && op.id.Some? && StopsHalfway(h, op.id.value, op.env)
    ensures LoginsFollow(h, op) <==> !Mixes(h, op)
  {
    hide RefreshLive, Activate, LoginOf, After, IsReadBack, PutInPlace, TargetLogin, LiveKey, ReachesWrite;
    SwitchTold(h, op.id.value, op.env);
    forall key
      ensures LoginOf(Do(h, op), key) == After(h, op, key, LoginOf(h, key)) <==>
                !(Mixes(h, op) && LiveKey(h) == Some(key))
    {
      HalfwaySwitchTold(h, op.id.value, op.env, key);
      ListChangesNone(h, op, key);
    }
    if Mixes(h, op) {
      assert LoginOf(Do(h, op), LiveKey(h).value) != After(h, op, LiveKey(h).value, LoginOf(h, LiveKey(h).value));
    }
  }

  // ---------------------------------------------------------------- every run

  /** The login an account last had: as it was at first, and since then put in place by switches or removed. */
  ghost function LastLogin(h: Home, ops: seq<Op>, key: string): Option<Json> {
    if ops == [] then LoginOf(h, key)
    else
      var init := ops[..|ops| - 1];
      After(DoAll(h, init), ops[|ops| - 1], key, LastLogin(h, init, key))
  }

  ghost predicate AllLoginsKept(h: Home, ops: seq<Op>) {
    forall key :: LoginOf(DoAll(h, ops), key) == LastLogin(h, ops, key)
  }

  ghost predicate MixesAt(h: Home, ops: seq<Op>, n: nat)
    requires n < |ops|
  {
    Mixes(DoAll(h, ops[..n]), ops[n])
  }

  ghost predicate KeptAllAlong(h: Home, ops: seq<Op>) {
    forall n | 0 <= n <= |ops| :: AllLoginsKept(h, ops[..n])
  }

  ghost predicate NeverMixes(h: Home, ops: seq<Op>) {
    forall n | 0 <= n < |ops| :: !MixesAt(h, ops, n)
  }

  lemma OneMoreStep(h: Home, ops: seq<Op>)
    requires ops != []
    ensures var n := |ops| - 1;
            && (KeptAllAlong(h, ops) <==> KeptAllAlong(h, ops[..n]) && AllLoginsKept(h, ops))
            && (NeverMixes(h, ops) <==> NeverMixes(h, ops[..n]) && !Mixes(DoAll(h, ops[..n]), ops[n]))
  {
    hide AllLoginsKept, Mixes, DoAll;
    var n := |ops| - 1;
    assert ops[..|ops|] == ops;
    assert forall k | 0 <= k <= n :: ops[..n][..k] == ops[..k];
    if KeptAllAlong(h, ops) {
      assert AllLoginsKept(h, ops[..|ops|]);
      forall k | 0 <= k <= n ensures AllLoginsKept(h, ops[..n][..k]) {
        assert AllLoginsKept(h, ops[..k]);
      }
    }
    if KeptAllAlong(h, ops[..n]) && AllLoginsKept(h, ops) {
      forall k | 0 <= k <= |ops| ensures AllLoginsKept(h, ops[..k]) {
        if k <= n {
          assert AllLoginsKept(h, ops[..n][..k]);
        }
      }
    }
    assert forall k | 0 <= k < n :: MixesAt(h, ops[..n], k) == MixesAt(h, ops, k);
    assert MixesAt(h, ops, n) == Mixes(DoAll(h, ops[..n]), ops[n]);
  }

  /**
   * Over every run, all along the way: every account's login is the last one it had while it was signed in, in use or
   * in its own slot, exactly if no step of the run mixes two logins up.
   */
  lemma {:induction false} LoginsAreKeptExactly(h: Home, ops: seq<Op>)
    requires Sound(h)
    ensures KeptAllAlong(h, ops) <==> NeverMixes(h, ops)
  {
    if ops == [] {
      assert ops[..0] == ops;
      assert AllLoginsKept(h, ops);
    } else {
      hide Do, LoginOf, After, Mixes, Sound, AllLoginsKept, KeptAllAlong, NeverMixes, LoginsFollow;
      var init := ops[..|ops| - 1];
      LoginsAreKeptExactly(h, init);
      EveryRunIsSound(h, init);
      LoginsFollowExactly(DoAll(h, init), ops[|ops| - 1]);
      OneMoreStep(h, ops);
      if KeptAllAlong(h, init) {
        AllAlongToTheEnd(h, init);
        OneMoreOperation(h, ops);
      }
    }
  }

  lemma AllAlongToTheEnd(h: Home, ops: seq<Op>)
    requires KeptAllAlong(h, ops)
    ensures AllLoginsKept(h, ops)
  {
    hide AllLoginsKept;
    assert ops[..|ops|] == ops;
  }

  lemma OneMoreOperation(h: Home, ops: seq<Op>)
    requires ops != [] && AllLoginsKept(h, ops[..|ops| - 1])
    ensures AllLoginsKept(h, ops) <==> LoginsFollow(DoAll(h, ops[..|ops| - 1]), ops[|ops| - 1])
  {
    hide Do, LoginOf, After;
    var init, last := ops[..|ops| - 1], ops[|ops| - 1];
    var before := DoAll(h, init);
    forall key
      ensures LastLogin(h, ops, key) == After(before, last, key, LoginOf(before, key))
    {
      assert LoginOf(before, key) == LastLogin(h, init, key);
    }
  }

  /** So, unless two were mixed up, the slot of an account that is not signed in holds the last login it had. */
  lemma SlotHoldsTheLastLogin(h: Home, ops: seq<Op>, key: string)
    requires Sound(h) && NeverMixes(h, ops)
    requires LiveKey(DoAll(h, ops)) != Some(key)
    ensures var slots := DoAll(h, ops).slots;
            LastLogin(h, ops, key) ==
              if IsSaved(slots, SlotIdFor(key)) then Some(slots[SlotIdFor(key)].slot.credentials) else None
  {
    hide DoAll, LiveKey, SlotIdFor, StoredLogin, MixesAt, LastLogin;
    LoginsAreKeptExactly(h, ops);
    AllAlongToTheEnd(h, ops);
  }

  // ---------------------------------------------------------------- a login that is lost

  /** After a mix-up the next operation saves the foreign login over the slot of the account that is signed in. */
  lemma MixedUpLoginIsOverwritten(h: Home, op: Op, next: Op)
    requires Sound(h) && Mixes(h, op)
    requires NamesAnAccount(next) && next.env.slotWritten && KeychainAnswers(h, next.env.answered)
    ensures var own := SlotIdFor(LiveKey(h).value);
            var r := Do(Do(h, op), next);
            && IsSaved(r.slots, own)
            && r.slots[own].slot.credentials == PutInPlace(h, TargetLogin(h, op.id.value))
            && Some(r.slots[own].slot.credentials) != LoginOf(h, LiveKey(h).value)
  {
    var id, env := op.id.value, op.env;
    var mixed := Do(h, op);
    HalfwayTold(h, id, env);
    LiveIsDetected(mixed, next.env.answered);
    LiveLoginIsSavedFirst(mixed, next);
    hide LiveKey, StoredLogin, SlotIdFor, Do, LoginOf, Detect;
  }

  lemma HalfwayTold(h: Home, id: nat, env: Env)
    requires StopsHalfway(h, id, env) && IsReadBack(h, PutInPlace(h, TargetLogin(h, id)))
    ensures var r := Activate(h, Some(id), env).home;
            && LiveKey(r) == LiveKey(h) && StoredLogin(r) == Some(PutInPlace(h, TargetLogin(h, id)))
            && r.harness == h.harness && (KeychainAnswers(h, true) && r.keychain.None? <==> h.keychain.None?)
  {
    var r := Activate(h, Some(id), env).home;
    var composed := PutInPlace(h, TargetLogin(h, id));
    SwitchTold(h, id, env);
    WritesTold(h, id, env);
    WriteTold(h, composed);
    ActivateLeavesSlots(h, Some(id), env);
    RefreshLeavesTheLogin(h, env);
    ConfigDecidesKey(h, r);
    StoredIs(r, WriteCredentials(h, composed));
    KeychainStays(h, composed);
    hide RefreshLive, Activate, LiveKey, StoredLogin, TargetLogin, PutInPlace, WriteCredentials, ReachesWrite, IsReadBack;
  }

  lemma KeychainStays(h: Home, login: Json)
    ensures WriteCredentials(h, login).keychain.None? <==> h.keychain.None?
  {
  }

  lemma LiveIsDetected(h: Home, answered: bool)
    requires LiveKey(h).Some? && StoredLogin(h).Some? && KeychainAnswers(h, answered)
    ensures var live := Detect(h, answered);
            && live.Some? && IsReadable(live.value)
            && live.value.identity.key == LiveKey(h).value
            && live.value.credentials.value.value == StoredLogin(h).value
  {
    hide ConfigIdentity, CodexIdentity, SavedConfig;
  }

  // ---------------------------------------------------------------- such stores

  function OauthFor(key: string): Json {
    Obj(map["emailAddress" := Text(key), "accountUuid" := Text(key)])
  }

  function LoginWith(token: string): Json {
    Obj(map["claudeAiOauth" := Text(token)])
  }

  function SlotFor(key: string, token: string): Slot {
    Slot(
      SlotIdFor(key), key, Profile(key, None, None), LoginWith(token),
      Some(Obj(map["oauthAccount" := OauthFor(key)])), 0, Some(0))
  }

  /** Account B is signed in, and account A has a saved login. */
  function TwoAccounts(a: string, credentials: File): Home {
    Home(
      ClaudeCode, map[SlotIdFor("A") := Saved(SlotFor("A", a))],
      Parsed(Obj(map["oauthAccount" := OauthFor("B")])), credentials, None, [SlotIdFor("A")])
  }

  const FINE := Env(1, true, true, true, true, true, true, true)

  /** The configuration cannot be written, and then the old credentials cannot either. */
  const DISK_FULL := FINE.(configWritten := false, restored := false)

  lemma OauthForNames(key: string)
    requires key != []
    ensures OauthIdentity(OauthFor(key)) == Some(Identity(key, Profile(key, None, None)))
  {
    assert |"emailAddress"| == 12 && |"accountUuid"| == 11 && |"displayName"| == 11 && |"organizationName"| == 16;
    assert "accountUuid"[0] == 'a' && "displayName"[0] == 'd';
  }

  lemma TwoAccountsAreSound(a: string, credentials: File)
    ensures var h := TwoAccounts(a, credentials);
            && Sound(h) && LiveKey(h) == Some("B") && SlotIdFor("A") != SlotIdFor("B")
            && IsSaved(h.slots, SlotIdFor("A")) && ReadObject(h.config).Some?
  {
    OauthForNames("A");
    OauthForNames("B");
    SlotIdsDiffer("A", "B");
    hide SlotIdFor, OauthIdentity, OauthFor;
    assert OauthOf(SlotFor("A", a)) == OauthFor("A");
  }

  lemma PlainLoginsCompose(a: string, live: Option<Json>)
    requires live.Some? ==> exists b :: live == Some(LoginWith(b))
    ensures Compose(LoginWith(a), live) == LoginWith(a)
  {
    OauthIsNotShared();
    LoginComesBackVerbatimExactly(LoginWith(a), live);
    hide Compose;
  }

  lemma LoginsDiffer(a: string, b: string)
    requires a != b
    ensures LoginWith(a) != LoginWith(b)
  {
    assert LoginWith(a).fields["claudeAiOauth"] == Text(a) && LoginWith(b).fields["claudeAiOauth"] == Text(b);
  }

  /**
   * B is signed in, and a switch to A writes A's credentials and then neither the configuration nor B's credentials
   * again. The next listing saves A's login as B's: B's own is in no slot and not in use.
   */
  lemma SomeLoginIsLost(a: string, b: string)
    requires a != b
    ensures var h := TwoAccounts(a, Parsed(LoginWith(b)));
            var switch := ActivateOp(Some(SlotIdFor("A")), DISK_FULL);
            var r := Do(Do(h, switch), ListOp(FINE));
            && Sound(h) && LoginOf(h, "B") == Some(LoginWith(b)) && Mixes(h, switch)
            && Activate(h, switch.id, switch.env).result.Err? && !SameLogin(Do(h, switch), h)
            && StoredLogin(r) == Some(LoginWith(a))
            && (forall id | IsSaved(r.slots, id) :: r.slots[id].slot.credentials == LoginWith(a))
  {
    var h := TwoAccounts(a, Parsed(LoginWith(b)));
    var id := SlotIdFor("A");
    var switch := ActivateOp(Some(id), DISK_FULL);
    TwoAccountsAreSound(a, Parsed(LoginWith(b)));
    PlainLoginsCompose(a, Some(LoginWith(b)));
    LoginsDiffer(a, b);
    assert StoredLogin(h) == Some(LoginWith(b));
    assert TargetLogin(h, id) == LoginWith(a);
    assert PutInPlace(h, TargetLogin(h, id)) == LoginWith(a) && StopsHalfway(h, id, DISK_FULL);
    FailedSwitchLeavesLoginExactly(h, id, DISK_FULL);
    LostLoginIsNowhere(h, switch, ListOp(FINE), a);
  }

  lemma LostLoginIsNowhere(h: Home, op: Op, next: Op, a: string)
    requires Sound(h) && Mixes(h, op) && PutInPlace(h, TargetLogin(h, op.id.value)) == LoginWith(a)
    requires next == ListOp(FINE) && h.keychain.None?
    requires forall id | IsSaved(h.slots, id) && id != SlotIdFor(LiveKey(h).value) ::
               h.slots[id].slot.credentials == LoginWith(a)
    ensures var r := Do(Do(h, op), next);
            && StoredLogin(r) == Some(LoginWith(a))
            && (forall id | IsSaved(r.slots, id) :: r.slots[id].slot.credentials == LoginWith(a))
  {
    var mixed := Do(h, op);
    HalfwayTold(h, op.id.value, op.env);
    MixedUpLoginIsOverwritten(h, op, next);
    RefreshTold(h, op.env);
    ActivateLeavesSlots(h, op.id, op.env);
    RefreshTold(mixed, FINE);
    RefreshLeavesTheLogin(mixed, FINE);
    SameStoresSameLogin(mixed, Do(mixed, next));
    hide LiveKey, StoredLogin, SlotIdFor, RefreshLive, Activate, LoginOf, PutInPlace, TargetLogin, Sound, LoginWith;
  }

  /** With a credentials file nobody can read, a switch succeeds, and what was in the file is gone. */
  lemma SomeUnreadLoginIsOverwritten(a: string)
    ensures var h := TwoAccounts(a, Garbage);
            var r := Activate(h, Some(SlotIdFor("A")), FINE);
            r.result.Ok? && LoginIsThere(h) && !SavedAsIs(h, r.home) && r.home.credentials == Parsed(LoginWith(a))
  {
    var h := TwoAccounts(a, Garbage);
    TwoAccountsAreSound(a, Garbage);
    PlainLoginsCompose(a, None);
    assert StoredLogin(h) == None;
    assert GoesThrough(h, SlotIdFor("A"), FINE);
    UnreadLoginIsOverwrittenExactly(h, SlotIdFor("A"), FINE);
  }

  // ---------------------------------------------------------------- there and back

  predicate HoldsObject(h: Home) {
    StoredLogin(h).Some? && StoredLogin(h).value.Obj?
  }

  /**
   * Switching away, doing anything that neither uses nor removes the account, and switching back puts the login in
   * use that was: exactly that one for Codex, and for Claude every field of its own, with the shared tokens now in use.
   */
  lemma SwitchingBackRestoresTheLogin(h: Home, key: string, login: Json, away: Op, ops: seq<Op>, back: Op)
    requires Sound(h) && LiveKey(h) == Some(key) && StoredLogin(h) == Some(login)
    requires away.ActivateOp? && away.id.Some? && away.id != Some(SlotIdFor(key))
    requires Activate(h, away.id, away.env).result.Ok?
    requires forall i | 0 <= i < |ops| :: !Uses(ops[i], SlotIdFor(key))
    requires back.ActivateOp? && back.id == Some(SlotIdFor(key))
    requires Activate(DoAll(Do(h, away), ops), back.id, back.env).result.Ok?
    ensures var before := DoAll(Do(h, away), ops);
            var r := Do(before, back);
            && LiveKey(r) == Some(key)
            && LoginOf(r, key) == Some(PutInPlace(before, login))
            && (h.harness.ClaudeCode? && IsOAuthLogin(login) && HoldsObject(before) ==>
                  forall name :: Field(LoginOf(r, key).value, name) ==
                    if name in SHARED_KEYS then Field(StoredLogin(before).value, name) else Field(login, name))
  {
    if h.harness.ClaudeCode? && IsOAuthLogin(login) && HoldsObject(DoAll(Do(h, away), ops)) {
      forall name { ComposedFields(login, StoredLogin(DoAll(Do(h, away), ops)).value, name); }
    }
    var left := Do(h, away);
    var before := DoAll(left, ops);
    SwitchedAwaySavesTheLogin(h, key, login, away);
    DoIsSound(h, away);
    SavedLoginIsKept(left, ops, key);
    EveryRunIsSound(left, ops);
    SwitchTold(before, SlotIdFor(key), back.env);
    SwitchKeepsLogins(before, SlotIdFor(key), back.env, key);
    SwitchDecidesWhoIsSignedIn(before, back.id, back.env);
    DoIsSound(before, back);
    SlotOfKey(Do(before, back), SlotIdFor(key), key);
    hide LiveKey, StoredLogin, SlotIdFor, Activate, PutInPlace, Sound, DoAll;
  }

  lemma SwitchedAwaySavesTheLogin(h: Home, key: string, login: Json, away: Op)
    requires Sound(h) && LiveKey(h) == Some(key) && StoredLogin(h) == Some(login)
    requires away.ActivateOp? && away.id.Some? && away.id != Some(SlotIdFor(key))
    requires Activate(h, away.id, away.env).result.Ok?
    ensures var r := Do(h, away);
            && LiveKey(r) != Some(key)
            && IsSaved(r.slots, SlotIdFor(key)) && r.slots[SlotIdFor(key)].slot.credentials == login
  {
    var id := away.id.value;
    SwitchTold(h, id, away.env);
    ReachesMeansBackedUp(h, id, away.env);
    RefreshTold(h, away.env);
    ActivateLeavesSlots(h, away.id, away.env);
    SwitchDecidesWhoIsSignedIn(h, away.id, away.env);
    DoIsSound(h, away);
    SlotOfKey(Do(h, away), id, key);
    hide LiveKey, StoredLogin, SlotIdFor, Activate, RefreshLive, Sound;
  }
}
