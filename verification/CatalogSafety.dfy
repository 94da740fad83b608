/** What overlapping callers of one model catalog can rely on, in every order of their steps. */
module CatalogSafety {
  import opened Wrappers
  import opened Catalog

  // ---------------------------------------------------------------- where a list comes from

  /** Nobody else entered, finished or gave the lock up between the two steps. */
  predicate Undisturbed(log: seq<Step>, from: nat, to: nat)
    requires to <= |log|
  {
    forall m | from < m < to :: log[m].Ask? || log[m].Probe? || log[m].GiveUp? || log[m].Tick?
  }

  ghost predicate VouchedAt(log: seq<Step>, key: Key, models: seq<Model>, i: nat, j: nat, k: nat) {
    && i < j < k < |log|
    && log[i].Enter? && log[i].context == Some(key)
    && log[j] == Probe(Ok(models)) && models != []
    && log[k] == Finish(Some(key))
    && Undisturbed(log, i, k)
  }

  /** Discovery answered with this list, and the login was the same right before and right after it. */
  ghost predicate Vouched(log: seq<Step>, key: Key, models: seq<Model>) {
    exists i, j, k :: VouchedAt(log, key, models, i, j, k)
  }

  predicate Found(log: seq<Step>, since: nat, models: seq<Model>) {
    models != [] && exists j | since < j < |log| :: log[j] == Probe(Ok(models))
  }

  /** How often the agent was asked in these steps. */
  function Asks(log: seq<Step>): nat {
    if log == [] then 0 else Asks(log[..|log| - 1]) + if log[|log| - 1].Ask? then 1 else 0
  }

  /** The refresh under way is the one its caller entered with. */
  predicate RefreshIsOpen(log: seq<Step>, context: Option<Key>, r: Refresh) {
    && context == Some(r.key)
    && r.since < |log|
    && log[r.since].Enter? && log[r.since].context == Some(r.key)
    && Undisturbed(log, r.since, |log|)
    && (r.result.Some? && r.result.value.Ok? ==> Found(log, r.since, r.result.value.value))
    && r.attempts == Asks(log[r.since + 1..]) <= ATTEMPTS
    && (r.result.None? && !r.asking ==> r.attempts < ATTEMPTS)
  }

  ghost predicate CacheIsVouched(log: seq<Step>, cache: Cache) {
    cache.models.Some? ==> cache.context.Some? && Vouched(log, cache.context.value, cache.models.value)
  }

  ghost predicate AnswerIsVouched(log: seq<Step>, answer: Answer) {
    answer.Served? && answer.reply.Ok? ==> Vouched(log, answer.key, answer.reply.value)
  }

  ghost predicate AnswersAreVouched(log: seq<Step>, answers: seq<Answer>) {
    forall a | 0 <= a < |answers| :: AnswerIsVouched(log, answers[a])
  }

  /** A cache that was ever refreshed holds a list or says why not. */
  predicate Explained(cache: Cache) {
    && (cache.retryAt.Some? <==> cache.completedAt.Some?)
    && (cache.completedAt.Some? ==> cache.models.Some? || cache.error.Some?)
  }

  predicate ProbesAreBounded(w: World) {
    w.probes + (if w.refresh.Some? then ATTEMPTS - w.refresh.value.attempts else 0) <= ATTEMPTS * w.refreshes
  }

  ghost predicate Sound(w: World) {
    && w.snapshot == w.cache.models
    && CacheIsVouched(w.log, w.cache)
    && AnswersAreVouched(w.log, w.answers)
    && (w.refresh.Some? ==> RefreshIsOpen(w.log, w.cache.context, w.refresh.value))
    && Explained(w.cache)
    && ProbesAreBounded(w)
  }

  lemma VouchedGrows(log: seq<Step>, step: Step, key: Key, models: seq<Model>)
    requires Vouched(log, key, models)
    ensures Vouched(log + [step], key, models)
  {
    var i, j, k :| VouchedAt(log, key, models, i, j, k);
    assert VouchedAt(log + [step], key, models, i, j, k);
  }

  lemma ListsStayVouched(w: World, step: Step)
    requires CacheIsVouched(w.log, w.cache) && AnswersAreVouched(w.log, w.answers)
    ensures CacheIsVouched(w.log + [step], w.cache) && AnswersAreVouched(w.log + [step], w.answers)
  {
    hide Vouched;
    if w.cache.models.Some? {
      VouchedGrows(w.log, step, w.cache.context.value, w.cache.models.value);
    }
    forall a | 0 <= a < |w.answers| ensures AnswerIsVouched(w.log + [step], w.answers[a]) {
      assert AnswerIsVouched(w.log, w.answers[a]);
      if w.answers[a].Served? && w.answers[a].reply.Ok? {
        VouchedGrows(w.log, step, w.answers[a].key, w.answers[a].reply.value);
      }
    }
  }

  lemma AnswerJoins(log: seq<Step>, answers: seq<Answer>, answer: Answer)
    requires AnswersAreVouched(log, answers) && AnswerIsVouched(log, answer)
    ensures AnswersAreVouched(log, answers + [answer])
  {
    hide AnswerIsVouched;
  }

  lemma EnterIsSound(w: World, force: bool, requestedAt: int, key: Key)
    requires Sound(w) && Enabled(w, Enter(force, requestedAt, Some(key)))
    ensures Sound(Advance(w, Enter(force, requestedAt, Some(key))))
  {
    hide Vouched, AnswersAreVouched;
    var step := Enter(force, requestedAt, Some(key));
    ListsStayVouched(w, step);
    var cache := ForKey(w.cache, key);
    assert CacheIsVouched(w.log + [step], cache);
    if AnswersAtOnce(cache, force, requestedAt, w.now) {
      AnswerJoins(w.log + [step], w.answers, Served(key, Cached(cache)));
    }
  }

  lemma AsksAppend(log: seq<Step>, from: nat, step: Step)
    requires from <= |log|
    ensures Asks((log + [step])[from..]) == Asks(log[from..]) + if step.Ask? then 1 else 0
  {
    assert (log + [step])[from..] == log[from..] + [step];
    assert (log[from..] + [step])[..|log[from..]|] == log[from..];
  }

  lemma AskIsSound(w: World)
    requires Sound(w) && Enabled(w, Ask)
    ensures Sound(Advance(w, Ask))
  {
    hide Vouched, AnswersAreVouched, Asks;
    ListsStayVouched(w, Ask);
    AsksAppend(w.log, w.refresh.value.since + 1, Ask);
  }

  lemma ProbeIsSound(w: World, reply: Reply)
    requires Sound(w) && Enabled(w, Probe(reply))
    ensures Sound(Advance(w, Probe(reply)))
  {
    hide Vouched, AnswersAreVouched, Hopeless, Asks;
    var step := Probe(reply);
    ListsStayVouched(w, step);
    AsksAppend(w.log, w.refresh.value.since + 1, step);
    var r := AfterReply(w.refresh.value, reply);
    if r.result.Some? && r.result.value.Ok? {
      assert (w.log + [step])[|w.log|] == Probe(Ok(r.result.value.value));
    }
    assert RefreshIsOpen(w.log + [step], w.cache.context, r);
  }

  lemma FinishIsSound(w: World, key: Key)
    requires Sound(w) && Enabled(w, Finish(Some(key)))
    ensures Sound(Advance(w, Finish(Some(key))))
  {
    hide AnswersAreVouched, Hopeless;
    var step := Finish(Some(key));
    var log := w.log + [step];
    ListsStayVouched(w, step);
    var r := w.refresh.value;
    if key == r.key {
      var cache := Completed(w.cache, r.result.value, w.now);
      if r.result.value.Ok? {
        var models := r.result.value.value;
        var j :| r.since < j < |w.log| && w.log[j] == Probe(Ok(models));
        assert VouchedAt(log, key, models, r.since, j, |w.log|);
      }
      assert CacheIsVouched(log, cache);
      AnswerJoins(log, w.answers, Served(key, Cached(cache)));
    } else {
      AnswerJoins(log, w.answers, LoginChanged);
    }
  }

  lemma StepIsSound(w: World, step: Step)
    requires Sound(w)
    ensures Sound(Advance(w, step))
  {
    hide Vouched, AnswersAreVouched, EnterWith, FinishWith, AfterReply, Undisturbed, Asks;
    if Enabled(w, step) {
      ListsStayVouched(w, step);
      if step.Enter? && step.context.Some? {
        EnterIsSound(w, step.force, step.requestedAt, step.context.value);
      } else if step.Finish? && step.context.Some? {
        FinishIsSound(w, step.context.value);
      } else if step.Ask? {
        AskIsSound(w);
      } else if step.Probe? {
        ProbeIsSound(w, step.reply);
      } else if step.GiveUp? || step.Tick? {
        if w.refresh.Some? {
          OpenStaysOpen(w.log, w.cache.context, w.refresh.value, step);
        }
      } else {
        AnswerJoins(w.log + [step], w.answers, Keyless);
      }
    }
  }

  lemma OpenStaysOpen(log: seq<Step>, context: Option<Key>, r: Refresh, step: Step)
    requires RefreshIsOpen(log, context, r) && (step.GiveUp? || step.Tick?)
    ensures RefreshIsOpen(log + [step], context, r)
    ensures RefreshIsOpen(log + [step], context, r.(result := Some(Err(TIMED_OUT))))
  {
    hide Asks;
    AsksAppend(log, r.since + 1, step);
    if r.result.Some? && r.result.value.Ok? {
      var j :| r.since < j < |log| && log[j] == Probe(Ok(r.result.value.value));
      assert (log + [step])[j] == log[j];
    }
  }

  /**
   * In every order of every caller's steps: each list that is cached or was ever answered for a login was discovered
   * while that login was the current one before and after, no such list is empty, and the copy read without the lock
   * is the locked one.
   */
  lemma {:induction false} EveryRunIsSound(start: int, steps: seq<Step>)
    ensures Sound(Run(Start(start), steps))
  {
    if steps != [] {
      hide Sound, Advance;
      EveryRunIsSound(start, steps[..|steps| - 1]);
      StepIsSound(Run(Start(start), steps[..|steps| - 1]), steps[|steps| - 1]);
    }
  }

  lemma NoListIsEmpty(start: int, steps: seq<Step>)
    ensures var w := Run(Start(start), steps);
            && w.snapshot == w.cache.models
            && (w.snapshot.Some? ==> w.snapshot.value != [])
            && (forall a | 0 <= a < |w.answers| ::
                  w.answers[a].Served? && w.answers[a].reply.Ok? ==> w.answers[a].reply.value != [])
  {
    EveryRunIsSound(start, steps);
    var w := Run(Start(start), steps);
    hide Run;
    forall a | 0 <= a < |w.answers| && w.answers[a].Served? && w.answers[a].reply.Ok?
      ensures w.answers[a].reply.value != []
    {
      assert AnswerIsVouched(w.log, w.answers[a]);
    }
  }

  /** From every caller's entry until somebody enters, finishes or gives up, the agent is asked at most three times. */
  predicate AsksAreBounded(log: seq<Step>) {
    forall i, k | 0 <= i < k <= |log| && log[i].Enter? && Undisturbed(log, i, k) :: Asks(log[i + 1..k]) <= ATTEMPTS
  }

  lemma OneMoreStepAsks(w: World, step: Step)
    requires Sound(w) && AsksAreBounded(w.log) && Enabled(w, step)
    ensures AsksAreBounded(w.log + [step])
  {
    hide Asks, Vouched, AnswersAreVouched;
    var log := w.log + [step];
    assert forall m | 0 <= m < |w.log| :: log[m] == w.log[m];
    forall i, k | 0 <= i < k <= |log| && log[i].Enter? && Undisturbed(log, i, k)
      ensures Asks(log[i + 1..k]) <= ATTEMPTS
    {
      if k <= |w.log| {
        assert log[i + 1..k] == w.log[i + 1..k];
        assert Undisturbed(w.log, i, k) by { SameStretch(w.log, step, i, k); }
      } else if i == |w.log| {
        assert log[i + 1..k] == [] && Asks([]) == 0 by { NoAsks(); }
      } else {
        AsksAppend(w.log, i + 1, step);
        assert log[i + 1..] == log[i + 1..k] && w.log[i + 1..] == w.log[i + 1..|w.log|];
        assert Undisturbed(w.log, i, |w.log|) by { SameStretch(w.log, step, i, |w.log|); }
        if step.Ask? {
          assert i == w.refresh.value.since;
        }
      }
    }
  }

  lemma SameStretch(log: seq<Step>, step: Step, from: nat, to: nat)
    requires from < to <= |log|
    ensures Undisturbed(log + [step], from, to) == Undisturbed(log, from, to)
    ensures Undisturbed(log + [step], from, |log| + 1) ==> Undisturbed(log, from, to)
  {
    assert forall m | 0 <= m < |log| :: (log + [step])[m] == log[m];
  }

  lemma NoAsks()
    ensures Asks([]) == 0
  {
  }

  lemma {:induction false} EveryRunBoundsAsks(start: int, steps: seq<Step>)
    ensures AsksAreBounded(Run(Start(start), steps).log)
  {
    if steps != [] {
      hide Sound, AsksAreBounded, Take, Enabled;
      EveryRunBoundsAsks(start, steps[..|steps| - 1]);
      EveryRunIsSound(start, steps[..|steps| - 1]);
      var w := Run(Start(start), steps[..|steps| - 1]);
      if Enabled(w, steps[|steps| - 1]) {
        OneMoreStepAsks(w, steps[|steps| - 1]);
      }
    }
  }

  /** No refresh asks more than three times, an unanswered request included; nor do all of them together more than that each. */
  lemma AtMostThreeProbesPerRefresh(start: int, steps: seq<Step>)
    ensures var w := Run(Start(start), steps);
            && w.probes <= ATTEMPTS * w.refreshes
            && (forall i, k | 0 <= i < k <= |w.log| && w.log[i].Enter? && Undisturbed(w.log, i, k) ::
                  Asks(w.log[i + 1..k]) <= ATTEMPTS)
  {
    EveryRunIsSound(start, steps);
    EveryRunBoundsAsks(start, steps);
    hide Run;
  }

  // ---------------------------------------------------------------- when nobody asks again

  /** A call for this login, issued before `done` or content with what is there until `retryAt`. */
  predicate ContentWith(step: Step, key: Key, done: int, cooling: bool) {
    step.Enter? ==>
      && (step.context.None? || step.context == Some(key))
      && (step.requestedAt <= done || (!step.force && cooling))
  }

  predicate At(w: World, key: Key, done: int, retryAt: int) {
    && w.refresh.None?
    && w.cache.context == Some(key)
    && w.cache.completedAt == Some(done)
    && w.cache.retryAt == Some(retryAt)
  }

  lemma {:induction false} ClockOnlyAdvances(w: World, steps: seq<Step>)
    ensures Run(w, steps).now >= w.now
  {
    if steps != [] {
      hide EnterWith, FinishWith, AfterReply;
      ClockOnlyAdvances(w, steps[..|steps| - 1]);
    }
  }

  /**
   * Once a refresh has completed, no caller that asked before then asks the agent again, however many there are and
   * whether or not they insist; and until the cooldown is over, no caller does that does not insist.
   */
  lemma {:induction false} NobodyAsksAgain(w: World, steps: seq<Step>, key: Key, done: int, retryAt: int)
    requires At(w, key, done, retryAt)
    requires forall i | 0 <= i < |steps| :: ContentWith(steps[i], key, done, Run(w, steps).now < retryAt)
    ensures var v := Run(w, steps);
            At(v, key, done, retryAt) && v.cache == w.cache && v.refreshes == w.refreshes && v.probes == w.probes
  {
    hide FinishWith, AfterReply;
    if steps != [] {
      var init, last := steps[..|steps| - 1], steps[|steps| - 1];
      var before := Run(w, init);
      ClockOnlyAdvances(before, [last]);
      assert [last][..0] == [] && Run(before, [last]) == Advance(before, last);
      assert forall i | 0 <= i < |init| :: init[i] == steps[i];
      NobodyAsksAgain(w, init, key, done, retryAt);
      assert ContentWith(last, key, done, Run(w, steps).now < retryAt);
    }
  }

  /** A refresh that finishes under its own login starts that time. */
  lemma FinishedRefreshCoolsDown(w: World, key: Key)
    requires Enabled(w, Finish(Some(key))) && w.refresh.value.key == key && w.cache.context == Some(key)
    ensures At(Advance(w, Finish(Some(key))), key, w.now, w.now + Cooldown(w.refresh.value.result.value))
  {
    hide Hopeless;
  }

  /** The time of the last completed refresh and the end of its cooldown. */
  function CoveredUntil(w: World, result: Reply): int {
    w.now + Cooldown(result)
  }

  /**
   * In every run: once a refresh has finished under its own login, none of the callers it covers asks the agent again,
   * however many there are and in whatever order they come.
   */
  lemma NobodyAsksAfterAFinishedRefresh(start: int, before: seq<Step>, key: Key, steps: seq<Step>)
    requires var w := Run(Start(start), before); Enabled(w, Finish(Some(key))) && w.refresh.value.key == key
    requires var w := Run(Start(start), before);
             var end := Run(Start(start), before + [Finish(Some(key))] + steps).now;
             forall i | 0 <= i < |steps| ::
               ContentWith(steps[i], key, w.now, end < CoveredUntil(w, w.refresh.value.result.value))
    ensures var w := Run(Start(start), before);
            var v := Run(Start(start), before + [Finish(Some(key))] + steps);
            && v.probes == w.probes && v.refreshes == w.refreshes && v.refresh.None?
            && v.cache == Completed(w.cache, w.refresh.value.result.value, w.now)
  {
    var w := Run(Start(start), before);
    EveryRunIsSound(start, before);
    hide Run, Sound, Completed, Advance, Cooldown, ContentWith;
    FinishTold(w, key);
    RunsOn(Start(start), before, Finish(Some(key)), steps);
    NobodyAsksAgain(
      Advance(w, Finish(Some(key))), steps, key, w.now, CoveredUntil(w, w.refresh.value.result.value));
  }

  lemma FinishTold(w: World, key: Key)
    requires Sound(w) && Enabled(w, Finish(Some(key))) && w.refresh.value.key == key
    ensures var v := Advance(w, Finish(Some(key)));
            && At(v, key, w.now, CoveredUntil(w, w.refresh.value.result.value))
            && v.probes == w.probes && v.refreshes == w.refreshes
            && v.cache == Completed(w.cache, w.refresh.value.result.value, w.now)
  {
    assert RefreshIsOpen(w.log, w.cache.context, w.refresh.value);
    FinishedRefreshCoolsDown(w, key);
    hide Sound, RefreshIsOpen, Hopeless;
  }

  lemma RunsOn(w: World, before: seq<Step>, step: Step, steps: seq<Step>)
    ensures Run(w, before + [step] + steps) == Run(Advance(Run(w, before), step), steps)
  {
    hide Run, Advance;
    RunJoins(w, before + [step], steps);
    RunJoins(w, before, [step]);
    RunOfOne(Run(w, before), step);
  }

  // ---------------------------------------------------------------- what a refresh changes

  /** Until it finishes, a refresh changes nothing others see; canceling it loses nothing. */
  lemma {:induction false} RefreshingLeavesTheCache(w: World, steps: seq<Step>)
    requires forall i | 0 <= i < |steps| :: !steps[i].Enter? && !steps[i].Finish?
    ensures Run(w, steps).cache == w.cache && Run(w, steps).snapshot == w.snapshot
    ensures Run(w, steps).answers == w.answers
  {
    hide AfterReply;
    if steps != [] {
      var init, last := steps[..|steps| - 1], steps[|steps| - 1];
      assert forall i | 0 <= i < |init| :: init[i] == steps[i];
      RefreshingLeavesTheCache(w, init);
      assert last == steps[|steps| - 1];
    }
  }

  /** A failure that may pass keeps the last good list; a missing login or program drops it. */
  lemma FailureKeepsOrDrops(w: World, key: Key, failure: Failure)
    requires Sound(w) && w.refresh.Some? && w.refresh.value.key == key && w.refresh.value.result == Some(Err(failure))
    ensures var v := Advance(w, Finish(Some(key)));
            && v.cache.models == (if failure.code.AllowsStale() then w.cache.models else None)
            && v.answers == w.answers + [Served(key,
                 if failure.code.AllowsStale() && w.cache.models.Some? then Ok(w.cache.models.value) else Err(failure))]
            && v.cache.completedAt == Some(w.now)
            && v.cache.retryAt == Some(w.now + if Hopeless(failure) then LONG_COOLDOWN else SHORT_COOLDOWN)
  {
    hide Vouched, Hopeless;
  }

  /** A caller is never turned away without a list or the reason there is none. */
  lemma AnswersAreExplained(start: int, steps: seq<Step>, force: bool, requestedAt: int, key: Key)
    ensures var w := Run(Start(start), steps);
            AnswersAtOnce(ForKey(w.cache, key), force, requestedAt, w.now) ==>
              ForKey(w.cache, key).models.Some? || ForKey(w.cache, key).error.Some?
  {
    EveryRunIsSound(start, steps);
    hide Run;
  }

  // ---------------------------------------------------------------- which list is cached

  /** A refresh that failed in a way that may pass. */
  predicate KeepsList(change: Change, key: Key) {
    change.Refreshed? && change.key == key && change.reply.Err? && change.reply.error.code.AllowsStale()
  }

  /** The last refresh of this login that found a list; since then refreshes only failed in ways that may pass. */
  predicate LastGoodAt(history: seq<Change>, k: nat, key: Key, models: seq<Model>) {
    && k < |history| && history[k] == Refreshed(key, Ok(models))
    && forall m | k < m < |history| :: KeepsList(history[m], key)
  }

  predicate IsLastGood(history: seq<Change>, key: Key, models: seq<Model>) {
    exists k: nat | k < |history| :: LastGoodAt(history, k, key, models)
  }

  /** What one more change does to the last good list. */
  lemma LastGoodAppends(history: seq<Change>, change: Change, key: Key, models: seq<Model>)
    ensures IsLastGood(history + [change], key, models) <==>
            change == Refreshed(key, Ok(models)) || (IsLastGood(history, key, models) && KeepsList(change, key))
  {
    var longer := history + [change];
    if IsLastGood(longer, key, models) {
      var k: nat :| k < |longer| && LastGoodAt(longer, k, key, models);
      if k < |history| {
        assert KeepsList(longer[|history|], key);
        assert LastGoodAt(history, k, key, models) by {
          assert forall m | k < m < |history| :: longer[m] == history[m];
        }
      }
    }
    if change == Refreshed(key, Ok(models)) {
      assert LastGoodAt(longer, |history|, key, models);
    }
    if IsLastGood(history, key, models) && KeepsList(change, key) {
      var k: nat :| k < |history| && LastGoodAt(history, k, key, models);
      assert LastGoodAt(longer, k, key, models);
    }
  }

  ghost predicate ListIsLastGood(w: World) {
    forall key, models ::
      w.cache.context == Some(key) && w.cache.models == Some(models) <==> IsLastGood(w.history, key, models)
  }

  lemma FinishKeepsLastGood(w: World, key: Key)
    requires Sound(w) && ListIsLastGood(w) && Enabled(w, Finish(Some(key)))
    ensures ListIsLastGood(Advance(w, Finish(Some(key))))
  {
    hide IsLastGood, Hopeless, CacheIsVouched, AnswersAreVouched, Vouched, Asks;
    var v := Advance(w, Finish(Some(key)));
    var r := w.refresh.value;
    var change := if key == r.key then Refreshed(key, r.result.value) else Forgotten;
    if key == r.key && r.result.value.Err? {
      FailureKeepsOrDrops(w, key, r.result.value.error);
    }
    forall k, models
      ensures v.cache.context == Some(k) && v.cache.models == Some(models) <==> IsLastGood(v.history, k, models)
    {
      LastGoodAppends(w.history, change, k, models);
    }
  }

  lemma EnterKeepsLastGood(w: World, force: bool, requestedAt: int, key: Key)
    requires ListIsLastGood(w) && Enabled(w, Enter(force, requestedAt, Some(key)))
    ensures ListIsLastGood(Advance(w, Enter(force, requestedAt, Some(key))))
  {
    hide IsLastGood;
    var v := Advance(w, Enter(force, requestedAt, Some(key)));
    forall k, models
      ensures v.cache.context == Some(k) && v.cache.models == Some(models) <==> IsLastGood(v.history, k, models)
    {
      LastGoodAppends(w.history, LoginSwitched(key), k, models);
    }
  }

  lemma StepKeepsLastGood(w: World, step: Step)
    requires Sound(w) && ListIsLastGood(w)
    ensures ListIsLastGood(Advance(w, step))
  {
    hide IsLastGood, EnterWith, FinishWith, AfterReply, CacheIsVouched, AnswersAreVouched, RefreshIsOpen;
    if Enabled(w, step) {
      if step.Enter? && step.context.Some? {
        EnterKeepsLastGood(w, step.force, step.requestedAt, step.context.value);
      } else if step.Finish? && step.context.Some? {
        FinishKeepsLastGood(w, step.context.value);
      }
    }
  }

  /**
   * Over every run: a list is cached for a login exactly if that login's last successful refresh found it and every
   * change since was a refresh for that login that failed in a way that may pass.
   */
  lemma CachedListIsTheLastGoodOne(start: int, steps: seq<Step>, key: Key, models: seq<Model>)
    ensures var w := Run(Start(start), steps);
            w.cache.context == Some(key) && w.cache.models == Some(models) <==> IsLastGood(w.history, key, models)
  {
    EveryRunKeepsLastGood(start, steps);
    hide IsLastGood, Run;
  }

  lemma {:induction false} EveryRunKeepsLastGood(start: int, steps: seq<Step>)
    ensures ListIsLastGood(Run(Start(start), steps))
  {
    if steps != [] {
      hide Sound, ListIsLastGood, Advance;
      EveryRunKeepsLastGood(start, steps[..|steps| - 1]);
      EveryRunIsSound(start, steps[..|steps| - 1]);
      StepKeepsLastGood(Run(Start(start), steps[..|steps| - 1]), steps[|steps| - 1]);
    }
  }

  // ---------------------------------------------------------------- who asks

  datatype Ended = Ended(at: int, reply: Reply)

  /** The login callers came with last; a refresh that met another one forgets it. */
  function LoginTold(start: int, steps: seq<Step>): Option<Key> {
    if steps == [] then None
    else
      var init, last := steps[..|steps| - 1], steps[|steps| - 1];
      var w := Run(Start(start), init);
      if !Enabled(w, last) then LoginTold(start, init)
      else
        match last
        case Enter(_, _, Some(key)) => Some(key)
        case Finish(Some(key)) => if key == w.refresh.value.key then LoginTold(start, init) else None
        case _ => LoginTold(start, init)
  }

  /** The refresh of that login which ended last. */
  function LatestRefresh(start: int, steps: seq<Step>): Option<Ended> {
    if steps == [] then None
    else
      var init, last := steps[..|steps| - 1], steps[|steps| - 1];
      var w := Run(Start(start), init);
      if !Enabled(w, last) then LatestRefresh(start, init)
      else
        match last
        case Enter(_, _, Some(key)) => if LoginTold(start, init) == Some(key) then LatestRefresh(start, init) else None
        case Finish(Some(key)) =>
          if key == w.refresh.value.key then Some(Ended(w.now, w.refresh.value.result.value)) else None
        case _ => LatestRefresh(start, init)
  }

  /** What a refresh begun at this step of the log has found: the first list, what cannot be mended, or the third failure. */
  function Verdict(log: seq<Step>, since: nat): Option<Reply> {
    if |log| <= since + 1 then None
    else
      var before, last := Verdict(log[..|log| - 1], since), log[|log| - 1];
      if before.Some? then before
      else
        match last
        case GiveUp => Some(Err(Failure(Timeout, "Harness model discovery timed out")))
        case Probe(reply) =>
          if reply.Ok? && reply.value != [] then Some(reply)
          else
            var failure := if reply.Ok? then EMPTY_LIST else reply.error;
            if Asks(log[since + 1..]) >= 3 || Rest(Err(failure)) == 60_000 then Some(Err(failure)) else None
        case _ => None
  }

  ghost predicate RefreshTells(w: World) {
    w.refresh.Some? ==> w.refresh.value.result == Verdict(w.log, w.refresh.value.since)
  }

  lemma StepTellsVerdict(w: World, step: Step)
    requires RefreshTells(w) && Sound(w) && Enabled(w, step)
    ensures RefreshTells(Advance(w, step))
  {
    hide NeedsCooldown, AnswersAtOnce, Vouched, AnswersAreVouched, Asks;
    assert (w.log + [step])[..|w.log|] == w.log;
    if w.refresh.Some? {
      var from := w.refresh.value.since + 1;
      AsksAppend(w.log, from, step);
      assert w.log[from..] == w.log[from..|w.log|];
    }
  }

  /** In every run, what an open refresh has found is decided by the answers since its caller entered. */
  lemma {:induction false} RefreshesFindWhatTheyAreTold(start: int, steps: seq<Step>)
    ensures RefreshTells(Run(Start(start), steps))
  {
    if steps != [] {
      hide Sound, RefreshTells, Take, Enabled;
      RefreshesFindWhatTheyAreTold(start, steps[..|steps| - 1]);
      EveryRunIsSound(start, steps[..|steps| - 1]);
      var w := Run(Start(start), steps[..|steps| - 1]);
      if Enabled(w, steps[|steps| - 1]) {
        StepTellsVerdict(w, steps[|steps| - 1]);
      }
    }
  }

  /** A minute after a list or a refusal, ten seconds after a failure that may pass. */
  function Rest(reply: Reply): int {
    if reply.Err? && reply.error.code.AllowsStale() && !NeedsCooldown(reply.error.message) then 10_000 else 60_000
  }

  predicate CacheTells(cache: Cache, login: Option<Key>, latest: Option<Ended>) {
    && cache.context == login
    && (latest.None? ==> cache.completedAt.None? && cache.retryAt.None?)
    && (latest.Some? ==>
          cache.completedAt == Some(latest.value.at) && cache.retryAt == Some(latest.value.at + Rest(latest.value.reply)))
    && cache.error == if latest.Some? && latest.value.reply.Err? then Some(latest.value.reply.error) else None
  }

  lemma {:induction false} EveryRunTellsRefreshes(start: int, steps: seq<Step>)
    ensures CacheTells(Run(Start(start), steps).cache, LoginTold(start, steps), LatestRefresh(start, steps))
  {
    if steps != [] {
      var init := steps[..|steps| - 1];
      EveryRunTellsRefreshes(start, init);
      hide NeedsCooldown, Run, AnswersAtOnce, IsList;
      assert Run(Start(start), steps) == Advance(Run(Start(start), init), steps[|steps| - 1]) by { RunByLast(start, steps); }
    }
  }

  lemma RunByLast(start: int, steps: seq<Step>)
    requires steps != []
    ensures Run(Start(start), steps) == Advance(Run(Start(start), steps[..|steps| - 1]), steps[|steps| - 1])
  {
  }

  /**
   * In every run, a caller refreshes exactly if no refresh of its login has ended since it asked, and it insists or the
   * last one's time is over: a forced call issued after the last refresh always asks the agent.
   */
  lemma CallerRefreshesExactly(start: int, steps: seq<Step>, force: bool, requestedAt: int, key: Key)
    requires Enabled(Run(Start(start), steps), Enter(force, requestedAt, Some(key)))
    ensures var w := Run(Start(start), steps);
            var v := Advance(w, Enter(force, requestedAt, Some(key)));
            var latest := if LoginTold(start, steps) == Some(key) then LatestRefresh(start, steps) else None;
            && (v.refresh.Some? <==>
                  latest.None?
                  || (latest.value.at < requestedAt
                      && (force || w.now >= latest.value.at + Rest(latest.value.reply))))
            && (v.refresh.Some? ==> v.refresh.value.key == key && Enabled(v, Ask) && v.refreshes == w.refreshes + 1)
            && (v.refresh.None? ==> v.refreshes == w.refreshes && v.answers == w.answers + [Served(key, Cached(v.cache))])
            && (v.refresh.None? && v.cache.models.None? && latest.value.reply.Err? ==>
                  Cached(v.cache) == Err(latest.value.reply.error))
  {
    EveryRunTellsRefreshes(start, steps);
    hide Run, LoginTold, LatestRefresh, Rest;
  }

  // ---------------------------------------------------------------- a lone caller takes these steps

  function Probes(replies: seq<Reply>): seq<Step> {
    if replies == [] then [] else [Ask, Probe(replies[0])] + Probes(replies[1..])
  }

  /** Steps whose time has not come are skipped. */
  function StepsOf(call: Call): seq<Step>
    requires call.enteredAt <= call.finishedAt
  {
    [Enter(call.force, call.requestedAt, call.before)] + Probes(call.replies) + TailOf(call)
  }

  lemma {:induction false} RunJoins(w: World, a: seq<Step>, b: seq<Step>)
    ensures Run(w, a + b) == Run(Run(w, a), b)
  {
    hide Advance;
    if b == [] {
      assert a + b == a;
    } else {
      assert (a + b)[..|a + b| - 1] == a + b[..|b| - 1];
      RunJoins(w, a, b[..|b| - 1]);
    }
  }

  lemma RunOfOne(w: World, step: Step)
    ensures Run(w, [step]) == Advance(w, step)
  {
    assert [step][..0] == [];
  }

  lemma RunOfTwo(w: World, a: Step, b: Step)
    ensures Run(w, [a, b]) == Advance(Advance(w, a), b)
  {
    hide Advance;
    assert [a, b][..1] == [a];
    RunOfOne(w, a);
  }

  lemma {:induction false} ProbesDoNothing(w: World, replies: seq<Reply>)
    requires w.refresh.None? || w.refresh.value.result.Some?
    ensures Run(w, Probes(replies)) == w
  {
    if replies != [] {
      var rest := Probes(replies[1..]);
      RunJoins(w, [Ask, Probe(replies[0])], rest);
      RunOfTwo(w, Ask, Probe(replies[0]));
      ProbesDoNothing(w, replies[1..]);
    }
  }

  lemma FirstProbe(w: World, replies: seq<Reply>)
    requires replies != []
    ensures Run(w, Probes(replies) + [Ask, GiveUp])
         == Run(Advance(Advance(w, Ask), Probe(replies[0])), Probes(replies[1..]) + [Ask, GiveUp])
  {
    hide Advance, Run;
    var rest := Probes(replies[1..]) + [Ask, GiveUp];
    assert Probes(replies) + [Ask, GiveUp] == [Ask, Probe(replies[0])] + rest;
    RunJoins(w, [Ask, Probe(replies[0])], rest);
    RunOfTwo(w, Ask, Probe(replies[0]));
  }

  lemma DecidedStaysDecided(w: World, replies: seq<Reply>)
    requires w.refresh.Some? && w.refresh.value.result.Some?
    ensures Run(w, Probes(replies) + [Ask, GiveUp]) == w
  {
    ProbesDoNothing(w, replies);
    RunJoins(w, Probes(replies), [Ask, GiveUp]);
    RunOfTwo(w, Ask, GiveUp);
  }

  lemma NoReplyTimesOut(w: World)
    requires w.refresh.Some? && w.refresh.value.result.None? && !w.refresh.value.asking
    ensures var v := Run(w, Probes([]) + [Ask, GiveUp]);
            && v.refresh.Some? && v.refresh.value.key == w.refresh.value.key
            && v.refresh.value.result == Some(Err(TIMED_OUT))
            && v.cache == w.cache && v.snapshot == w.snapshot && v.now == w.now && v.answers == w.answers
  {
    assert Probes([]) + [Ask, GiveUp] == [Ask, GiveUp];
    RunOfTwo(w, Ask, GiveUp);
  }

  /** The probes of one refresh decide what the caller's attempts decide. */
  lemma {:induction false} ProbesDiscover(w: World, replies: seq<Reply>, error: Failure)
    requires w.refresh.Some? && w.refresh.value.result.None? && !w.refresh.value.asking
    requires w.refresh.value.attempts < ATTEMPTS && w.refresh.value.attempts <= |replies|
    ensures var a := w.refresh.value.attempts;
            var v := Run(w, Probes(replies[a..]) + [Ask, GiveUp]);
            && v.refresh.Some?
            && v.refresh.value.key == w.refresh.value.key
            && v.refresh.value.result == Some(Discovered(replies, a, error))
            && v.cache == w.cache && v.snapshot == w.snapshot && v.now == w.now && v.answers == w.answers
    decreases |replies| - w.refresh.value.attempts
  {
    hide Hopeless, Run, Probes;
    var a := w.refresh.value.attempts;
    if a == |replies| {
      assert replies[a..] == [];
      NoReplyTimesOut(w);
    } else {
      var next := Advance(Advance(w, Ask), Probe(replies[a]));
      FirstProbe(w, replies[a..]);
      assert replies[a..][1..] == replies[a + 1..];
      if next.refresh.value.result.None? {
        ProbesDiscover(next, replies, FailureOf(replies[a]));
      } else {
        DecidedStaysDecided(next, replies[a + 1..]);
      }
    }
  }

  /** Everything proved of overlapping callers holds of `GetWithTimeout`: an undisturbed call is such a run. */
  lemma CallIsARun(w: World, call: Call)
    requires Sound(w) && w.refresh.None? && call.requestedAt <= call.enteredAt == w.now <= call.finishedAt
    ensures var v := Run(w, StepsOf(call));
            var outcome := Get(w.cache, w.snapshot, call);
            v.cache == outcome.cache && v.snapshot == outcome.snapshot && v.answers == w.answers + [outcome.answer]
            && v.refresh.None?
  {
    hide Sound, Discovered, Hopeless, AfterReply, StepsOf, Probes, Run;
    var entered := Advance(w, Enter(call.force, call.requestedAt, call.before));
    StepsBeginWithEntry(w, call);
    if entered.refresh.None? {
      IdleRest(entered, call);
    } else {
      RefreshingTail(entered, call);
    }
  }

  function TailOf(call: Call): seq<Step>
    requires call.enteredAt <= call.finishedAt
  {
    [Ask, GiveUp, Tick(call.finishedAt - call.enteredAt), Finish(call.after)]
  }

  lemma StepsBeginWithEntry(w: World, call: Call)
    requires call.enteredAt <= call.finishedAt
    ensures Run(w, StepsOf(call))
         == Run(Advance(w, Enter(call.force, call.requestedAt, call.before)), Probes(call.replies) + TailOf(call))
  {
    hide Advance, Probes, Run;
    var enter := Enter(call.force, call.requestedAt, call.before);
    assert StepsOf(call) == [enter] + (Probes(call.replies) + TailOf(call));
    RunJoins(w, [enter], Probes(call.replies) + TailOf(call));
    RunOfOne(w, enter);
  }

  lemma IdleRest(w: World, call: Call)
    requires w.refresh.None? && call.enteredAt <= call.finishedAt
    ensures var v := Run(w, Probes(call.replies) + TailOf(call));
            v.cache == w.cache && v.snapshot == w.snapshot && v.answers == w.answers && v.refresh.None?
  {
    hide Advance, Run;
    RunJoins(w, Probes(call.replies), TailOf(call));
    ProbesDoNothing(w, call.replies);
    IdleTail(w, call);
  }

  lemma IdleTail(w: World, call: Call)
    requires w.refresh.None? && call.enteredAt <= call.finishedAt
    ensures var v := Run(w, TailOf(call));
            v.cache == w.cache && v.snapshot == w.snapshot && v.answers == w.answers && v.refresh.None?
  {
    var tick := Tick(call.finishedAt - call.enteredAt);
    assert TailOf(call) == [Ask, GiveUp] + ([tick] + [Finish(call.after)]);
    RunJoins(w, [Ask, GiveUp], [tick] + [Finish(call.after)]);
    RunOfTwo(w, Ask, GiveUp);
    RunJoins(w, [tick], [Finish(call.after)]);
    RunOfOne(w, tick);
    RunOfOne(Advance(w, tick), Finish(call.after));
  }

  lemma RefreshingTail(w: World, call: Call)
    requires w.refresh.Some? && w.refresh.value.result.None? && !w.refresh.value.asking && w.refresh.value.attempts == 0
    requires call.enteredAt == w.now <= call.finishedAt
    ensures var v := Run(w, Probes(call.replies) + TailOf(call));
            var outcome := RefreshOutcome(w.cache, w.snapshot, w.refresh.value.key, call);
            v.cache == outcome.cache && v.snapshot == outcome.snapshot && v.answers == w.answers + [outcome.answer]
            && v.refresh.None?
  {
    hide Discovered, Hopeless, AfterReply, Probes;
    var tick := Tick(call.finishedAt - call.enteredAt);
    var probes := Probes(call.replies) + [Ask, GiveUp];
    ProbesDiscover(w, call.replies, UNAVAILABLE);
    assert call.replies[0..] == call.replies;
    var probed := Run(w, probes);
    assert Probes(call.replies) + TailOf(call) == probes + ([tick] + [Finish(call.after)]);
    RunJoins(w, probes, [tick] + [Finish(call.after)]);
    RunJoins(probed, [tick], [Finish(call.after)]);
    RunOfOne(probed, tick);
    RunOfOne(Advance(probed, tick), Finish(call.after));
  }
}
