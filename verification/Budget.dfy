/** What bounds the reschedules of a Delivery. A verdict reads a tally and writes the
    row later; what else happens to the row in between decides. */
module Budget {
  import opened Prelude
  import opened Pool
  import opened Protocol
  import opened Invariants
  import opened Safety
  import opened Dispatches
  import Retry

  /** A verdict on k that was passed and is still to be written. */
  predicate IsVerdict(t: Task, k: Key) {
    (t.Reread? || t.Rewrite?) && t.key == k
  }

  ghost predicate Pending(s: State, k: Key) {
    exists t :: t in s.tasks && IsVerdict(t, k)
  }

  /** The steps that read k's tally for a verdict, and the one other than a reschedule
      that moves it. */
  predicate Disturbs(s: State, a: Action, k: Key) {
    || (a.FailToDispatch? && a.key == k)
    || (a.ConsumeError? && a.index < |s.stats| && s.stats[a.index].key == k)
    || a == Reclaim(ForDispatch, k)
  }

  predicate Bumps(s: State, a: Action, k: Key) {
    (a.WriteReschedule? && a.key == k && k in s.pool) || a == Reclaim(ForDispatch, k)
  }

  /** No verdict on k is read, and no dispatch claim of it taken back, while another
      verdict on it is pending: reading, lookup and write are one step as far as k is
      concerned. */
  ghost predicate Alone(cfg: Config, s: State, run: seq<Action>, k: Key)
    requires IsRun(cfg, s, run)
    decreases |run|
  {
    |run| == 0 || ((Pending(s, k) ==> !Disturbs(s, run[0], k)) && Alone(cfg, Next(cfg, s, run[0]), run[1..], k))
  }

  ghost predicate Dispatching(s: State, k: Key) {
    exists t :: t in s.tasks && t.Dispatch? && t.key == k
  }

  /** k's tally moves only when no Dispatcher holds it: none is left behind its row. */
  ghost predicate NoneLeftBehind(cfg: Config, s: State, run: seq<Action>, k: Key)
    requires IsRun(cfg, s, run)
    decreases |run|
  {
    |run| == 0 || ((Bumps(s, run[0], k) ==> !Dispatching(s, k)) && NoneLeftBehind(cfg, Next(cfg, s, run[0]), run[1..], k))
  }

  // ---- Verdicts, one at a time ----

  ghost predicate Sole(s: State, k: Key) {
    forall t, u :: t in s.tasks && IsVerdict(t, k) && u in s.tasks && IsVerdict(u, k) ==> t == u && s.tasks[t] == 1
  }

  /** How an action bears on the verdicts on k. */
  predicate VerdictStep(s: State, a: Action, e: Effect, k: Key) {
    && (e.begun.Some? && IsVerdict(e.begun.value, k) ==>
          || (Disturbs(s, a, k) && e.finished != e.begun && (e.begun.value.source.Answered? ==> k in s.pool && e.begun.value.attempts == s.pool[k].attempts)
              && (e.begun.value.source.Dispatching? ==> a == FailToDispatch(k, e.begun.value.attempts)))
          || (e.finished == Some(Reread(k, e.begun.value.attempts, e.begun.value.source)) && e.begun.value.Rewrite?))
    && (a.WriteReschedule? && a.key == k ==> e.finished == Some(Rewrite(k, a.attempts, a.at, a.source)))
    && (Bumps(s, a, k) ==> e.begun.None?)
    && (e.begun.Some? && e.begun.value.Dispatch? && e.begun.value.key == k ==> k in s.pool && e.begun.value.attempts == s.pool[k].attempts)
    && (a.FailToDispatch? && a.key == k ==> e.finished == Some(Dispatch(k, a.attempts)))
  }

  lemma ActionsStepTheVerdict(cfg: Config, s: State, a: Action, k: Key)
    requires Enabled(cfg, s, a)
    ensures VerdictStep(s, a, EffectOf(cfg, s, a), k)
  {
  }

  lemma TasksAfter(s: State, e: Effect, t: Task)
    requires e.finished.Some? ==> e.finished.value in s.tasks
    ensures Apply(s, e).tasks[t] == s.tasks[t] - (if e.finished == Some(t) then 1 else 0) + (if e.begun == Some(t) then 1 else 0)
  {
    hide Recorded, Appended;
  }

  lemma StepKeepsSole(cfg: Config, s: State, a: Action, k: Key)
    requires Enabled(cfg, s, a) && Sole(s, k)
    requires Pending(s, k) ==> !Disturbs(s, a, k)
    ensures Sole(Next(cfg, s, a), k)
  {
    hide Enabled, EffectOf, Apply, Disturbs;
    var e, s' := EffectOf(cfg, s, a), Next(cfg, s, a);
    ActionsStepTheVerdict(cfg, s, a, k);
    FinishedIsHeld(cfg, s, a);
    forall t, u | t in s'.tasks && IsVerdict(t, k) && u in s'.tasks && IsVerdict(u, k) ensures t == u && s'.tasks[t] == 1 {
      TasksAfter(s, e, t);
      TasksAfter(s, e, u);
    }
  }

  /** The Tasks that carry a reading of k's tally: answered verdicts and, where no
      Dispatcher is left behind, dispatches and the verdicts on those too. */
  predicate Carries(t: Task, k: Key, dispatches: bool) {
    || (IsVerdict(t, k) && (dispatches || t.source.Answered?))
    || (dispatches && t.Dispatch? && t.key == k)
  }

  ghost predicate Current(s: State, k: Key, dispatches: bool) {
    k in s.pool ==> forall t :: t in s.tasks && Carries(t, k, dispatches) ==> t.attempts == s.pool[k].attempts
  }

  /** A row changes its tally in a bump only, and comes to be only when nobody can
      hold it yet. */
  lemma TalliesAfter(cfg: Config, s: State, a: Action, k: Key)
    requires Inv(cfg, s) && Enabled(cfg, s, a) && k in Next(cfg, s, a).pool
    ensures k !in s.pool ==> forall t :: t in Next(cfg, s, a).tasks ==> !Carries(t, k, true)
    ensures k in s.pool && !Bumps(s, a, k) ==> Next(cfg, s, a).pool[k].attempts == s.pool[k].attempts
  {
    hide Inv, Enabled, Next, Bumps;
    if k !in s.pool {
      StepKeepsInv(cfg, s, a);
      FreshRowIsFree(cfg, Next(cfg, s, a), s, a, k);
    } else {
      RowIsKnown(cfg, s, k);
      if !Bumps(s, a, k) {
        AttemptsAfter(cfg, s, a, k);
      }
    }
  }

  lemma RowIsKnown(cfg: Config, s: State, k: Key)
    requires Inv(cfg, s) && k in s.pool
    ensures k in s.ever
  {
    assert RowOK(cfg, s, k);
  }

  lemma AttemptsAfter(cfg: Config, s: State, a: Action, k: Key)
    requires Enabled(cfg, s, a) && k in s.ever && k in s.pool && k in Next(cfg, s, a).pool && !Bumps(s, a, k)
    ensures Next(cfg, s, a).pool[k].attempts == s.pool[k].attempts
  {
  }

  lemma FreshRowIsFree(cfg: Config, s': State, s: State, a: Action, k: Key)
    requires Inv(cfg, s) && Inv(cfg, s') && Enabled(cfg, s, a) && s' == Next(cfg, s, a)
    requires k !in s.pool && k in s'.pool
    ensures forall t :: t in s'.tasks ==> !Carries(t, k, true)
  {
    hide EffectOf, Apply, RowFits, KeyFits, LedgerOf, OutcomeOK, EnvelopeOK;
    assert RowOK(cfg, s', k);
    NewRowAwaits(cfg, s, a, k);
    assert RowFits(cfg, k, s'.pool[k], LedgerOf(s'.history, k));
    AwaitingIsUndispatched(cfg, s', k);
    forall t | t in s'.tasks ensures !Carries(t, k, true) {
      assert TaskOK(cfg, s', t);
    }
  }

  lemma NewRowAwaits(cfg: Config, s: State, a: Action, k: Key)
    requires Enabled(cfg, s, a) && k !in s.pool && k in Next(cfg, s, a).pool
    ensures Next(cfg, s, a).pool[k].AwaitsVerdict()
  {
  }

  lemma AwaitingIsUndispatched(cfg: Config, s: State, k: Key)
    requires k in s.pool && s.pool[k].AwaitsVerdict() && RowFits(cfg, k, s.pool[k], LedgerOf(s.history, k))
    ensures !Dispatched(s, k)
  {
  }

  lemma StepKeepsCurrent(cfg: Config, s: State, a: Action, k: Key, dispatches: bool)
    requires Inv(cfg, s) && Enabled(cfg, s, a) && Sole(s, k) && Current(s, k, dispatches)
    requires Pending(s, k) ==> !Disturbs(s, a, k)
    requires dispatches && Bumps(s, a, k) ==> !Dispatching(s, k)
    ensures Current(Next(cfg, s, a), k, dispatches)
  {
    hide Enabled, EffectOf, Apply, Inv;
    var e, s' := EffectOf(cfg, s, a), Next(cfg, s, a);
    ActionsStepTheVerdict(cfg, s, a, k);
    FinishedIsHeld(cfg, s, a);
    if k in s'.pool {
      TalliesAfter(cfg, s, a, k);
      forall t | t in s'.tasks && Carries(t, k, dispatches) ensures t.attempts == s'.pool[k].attempts {
        TasksAfter(s, e, t);
        if Bumps(s, a, k) {
          BumpsFindNobody(s, a, e, k, dispatches, t);
        } else if e.begun == Some(t) && e.finished.Some? {
          assert Carries(e.finished.value, k, dispatches) ==> e.finished.value.attempts == s.pool[k].attempts;
        }
      }
    }
  }

  lemma BumpsFindNobody(s: State, a: Action, e: Effect, k: Key, dispatches: bool, t: Task)
    requires Sole(s, k) && VerdictStep(s, a, e, k) && Bumps(s, a, k)
    requires Pending(s, k) ==> !Disturbs(s, a, k)
    requires dispatches ==> !Dispatching(s, k)
    requires Carries(t, k, dispatches) && t in s.tasks && (e.finished.Some? ==> e.finished.value in s.tasks)
    ensures e.finished == Some(t) && s.tasks[t] == 1 && e.begun.None?
  {
    assert IsVerdict(t, k);
    if a.WriteReschedule? {
      assert IsVerdict(e.finished.value, k);
    }
  }

  // ---- With no Dispatcher left behind ----

  /** A reschedule that follows on a current reading is timely. */
  lemma CurrentIsTimely(cfg: Config, s: State, a: Action, k: Key, dispatches: bool)
    requires Enabled(cfg, s, a) && Current(s, k, dispatches)
    requires a.WriteReschedule? && a.key == k && k in s.pool && (dispatches || a.source.Answered?)
    ensures EffectOf(cfg, s, a).note == TimelyReschedule(k)
  {
    assert Carries(Rewrite(k, a.attempts, a.at, a.source), k, dispatches);
  }

  lemma StaleAfter(s: State, e: Effect, k: Key)
    ensures Apply(s, e).history.stale[k] == s.history.stale[k] + if e.note == StaleReschedule(k) then 1 else 0
    ensures Apply(s, e).history.timely[k] == s.history.timely[k] + if e.note == TimelyReschedule(k) then 1 else 0
    ensures Apply(s, e).history.reclaims[k] == s.history.reclaims[k] + if e.note == DispatchReclaim(k) then 1 else 0
  {
    hide One, Appended;
  }

  lemma {:induction false} NothingGoesStale(cfg: Config, s: State, run: seq<Action>, k: Key)
    requires Inv(cfg, s) && IsRun(cfg, s, run)
    requires Alone(cfg, s, run, k) && NoneLeftBehind(cfg, s, run, k)
    requires Sole(s, k) && Current(s, k, true)
    ensures Exec(cfg, s, run).history.stale[k] == s.history.stale[k]
    decreases |run|
  {
    hide Enabled, EffectOf, Apply, Inv, Sole, Current, Pending, Dispatching, Bumps;
    if |run| > 0 {
      var a := run[0];
      var s' := Next(cfg, s, a);
      StepKeepsInv(cfg, s, a);
      StepKeepsSole(cfg, s, a, k);
      StepKeepsCurrent(cfg, s, a, k, true);
      ActionsStepTheDispatch(cfg, s, a, k);
      StaleAfter(s, EffectOf(cfg, s, a), k);
      if a.WriteReschedule? && a.key == k && k in s.pool {
        CurrentIsTimely(cfg, s, a, k, true);
      }
      NothingGoesStale(cfg, s', run[1..], k);
    }
  }

  lemma InitIsPrompt(now: int, k: Key)
    ensures Sole(Init(now), k) && Current(Init(now), k, true)
  {
  }

  /** The Retry Budget in full: where each verdict on a Delivery stands alone and none
      of its Dispatchers is left behind, no reschedule is stale, and so with at most 16
      dispatch reclaims there are at most ten reschedules in all, and at most ten
      attempts beyond the reclaims. */
  lemma PromptVerdictsKeepTheBudget(cfg: Config, now: int, run: seq<Action>, k: Key)
    requires cfg.policy == Retry.DefaultPolicy(cfg.policy.overflow)
    requires IsRun(cfg, Init(now), run)
    requires Alone(cfg, Init(now), run, k) && NoneLeftBehind(cfg, Init(now), run, k)
    ensures var s := Exec(cfg, Init(now), run);
      var h := s.history;
      && h.stale[k] == 0
      && (h.reclaims[k] <= 16 ==> h.timely[k] + h.stale[k] <= 10)
      && (h.reclaims[k] <= 16 && k in s.pool ==> s.pool[k].attempts <= 10 + h.reclaims[k])
  {
    hide Init, IsRun, Exec, Alone, NoneLeftBehind, Sole, Current;
    InitIsPrompt(now, k);
    InitHolds(cfg, now);
    NothingGoesStale(cfg, Init(now), run, k);
    NoneIsTallied(now, k);
    RetryBudgetHolds(cfg, now, run, k);
  }

  lemma InitHolds(cfg: Config, now: int)
    ensures Inv(cfg, Init(now))
  {
    hide Enabled, EffectOf, Apply;
    assert IsRun(cfg, Init(now), []) && Exec(cfg, Init(now), []) == Init(now);
    ReachableInv(cfg, now, []);
  }

  // ---- With Dispatchers left behind ----

  /** The last tally at which the default policy retries, wrapping aside. */
  const LAST: nat := 9

  ghost predicate Returning(s: State, k: Key) {
    exists t :: t in s.tasks && IsVerdict(t, k) && t.source.Dispatching?
  }

  /** Every dispatch handed back was claimed and failed; whatever was answered was
      built; what is answered is timely. */
  ghost predicate Bounded(s: State, k: Key, tale: Tale) {
    && tale.returned + (if k in s.pool && Returning(s, k) then 1 else 0) <= tale.failures
    && (tale.answered > 0 ==> BuiltUpTo(s.sending, k, LAST) > 0)
    && tale.answered <= s.history.timely[k] <= 10
  }

  lemma RetryableIsLow(cfg: Config, n: nat)
    requires cfg.policy == Retry.DefaultPolicy(cfg.policy.overflow)
    requires cfg.policy.CanRetry(n) && n <= 26
    ensures n <= LAST
  {
    Retry.CanRetryExactly(n, cfg.policy.overflow);
  }

  lemma ReturnsAreFailures(cfg: Config, s: State, a: Action, k: Key, tale: Tale)
    requires cfg.policy == Retry.DefaultPolicy(cfg.policy.overflow)
    requires Inv(cfg, s) && Enabled(cfg, s, a) && Sole(s, k) && Tally(s, k) <= 26
    requires Pending(s, k) ==> !Disturbs(s, a, k)
    requires tale.returned + (if k in s.pool && Returning(s, k) then 1 else 0) <= tale.failures
    ensures var s', tale' := Next(cfg, s, a), Told(s, a, k, LAST, tale);
      tale'.returned + (if k in s'.pool && Returning(s', k) then 1 else 0) <= tale'.failures
  {
    hide Enabled, EffectOf, Apply, Inv, Tally;
    var e, s' := EffectOf(cfg, s, a), Next(cfg, s, a);
    ActionsStepTheVerdict(cfg, s, a, k);
    FinishedIsHeld(cfg, s, a);
    if k in s'.pool && Returning(s', k) {
      var t :| t in s'.tasks && IsVerdict(t, k) && t.source.Dispatching?;
      TasksAfter(s, e, t);
      TalliesAfter(cfg, s, a, k);
      assert Carries(t, k, true);
      if a.FailToDispatch? && a.key == k {
        FailuresAreLow(cfg, s, a);
      }
    }
    if a.WriteReschedule? && a.key == k {
      assert IsVerdict(e.finished.value, k);
    }
  }

  lemma FailuresAreLow(cfg: Config, s: State, a: Action)
    requires cfg.policy == Retry.DefaultPolicy(cfg.policy.overflow)
    requires Inv(cfg, s) && Enabled(cfg, s, a) && a.FailToDispatch?
    ensures a.key in s.pool ==> a.attempts <= Tally(s, a.key)
    ensures cfg.policy.CanRetry(a.attempts) && a.attempts <= 26 ==> a.attempts <= LAST
    ensures EffectOf(cfg, s, a).begun == Some(RetryOrFail(cfg, a.key, a.attempts, Source.Dispatching))
  {
    hide Retry.Policy.CanRetry;
    assert TaskOK(cfg, s, Dispatch(a.key, a.attempts));
    RowIsItsTally(cfg, s, a.key);
    if cfg.policy.CanRetry(a.attempts) && a.attempts <= 26 {
      RetryableIsLow(cfg, a.attempts);
    }
  }

  lemma AnEnvelopeIsBuilt(sending: seq<Envelope>, m: nat, n: nat)
    requires m < |sending| && sending[m].builtAt <= n
    ensures BuiltUpTo(sending, sending[m].key, n) > 0
  {
    if m < |sending| - 1 {
      AnEnvelopeIsBuilt(sending[..|sending| - 1], m, n);
    }
  }

  /** An answered reschedule names an Envelope built at a retryable tally, and was read
      off the row as it is. */
  lemma AnswersWereBuilt(cfg: Config, s: State, a: Action, k: Key)
    requires cfg.policy == Retry.DefaultPolicy(cfg.policy.overflow)
    requires Inv(cfg, s) && Enabled(cfg, s, a) && Current(s, k, false) && Tally(s, k) <= 26
    requires a.WriteReschedule? && a.key == k && k in s.pool && a.source.Answered?
    ensures BuiltUpTo(s.sending, k, LAST) > 0
    ensures EffectOf(cfg, s, a).note == TimelyReschedule(k)
  {
    hide Retry.Policy.CanRetry;
    assert TaskOK(cfg, s, Rewrite(k, a.attempts, a.at, a.source));
    RowIsItsTally(cfg, s, k);
    RetryableIsLow(cfg, s.sending[a.source.msg].builtAt);
    AnEnvelopeIsBuilt(s.sending, a.source.msg, LAST);
    CurrentIsTimely(cfg, s, a, k, false);
  }

  /** The timely reschedules, each at a tally of its own. */
  lemma TimelyStaysLow(cfg: Config, s: State, a: Action, k: Key)
    requires cfg.policy == Retry.DefaultPolicy(cfg.policy.overflow)
    requires Inv(cfg, s) && Enabled(cfg, s, a) && Tally(s, k) <= 26
    requires s.history.timely[k] <= 10
    ensures Next(cfg, s, a).history.timely[k] <= 10
  {
    hide Enabled, EffectOf, Apply, Inv, Retry.Policy.CanRetry;
    StaleAfter(s, EffectOf(cfg, s, a), k);
    if EffectOf(cfg, s, a).note == TimelyReschedule(k) {
      TimelyMeansRetryable(cfg, s, a, k);
      RetryableIsLow(cfg, Tally(s, k));
    }
  }

  lemma StepStaysBounded(cfg: Config, s: State, a: Action, k: Key, tale: Tale)
    requires cfg.policy == Retry.DefaultPolicy(cfg.policy.overflow)
    requires Inv(cfg, s) && Enabled(cfg, s, a) && Sole(s, k) && Current(s, k, false) && Tally(s, k) <= 26
    requires Pending(s, k) ==> !Disturbs(s, a, k)
    requires Bounded(s, k, tale)
    ensures Bounded(Next(cfg, s, a), k, Told(s, a, k, LAST, tale))
  {
    hide Enabled, EffectOf, Apply, Inv, Tally, Sole, Current, Pending, Disturbs, Returning, BuiltUpTo, Appended;
    ReturnsAreFailures(cfg, s, a, k, tale);
    TimelyStaysLow(cfg, s, a, k);
    StaleAfter(s, EffectOf(cfg, s, a), k);
    BuiltAfter(s.sending, EffectOf(cfg, s, a).sent, k, LAST);
    SendingAfter(s, EffectOf(cfg, s, a));
    if a.WriteReschedule? && a.key == k && k in s.pool && a.source.Answered? {
      AnswersWereBuilt(cfg, s, a, k);
    }
  }

  lemma SendingAfter(s: State, e: Effect)
    ensures Apply(s, e).sending == s.sending + Appended(e.sent)
  {
  }

  /** What the accounts come to: one dispatch handed back per tally up to nine, one
      answered reschedule too, but not both at the tally of the first Envelope. */
  lemma BoundedMeans(s: State, k: Key, tale: Tale)
    requires Balanced(s, k, LAST, tale) && Bounded(s, k, tale)
    ensures s.history.timely[k] + s.history.stale[k] <= 18 + tale.marks
    ensures Tally(s, k) <= 18 + tale.marks + s.history.reclaims[k]
  {
    hide HeldUpTo, BuiltUpTo, Returning, Claimable;
  }

  lemma {:induction false} TalesGrow(cfg: Config, s: State, run: seq<Action>, k: Key, n: nat, tale: Tale)
    requires IsRun(cfg, s, run)
    ensures tale.marks <= TaleAfter(cfg, s, run, k, n, tale).marks
    ensures s.history.reclaims[k] <= Exec(cfg, s, run).history.reclaims[k]
    decreases |run|
  {
    hide Enabled, EffectOf, Apply;
    if |run| > 0 {
      StaleAfter(s, EffectOf(cfg, s, run[0]), k);
      TalesGrow(cfg, Next(cfg, s, run[0]), run[1..], k, n, Told(s, run[0], k, n, tale));
    }
  }

  lemma {:induction false} RunStaysBounded(cfg: Config, s: State, run: seq<Action>, k: Key, tale: Tale)
    requires cfg.policy == Retry.DefaultPolicy(cfg.policy.overflow)
    requires Inv(cfg, s) && IsRun(cfg, s, run) && Alone(cfg, s, run, k)
    requires Sole(s, k) && Current(s, k, false) && Balanced(s, k, LAST, tale) && Bounded(s, k, tale)
    requires TaleAfter(cfg, s, run, k, LAST, tale).marks + Exec(cfg, s, run).history.reclaims[k] <= 8
    ensures Bounded(Exec(cfg, s, run), k, TaleAfter(cfg, s, run, k, LAST, tale))
    decreases |run|
  {
    hide Enabled, Next, Inv, Sole, Current, Pending, Disturbs, Balanced, Bounded, Told, Tally, Retry.DefaultPolicy;
    if |run| > 0 {
      var a := run[0];
      TalesGrow(cfg, s, run, k, LAST, tale);
      BoundedMeans(s, k, tale);
      StepKeepsInv(cfg, s, a);
      StepKeepsSole(cfg, s, a, k);
      StepKeepsCurrent(cfg, s, a, k, false);
      StepKeepsBalance(cfg, s, a, k, LAST, tale);
      StepStaysBounded(cfg, s, a, k, tale);
      RunStaysBounded(cfg, Next(cfg, s, a), run[1..], k, Told(s, a, k, LAST, tale));
    }
  }

  lemma InitIsBounded(now: int, k: Key)
    ensures Sole(Init(now), k) && Current(Init(now), k, false) && Bounded(Init(now), k, UNTOLD)
  {
    hide BuiltUpTo;
    NoneIn(Init(now).history.timely, k);
  }

  /** The Retry Budget with Dispatchers left behind, each verdict still standing alone:
      18 reschedules and one more for every time the Delivery was marked validated. So
      a Delivery marked once is rescheduled at most 19 times, up to seven reclaims. */
  lemma LeftBehindDispatchersAreBounded(cfg: Config, now: int, run: seq<Action>, k: Key)
    requires cfg.policy == Retry.DefaultPolicy(cfg.policy.overflow)
    requires IsRun(cfg, Init(now), run) && Alone(cfg, Init(now), run, k)
    requires Marks(run, k) + Exec(cfg, Init(now), run).history.reclaims[k] <= 8
    ensures var s := Exec(cfg, Init(now), run);
      var h := s.history;
      && h.timely[k] + h.stale[k] <= 18 + Marks(run, k)
      && (k in s.pool ==> s.pool[k].attempts <= 18 + Marks(run, k) + h.reclaims[k])
  {
    hide Init, IsRun, Exec, Alone, Sole, Current, Balanced, Bounded, TaleAfter, Tally;
    var s := Exec(cfg, Init(now), run);
    InitHolds(cfg, now);
    InitIsBounded(now, k);
    InitBalances(now, k, LAST);
    MarksAreTold(cfg, Init(now), run, k, LAST, UNTOLD);
    RunStaysBounded(cfg, Init(now), run, k, UNTOLD);
    TalesBalance(cfg, now, run, k, LAST);
    BoundedMeans(s, k, TaleAfter(cfg, Init(now), run, k, LAST, UNTOLD));
    ReachableInv(cfg, now, run);
    RowIsItsTally(cfg, s, k);
  }

  // ---- What advanced a tally ----

  /** t carries a reading of k's tally. */
  predicate HasRead(t: Task, k: Key) {
    (t.Dispatch? || t.Reread? || t.Rewrite? || t.GiveUp?) && t.key == k
  }

  predicate HasFailed(x: Event, k: Key) {
    x.key == k && x.outcome.Failed?
  }

  /** No reading is ahead of what the history of k adds up to. */
  ghost predicate ReadsReached(s: State, k: Key) {
    && (forall t :: t in s.tasks && HasRead(t, k) ==> t.attempts <= Tally(s, k))
    && (forall i :: 0 <= i < |s.stats| && HasFailed(s.stats[i], k) ==> s.stats[i].outcome.attempts <= Tally(s, k))
  }

  predicate ReadStep(s: State, e: Effect, k: Key) {
    && (e.begun.Some? && HasRead(e.begun.value, k) ==>
          || (k in s.pool && e.begun.value.attempts == s.pool[k].attempts)
          || (e.finished.Some? && HasRead(e.finished.value, k) && e.finished.value.attempts == e.begun.value.attempts))
    && (e.published.Some? && HasFailed(e.published.value, k) ==>
          e.finished.Some? && HasRead(e.finished.value, k) && e.finished.value.attempts == e.published.value.outcome.attempts)
  }

  lemma ActionsStepTheReads(cfg: Config, s: State, a: Action, k: Key)
    requires Inv(cfg, s) && Enabled(cfg, s, a)
    ensures ReadStep(s, EffectOf(cfg, s, a), k)
  {
    hide RowOK, KeyOK, TallyOK, SourceOK, EnvelopeOK;
    match a
    case PublishVerdict(k', v) => assert TaskOK(cfg, s, Announce(k', v));
    case PublishReport(m, o) => assert TaskOK(cfg, s, Report(m, o));
    case _ =>
  }

  lemma StatsAfter(s: State, e: Effect)
    ensures Apply(s, e).stats == s.stats + Appended(e.published)
  {
  }

  lemma StepKeepsReads(cfg: Config, s: State, a: Action, k: Key)
    requires Inv(cfg, s) && Enabled(cfg, s, a) && ReadsReached(s, k)
    ensures ReadsReached(Next(cfg, s, a), k) && Tally(s, k) <= Tally(Next(cfg, s, a), k)
    ensures Tally(Next(cfg, s, a), k) > Tally(s, k) ==> Bumps(s, a, k) && Tally(Next(cfg, s, a), k) == Tally(s, k) + 1
  {
    hide Inv, Enabled, EffectOf, Apply, Tally;
    var e, s' := EffectOf(cfg, s, a), Next(cfg, s, a);
    ActionsStepTheReads(cfg, s, a, k);
    ActionsStepTheDispatch(cfg, s, a, k);
    FinishedIsHeld(cfg, s, a);
    TallyAfter(s, e, k);
    RowIsItsTally(cfg, s, k);
    StatsAfter(s, e);
    forall t | t in s'.tasks && HasRead(t, k) ensures t.attempts <= Tally(s', k) {
      TasksAfter(s, e, t);
    }
  }

  /** The j-th step of the run moved k's tally from t to t + 1: a reschedule or a
      dispatch reclaim. */
  ghost predicate BumpedAt(cfg: Config, s: State, run: seq<Action>, j: nat, k: Key, t: nat) {
    && j < |run| && IsRun(cfg, s, run[..j])
    && Tally(Exec(cfg, s, run[..j]), k) == t && Bumps(Exec(cfg, s, run[..j]), run[j], k)
  }

  lemma {:induction false} EveryTallyWasBumped(cfg: Config, s: State, run: seq<Action>, k: Key, t: nat)
    requires Inv(cfg, s) && IsRun(cfg, s, run) && ReadsReached(s, k)
    ensures ReadsReached(Exec(cfg, s, run), k)
    ensures Tally(s, k) <= t < Tally(Exec(cfg, s, run), k) ==> exists j: nat :: BumpedAt(cfg, s, run, j, k, t)
    decreases |run|
  {
    hide Inv, Enabled, Next, Tally, Bumps, ReadsReached;
    if |run| > 0 {
      var s' := Next(cfg, s, run[0]);
      StepKeepsInv(cfg, s, run[0]);
      StepKeepsReads(cfg, s, run[0], k);
      EveryTallyWasBumped(cfg, s', run[1..], k, t);
      if Tally(s, k) <= t < Tally(Exec(cfg, s, run), k) {
        if Tally(s', k) <= t {
          var j: nat :| BumpedAt(cfg, s', run[1..], j, k, t);
          assert run[..j + 1][0] == run[0] && run[..j + 1][1..] == run[1..][..j];
          assert BumpedAt(cfg, s, run, j + 1, k, t);
        } else {
          assert run[..0] == [];
          assert BumpedAt(cfg, s, run, 0, k, t);
        }
      }
    }
  }

  lemma InitReadsNothing(now: int, k: Key)
    ensures ReadsReached(Init(now), k)
  {
  }

  /** A Failed on the error leg, and what ran the budget out: its Envelope was built at
      an earlier, retryable tally, and each tally from there up to the one it failed at
      was left by a reschedule of that Delivery or a reclaim of its dispatch. */
  lemma FailedWasAdvanced(cfg: Config, now: int, run: seq<Action>, i: nat, t: nat)
    requires IsRun(cfg, Init(now), run)
    requires var s := Exec(cfg, Init(now), run);
      i < |s.stats| && s.stats[i].outcome.Failed? && s.stats[i].outcome.source.Answered?
    ensures var s := Exec(cfg, Init(now), run);
      var k, n, m := s.stats[i].key, s.stats[i].outcome.attempts, s.stats[i].outcome.source.msg;
      && m < |s.sending| && s.sending[m].builtAt < n <= Tally(s, k)
      && (s.sending[m].builtAt <= t < n ==> exists j: nat :: BumpedAt(cfg, Init(now), run, j, k, t))
  {
    hide Init, IsRun, Exec, Tally, BumpedAt;
    var s := Exec(cfg, Init(now), run);
    var k := s.stats[i].key;
    FailedMeansTheTallyAdvanced(cfg, now, run, i);
    InitHolds(cfg, now);
    InitReadsNothing(now, k);
    EveryTallyWasBumped(cfg, Init(now), run, k, t);
    assert HasFailed(s.stats[i], k);
    NoneIsTallied(now, k);
  }
}
