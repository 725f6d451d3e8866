/** The steps of one Delivery's runs, each from a known scene to the next, for building
    runs that show what can happen. */
module Scenes {
  import opened Prelude
  import opened Pool
  import opened Protocol
  import opened Dispatches
  import opened Budget
  import opened Answers
  import Retry
  import SendGuard

  /** How often a row was moved on, and by what. */
  datatype Past = Past(timely: nat, stale: nat, reclaims: nat) {
    function Tally(): nat {
      timely + stale + reclaims
    }

    /** A reschedule is written whose verdict read tally n. */
    function Written(n: nat): Past {
      if n == Tally() then this.(timely := timely + 1) else this.(stale := stale + 1)
    }
  }

  /** k's row, what moved it so far, and every Task held anywhere. */
  predicate Scene(s: State, k: Key, tasks: multiset<Task>, row: Row, past: Past) {
    && k in s.pool && s.pool[k] == row && row.attempts == past.Tally() && s.tasks == tasks
    && s.history.timely[k] == past.timely && s.history.stale[k] == past.stale && s.history.reclaims[k] == past.reclaims
  }

  predicate SameStreams(s: State, s': State) {
    s'.sending == s.sending && s'.stats == s.stats && s'.guard == s.guard
  }

  // ---- Single steps ----

  lemma ClaimEffect(cfg: Config, s: State, k: Key)
    requires k in s.pool && Due(s.pool[k], s.now)
    ensures Enabled(cfg, s, ClaimForDispatch(k))
    ensures EffectOf(cfg, s, ClaimForDispatch(k))
      == NOTHING.(begun := Some(Dispatch(k, s.pool[k].attempts)), row := Put(k, ClaimedForDispatch(s.pool[k], s.now)), note := DispatchClaim(k))
  {
  }

  lemma Claim(cfg: Config, s: State, k: Key, tasks: multiset<Task>, row: Row, past: Past)
    requires Scene(s, k, tasks, row, past) && Due(row, s.now)
    ensures Enabled(cfg, s, ClaimForDispatch(k))
    ensures var s' := Next(cfg, s, ClaimForDispatch(k));
      && Scene(s', k, tasks + multiset{Dispatch(k, past.Tally())}, ClaimedForDispatch(row, s.now), past)
      && SameStreams(s, s') && s'.now == s.now
  {
    hide EffectOf;
    assert s.sending + Appended<Envelope>(None) == s.sending && s.stats + Appended<Event>(None) == s.stats;
    ClaimEffect(cfg, s, k);
  }

  lemma PublishEffect(cfg: Config, s: State, k: Key, n: nat)
    requires Dispatch(k, n) in s.tasks
    ensures Enabled(cfg, s, PublishEnvelope(k, n))
    ensures EffectOf(cfg, s, PublishEnvelope(k, n)) == NOTHING.(finished := Some(Dispatch(k, n)), sent := Some(Build(cfg, k, n)))
  {
  }

  lemma Publish(cfg: Config, s: State, k: Key, tasks: multiset<Task>, row: Row, past: Past, n: nat)
    requires Scene(s, k, tasks + multiset{Dispatch(k, n)}, row, past)
    ensures Enabled(cfg, s, PublishEnvelope(k, n))
    ensures var s' := Next(cfg, s, PublishEnvelope(k, n));
      && Scene(s', k, tasks, row, past) && s'.sending == s.sending + [Build(cfg, k, n)]
      && s'.stats == s.stats && s'.guard == s.guard && s'.now == s.now
  {
    hide EffectOf;
    assert s.stats + Appended<Event>(None) == s.stats;
    PublishEffect(cfg, s, k, n);
  }

  lemma Deliver(cfg: Config, s: State, k: Key, tasks: multiset<Task>, row: Row, past: Past, m: nat)
    requires Scene(s, k, tasks, row, past) && m < |s.sending| && GuardKey(cfg, s.sending, m) !in s.guard
    ensures Enabled(cfg, s, Action.Deliver(m, SendGuard.Reached))
    ensures var s' := Next(cfg, s, Action.Deliver(m, SendGuard.Reached));
      && Scene(s', k, tasks + multiset{Transmit(m)}, row, past) && s'.sending == s.sending && s'.stats == s.stats
      && s'.guard == s.guard + {GuardKey(cfg, s.sending, m)}
  {
    hide GuardKey;
    assert s.sending + Appended<Envelope>(None) == s.sending && s.stats + Appended<Event>(None) == s.stats;
  }

  lemma Refuse(cfg: Config, s: State, k: Key, tasks: multiset<Task>, row: Row, past: Past, m: nat)
    requires Scene(s, k, tasks + multiset{Transmit(m)}, row, past) && m < |s.sending| && s.sending[m].shouldRetry
    ensures Enabled(cfg, s, Transact(m, RefusedForNow))
    ensures var s' := Next(cfg, s, Transact(m, RefusedForNow));
      Scene(s', k, tasks + multiset{Report(m, Errored(m))}, row, past) && SameStreams(s, s')
  {
    assert s.sending + Appended<Envelope>(None) == s.sending && s.stats + Appended<Event>(None) == s.stats;
  }

  lemma Tell(cfg: Config, s: State, k: Key, tasks: multiset<Task>, row: Row, past: Past, m: nat)
    requires Scene(s, k, tasks + multiset{Report(m, Errored(m))}, row, past) && m < |s.sending| && s.sending[m].key == k
    ensures Enabled(cfg, s, PublishReport(m, Errored(m)))
    ensures var s' := Next(cfg, s, PublishReport(m, Errored(m)));
      && Scene(s', k, tasks, row, past) && s'.sending == s.sending && s'.guard == s.guard
      && s'.stats == s.stats + [Event(k, Errored(m))]
  {
    assert s.sending + Appended<Envelope>(None) == s.sending;
  }

  lemma ConsumeEffect(cfg: Config, s: State, k: Key, i: nat, m: nat)
    requires k in s.pool && i < |s.stats| && s.stats[i] == Event(k, Errored(m))
    ensures Enabled(cfg, s, ConsumeError(i))
    ensures EffectOf(cfg, s, ConsumeError(i)) == NOTHING.(begun := Some(RetryOrFail(cfg, k, s.pool[k].attempts, Answered(m))))
  {
  }

  lemma Consume(cfg: Config, s: State, k: Key, tasks: multiset<Task>, row: Row, past: Past, i: nat, m: nat)
    requires Scene(s, k, tasks, row, past) && i < |s.stats| && s.stats[i] == Event(k, Errored(m))
    ensures Enabled(cfg, s, ConsumeError(i))
    ensures var s' := Next(cfg, s, ConsumeError(i));
      Scene(s', k, tasks + multiset{RetryOrFail(cfg, k, past.Tally(), Answered(m))}, row, past) && SameStreams(s, s')
  {
    hide RetryOrFail, EffectOf;
    assert s.sending + Appended<Envelope>(None) == s.sending && s.stats + Appended<Event>(None) == s.stats;
    ConsumeEffect(cfg, s, k, i, m);
  }

  lemma FailEffect(cfg: Config, s: State, k: Key, n: nat)
    requires Dispatch(k, n) in s.tasks
    ensures Enabled(cfg, s, FailToDispatch(k, n))
    ensures EffectOf(cfg, s, FailToDispatch(k, n))
      == NOTHING.(finished := Some(Dispatch(k, n)), begun := Some(RetryOrFail(cfg, k, n, Source.Dispatching)))
  {
  }

  lemma Fail(cfg: Config, s: State, k: Key, tasks: multiset<Task>, row: Row, past: Past, n: nat)
    requires Scene(s, k, tasks + multiset{Dispatch(k, n)}, row, past)
    ensures Enabled(cfg, s, FailToDispatch(k, n))
    ensures var s' := Next(cfg, s, FailToDispatch(k, n));
      Scene(s', k, tasks + multiset{RetryOrFail(cfg, k, n, Source.Dispatching)}, row, past) && SameStreams(s, s')
  {
    hide EffectOf, RetryOrFail;
    assert s.sending + Appended<Envelope>(None) == s.sending && s.stats + Appended<Event>(None) == s.stats;
    FailEffect(cfg, s, k, n);
  }

  lemma ReadEffect(cfg: Config, s: State, k: Key, n: nat, src: Source)
    requires Reread(k, n, src) in s.tasks && k in s.pool
    ensures Enabled(cfg, s, ReadForReschedule(k, n, src))
    ensures EffectOf(cfg, s, ReadForReschedule(k, n, src))
      == NOTHING.(finished := Some(Reread(k, n, src)),
                  begun := Some(Rewrite(k, n, cfg.policy.NextRetryAt(s.pool[k].originalAt, s.pool[k].attempts), src)))
  {
  }

  lemma Read(cfg: Config, s: State, k: Key, tasks: multiset<Task>, row: Row, past: Past, n: nat, src: Source)
    requires Scene(s, k, tasks + multiset{Reread(k, n, src)}, row, past)
    ensures Enabled(cfg, s, ReadForReschedule(k, n, src))
    ensures var s' := Next(cfg, s, ReadForReschedule(k, n, src));
      && Scene(s', k, tasks + multiset{Rewrite(k, n, cfg.policy.NextRetryAt(row.originalAt, row.attempts), src)}, row, past)
      && SameStreams(s, s')
  {
    hide EffectOf, Retry.Policy.NextRetryAt;
    assert s.sending + Appended<Envelope>(None) == s.sending && s.stats + Appended<Event>(None) == s.stats;
    ReadEffect(cfg, s, k, n, src);
  }

  lemma WriteEffect(cfg: Config, s: State, k: Key, n: nat, at: int, src: Source)
    requires Rewrite(k, n, at, src) in s.tasks && k in s.pool
    ensures Enabled(cfg, s, WriteReschedule(k, n, at, src))
    ensures EffectOf(cfg, s, WriteReschedule(k, n, at, src))
      == NOTHING.(finished := Some(Rewrite(k, n, at, src)), row := Put(k, Rescheduled(s.pool[k], at)),
                  note := if s.pool[k].attempts == n then TimelyReschedule(k) else StaleReschedule(k))
  {
  }

  lemma Write(cfg: Config, s: State, k: Key, tasks: multiset<Task>, row: Row, past: Past, n: nat, at: int, src: Source)
    requires Scene(s, k, tasks + multiset{Rewrite(k, n, at, src)}, row, past)
    ensures Enabled(cfg, s, WriteReschedule(k, n, at, src))
    ensures var s' := Next(cfg, s, WriteReschedule(k, n, at, src));
      Scene(s', k, tasks, Rescheduled(row, at), past.Written(n)) && SameStreams(s, s')
  {
    hide EffectOf;
    assert s.sending + Appended<Envelope>(None) == s.sending && s.stats + Appended<Event>(None) == s.stats;
    WriteEffect(cfg, s, k, n, at, src);
  }

  lemma Wait(cfg: Config, s: State, k: Key, tasks: multiset<Task>, row: Row, past: Past, until: int)
    requires Scene(s, k, tasks, row, past) && s.now <= until
    ensures Enabled(cfg, s, Tick(until))
    ensures var s' := Next(cfg, s, Tick(until)); Scene(s', k, tasks, row, past) && SameStreams(s, s') && s'.now == until
  {
    assert s.sending + Appended<Envelope>(None) == s.sending && s.stats + Appended<Event>(None) == s.stats;
  }

  lemma TakeBackEffect(cfg: Config, s: State, k: Key, f: InFlight)
    requires k in s.pool && !f.Unknown? && Stranded(s.pool[k], ReclaimTarget(f).value, s.now - StrandThreshold(f))
    ensures Enabled(cfg, s, Reclaim(f, k))
    ensures EffectOf(cfg, s, Reclaim(f, k))
      == NOTHING.(row := Put(k, Reclaimed(s.pool[k], ReclaimTarget(f).value)), note := if f.ForDispatch? then DispatchReclaim(k) else Quiet)
  {
  }

  lemma TakeBack(cfg: Config, s: State, k: Key, tasks: multiset<Task>, row: Row, past: Past, f: InFlight)
    requires Scene(s, k, tasks, row, past)
    requires !f.Unknown? && Stranded(row, ReclaimTarget(f).value, s.now - StrandThreshold(f))
    ensures Enabled(cfg, s, Reclaim(f, k))
    ensures var s', past' := Next(cfg, s, Reclaim(f, k)), if f.ForDispatch? then past.(reclaims := past.reclaims + 1) else past;
      Scene(s', k, tasks, Reclaimed(row, ReclaimTarget(f).value), past') && SameStreams(s, s') && s'.now == s.now
  {
    hide EffectOf;
    assert s.sending + Appended<Envelope>(None) == s.sending && s.stats + Appended<Event>(None) == s.stats;
    TakeBackEffect(cfg, s, k, f);
  }

  lemma Schedules(cfg: Config, k: Key)
    ensures Enabled(cfg, Init(0), Action.Schedule(k, 0))
    ensures var s' := Next(cfg, Init(0), Action.Schedule(k, 0));
      Scene(s', k, multiset{}, NewRow(0), Past(0, 0, 0)) && SameStreams(Init(0), s') && s'.now == 0
  {
  }

  lemma ClaimsForValidation(cfg: Config, s: State, k: Key, tasks: multiset<Task>, row: Row, past: Past)
    requires Scene(s, k, tasks, row, past) && row.status.ToValidate?
    ensures Enabled(cfg, s, ClaimForValidation(k))
    ensures var s' := Next(cfg, s, ClaimForValidation(k));
      Scene(s', k, tasks + multiset{Validate(k)}, ClaimedForValidation(row, s.now), past) && SameStreams(s, s') && s'.now == s.now
  {
    assert s.sending + Appended<Envelope>(None) == s.sending && s.stats + Appended<Event>(None) == s.stats;
  }

  lemma Validates(cfg: Config, s: State, k: Key, tasks: multiset<Task>, row: Row, past: Past)
    requires Scene(s, k, tasks + multiset{Validate(k)}, row, past) && cfg.passes(k.email)
    ensures Enabled(cfg, s, MarkValidated(k))
    ensures var s' := Next(cfg, s, MarkValidated(k));
      Scene(s', k, tasks + multiset{Announce(k, Accepted)}, MarkedScheduled(row), past) && SameStreams(s, s') && s'.now == s.now
  {
    assert s.sending + Appended<Envelope>(None) == s.sending && s.stats + Appended<Event>(None) == s.stats;
  }

  lemma GiveUpTold(cfg: Config, s: State, k: Key, tasks: multiset<Task>, row: Row, past: Past, n: nat, src: Source)
    requires Scene(s, k, tasks + multiset{GiveUp(k, n, src)}, row, past)
    ensures Enabled(cfg, s, PublishFailed(k, n, src, true))
    ensures var s' := Next(cfg, s, PublishFailed(k, n, src, true));
      && Scene(s', k, tasks + multiset{Remove(k)}, row, past)
      && s'.sending == s.sending && s'.stats == s.stats + [Event(k, Failed(n, src))]
  {
    assert s.sending + Appended<Envelope>(None) == s.sending;
  }

  // ---- Runs in which verdicts stand alone ----

  /** What message's error the action reads for k. */
  function ReadBy(s: State, a: Action, k: Key): multiset<nat> {
    if a.ConsumeError? && a.index < |s.stats| && s.stats[a.index].outcome.Errored? && Reads(s, a, k, s.stats[a.index].outcome.msg)
    then multiset{s.stats[a.index].outcome.msg} else multiset{}
  }

  /** A run in which k's verdicts stand alone: how often it marks k validated, and which
      messages of k it answers how often. */
  ghost predicate Plays(cfg: Config, s: State, run: seq<Action>, k: Key, marks: nat, heard: multiset<nat>)
    requires IsRun(cfg, s, run)
  {
    && Alone(cfg, s, run, k) && Marks(run, k) == marks
    && forall m: nat :: TimesRead(cfg, s, run, k, m) == heard[m]
  }

  lemma {:induction false} AloneConcat(cfg: Config, s: State, a: seq<Action>, b: seq<Action>, k: Key)
    requires IsRun(cfg, s, a) && IsRun(cfg, Exec(cfg, s, a), b)
    requires Alone(cfg, s, a, k) && Alone(cfg, Exec(cfg, s, a), b, k)
    ensures IsRun(cfg, s, a + b) && Alone(cfg, s, a + b, k)
    decreases |a|
  {
    hide Enabled, Next, Pending, Disturbs;
    ExecConcat(cfg, s, a, b);
    if |a| == 0 {
      assert a + b == b;
    } else {
      AloneConcat(cfg, Next(cfg, s, a[0]), a[1..], b, k);
      assert (a + b)[0] == a[0] && (a + b)[1..] == a[1..] + b;
    }
  }

  lemma PlaysConcat(cfg: Config, s: State, a: seq<Action>, b: seq<Action>, k: Key, marks: nat, heard: multiset<nat>, marks': nat, heard': multiset<nat>)
    requires IsRun(cfg, s, a) && IsRun(cfg, Exec(cfg, s, a), b)
    requires Plays(cfg, s, a, k, marks, heard) && Plays(cfg, Exec(cfg, s, a), b, k, marks', heard')
    ensures IsRun(cfg, s, a + b) && Exec(cfg, s, a + b) == Exec(cfg, Exec(cfg, s, a), b)
    ensures Plays(cfg, s, a + b, k, marks + marks', heard + heard')
  {
    hide IsRun, Exec, Alone, Marks, TimesRead;
    ExecConcat(cfg, s, a, b);
    AloneConcat(cfg, s, a, b, k);
    MarksConcat(a, b, k);
    forall m: nat ensures TimesRead(cfg, s, a + b, k, m) == (heard + heard')[m] {
      ReadsAdd(cfg, s, a, b, k, m);
    }
  }

  lemma NoneTwice()
    ensures var none: multiset<nat> := multiset{}; none + none == none
  {
  }

  lemma NothingPlays(cfg: Config, s: State, k: Key)
    ensures IsRun(cfg, s, []) && Exec(cfg, s, []) == s && Plays(cfg, s, [], k, 0, multiset{})
  {
  }

  lemma OneStepPlays(cfg: Config, s: State, a: Action, k: Key)
    requires Enabled(cfg, s, a) && (Pending(s, k) ==> !Disturbs(s, a, k))
    ensures IsRun(cfg, s, [a]) && Exec(cfg, s, [a]) == Next(cfg, s, a)
    ensures Plays(cfg, s, [a], k, if a == MarkValidated(k) then 1 else 0, ReadBy(s, a, k))
  {
    hide Enabled, Next, Pending, Disturbs;
    NothingPlays(cfg, Next(cfg, s, a), k);
    assert [a][1..] == [];
  }

  /** One more step. */
  lemma PlaysOn(cfg: Config, s: State, run: seq<Action>, a: Action, k: Key, marks: nat, heard: multiset<nat>)
    requires IsRun(cfg, s, run) && Plays(cfg, s, run, k, marks, heard)
    requires var here := Exec(cfg, s, run); Enabled(cfg, here, a) && (Pending(here, k) ==> !Disturbs(here, a, k))
    ensures IsRun(cfg, s, run + [a]) && Exec(cfg, s, run + [a]) == Next(cfg, Exec(cfg, s, run), a)
    ensures Plays(cfg, s, run + [a], k, marks + (if a == MarkValidated(k) then 1 else 0), heard + ReadBy(Exec(cfg, s, run), a, k))
  {
    hide IsRun, Exec, Enabled, Next, Pending, Disturbs, Plays, ReadBy;
    OneStepPlays(cfg, Exec(cfg, s, run), a, k);
    PlaysConcat(cfg, s, run, [a], k, marks, heard, if a == MarkValidated(k) then 1 else 0, ReadBy(Exec(cfg, s, run), a, k));
  }

  /** Steps that neither disturb a verdict nor answer or mark anything. */
  predicate IsHarmless(a: Action) {
    !a.FailToDispatch? && !a.ConsumeError? && !a.MarkValidated? && (a.Reclaim? ==> !a.kind.ForDispatch?)
  }

  lemma PlaysHarmless(cfg: Config, s: State, run: seq<Action>, a: Action, k: Key, marks: nat, heard: multiset<nat>)
    requires IsRun(cfg, s, run) && Plays(cfg, s, run, k, marks, heard)
    requires Enabled(cfg, Exec(cfg, s, run), a) && IsHarmless(a)
    ensures IsRun(cfg, s, run + [a]) && Exec(cfg, s, run + [a]) == Next(cfg, Exec(cfg, s, run), a)
    ensures Plays(cfg, s, run + [a], k, marks, heard)
  {
    hide IsRun, Exec, Enabled, Next, Pending, Plays;
    PlaysOn(cfg, s, run, a, k, marks, heard);
    assert heard + multiset{} == heard;
  }

  /** None of the Tasks is a verdict on k. */
  predicate NoVerdicts(tasks: multiset<Task>, k: Key) {
    forall t :: t in tasks ==> !IsVerdict(t, k)
  }

  lemma PlaysFirst(cfg: Config, s: State, a: Action, k: Key)
    requires Enabled(cfg, s, a) && NoVerdicts(s.tasks, k) && !a.MarkValidated?
    ensures IsRun(cfg, s, [a]) && Exec(cfg, s, [a]) == Next(cfg, s, a)
    ensures Plays(cfg, s, [a], k, 0, ReadBy(s, a, k))
  {
    hide IsRun, Exec, Enabled, Next, Plays;
    OneStepPlays(cfg, s, a, k);
  }

  // ---- Scenes in sequence ----

  /** The row is put in the Pool and claimed by a Validator. */
  lemma Enter(cfg: Config, k: Key) returns (run: seq<Action>, row: Row)
    ensures IsRun(cfg, Init(0), run) && Plays(cfg, Init(0), run, k, 0, multiset{})
    ensures var s := Exec(cfg, Init(0), run);
      && Scene(s, k, multiset{Validate(k)}, row, Past(0, 0, 0)) && SameStreams(Init(0), s)
      && s.now == 0 && row == ClaimedForValidation(NewRow(0), 0)
  {
    hide Enabled, Next, Scene, Plays;
    run, row := [], ClaimedForValidation(NewRow(0), 0);
    NothingPlays(cfg, Init(0), k);
    Schedules(cfg, k);
    PlaysHarmless(cfg, Init(0), run, Action.Schedule(k, 0), k, 0, multiset{});
    run := run + [Action.Schedule(k, 0)];
    ClaimsForValidation(cfg, Exec(cfg, Init(0), run), k, multiset{}, NewRow(0), Past(0, 0, 0));
    PlaysHarmless(cfg, Init(0), run, ClaimForValidation(k), k, 0, multiset{});
    run := run + [ClaimForValidation(k)];
    assert multiset{} + multiset{Validate(k)} == multiset{Validate(k)};
  }

  /** A Validator that holds k marks it, whatever has become of it. */
  lemma Mark(cfg: Config, s: State, k: Key, tasks: multiset<Task>, row: Row, past: Past) returns (run: seq<Action>)
    requires Scene(s, k, tasks + multiset{Validate(k)}, row, past) && cfg.passes(k.email)
    ensures IsRun(cfg, s, run) && Plays(cfg, s, run, k, 1, multiset{})
    ensures var s' := Exec(cfg, s, run);
      Scene(s', k, tasks + multiset{Announce(k, Accepted)}, MarkedScheduled(row), past) && SameStreams(s, s') && s'.now == s.now
  {
    hide Enabled, Next, Scene, Plays, Pending;
    run := [MarkValidated(k)];
    Validates(cfg, s, k, tasks, row, past);
    OneStepPlays(cfg, s, MarkValidated(k), k);
  }

  lemma Admit(cfg: Config, k: Key) returns (run: seq<Action>, row: Row)
    requires cfg.passes(k.email)
    ensures IsRun(cfg, Init(0), run) && Plays(cfg, Init(0), run, k, 1, multiset{})
    ensures var s := Exec(cfg, Init(0), run);
      && Scene(s, k, multiset{Announce(k, Accepted)}, row, Past(0, 0, 0)) && Due(row, s.now)
      && s.sending == [] && s.stats == [] && s.guard == {}
  {
    hide Enabled, Next, Scene, Plays;
    run, row := Enter(cfg, k);
    assert multiset{} + multiset{Validate(k)} == multiset{Validate(k)};
    var next := Mark(cfg, Exec(cfg, Init(0), run), k, multiset{}, row, Past(0, 0, 0));
    PlaysConcat(cfg, Init(0), run, next, k, 0, multiset{}, 1, multiset{});
    run, row := run + next, MarkedScheduled(row);
    assert multiset{} + multiset{Announce(k, Accepted)} == multiset{Announce(k, Accepted)};
    NoneTwice();
  }

  /** The Delivery is claimed, and its Envelope goes out. */
  lemma Send(cfg: Config, s: State, k: Key, tasks: multiset<Task>, row: Row, past: Past) returns (run: seq<Action>)
    requires Scene(s, k, tasks, row, past) && Due(row, s.now) && cfg.policy.CanRetry(past.Tally())
    ensures IsRun(cfg, s, run) && Plays(cfg, s, run, k, 0, multiset{})
    ensures var s' := Exec(cfg, s, run);
      && Scene(s', k, tasks, ClaimedForDispatch(row, s.now), past) && s'.now == s.now
      && s'.sending == s.sending + [Envelope(k, past.Tally(), true)] && s'.stats == s.stats && s'.guard == s.guard
  {
    hide Enabled, Next, Scene, Plays;
    run := [];
    NothingPlays(cfg, s, k);
    Claim(cfg, s, k, tasks, row, past);
    PlaysHarmless(cfg, s, run, ClaimForDispatch(k), k, 0, multiset{});
    run := run + [ClaimForDispatch(k)];
    Publish(cfg, Exec(cfg, s, run), k, tasks, ClaimedForDispatch(row, s.now), past, past.Tally());
    PlaysHarmless(cfg, s, run, PublishEnvelope(k, past.Tally()), k, 0, multiset{});
    run := run + [PublishEnvelope(k, past.Tally())];
  }

  /** Message m is refused for now, and its error is told. */
  lemma RefuseAndTell(cfg: Config, s: State, k: Key, tasks: multiset<Task>, row: Row, past: Past, m: nat) returns (run: seq<Action>)
    requires Scene(s, k, tasks, row, past)
    requires m < |s.sending| && s.sending[m].key == k && s.sending[m].shouldRetry && GuardKey(cfg, s.sending, m) !in s.guard
    ensures IsRun(cfg, s, run) && Plays(cfg, s, run, k, 0, multiset{})
    ensures forall a :: a in run ==> IsHarmless(a)
    ensures var s' := Exec(cfg, s, run);
      && Scene(s', k, tasks, row, past) && s'.sending == s.sending
      && s'.stats == s.stats + [Event(k, Errored(m))] && s'.guard == s.guard + {GuardKey(cfg, s.sending, m)}
  {
    hide Enabled, Next, Scene, Plays, GuardKey;
    run := [];
    NothingPlays(cfg, s, k);
    Deliver(cfg, s, k, tasks, row, past, m);
    PlaysHarmless(cfg, s, run, Action.Deliver(m, SendGuard.Reached), k, 0, multiset{});
    run := run + [Action.Deliver(m, SendGuard.Reached)];
    Refuse(cfg, Exec(cfg, s, run), k, tasks, row, past, m);
    PlaysHarmless(cfg, s, run, Transact(m, RefusedForNow), k, 0, multiset{});
    run := run + [Transact(m, RefusedForNow)];
    Tell(cfg, Exec(cfg, s, run), k, tasks, row, past, m);
    PlaysHarmless(cfg, s, run, PublishReport(m, Errored(m)), k, 0, multiset{});
    run := run + [PublishReport(m, Errored(m))];
  }

  /** Both of these. */
  lemma SendAndRefuse(cfg: Config, s: State, k: Key, tasks: multiset<Task>, row: Row, past: Past) returns (run: seq<Action>)
    requires Scene(s, k, tasks, row, past) && Due(row, s.now) && s.guard == {} && cfg.policy.CanRetry(past.Tally())
    ensures IsRun(cfg, s, run) && Plays(cfg, s, run, k, 0, multiset{})
    ensures var s' := Exec(cfg, s, run);
      && Scene(s', k, tasks, ClaimedForDispatch(row, s.now), past)
      && s'.sending == s.sending + [Envelope(k, past.Tally(), true)] && s'.stats == s.stats + [Event(k, Errored(|s.sending|))]
  {
    hide Enabled, Next, Scene, Plays, GuardKey;
    run := Send(cfg, s, k, tasks, row, past);
    var next := RefuseAndTell(cfg, Exec(cfg, s, run), k, tasks, ClaimedForDispatch(row, s.now), past, |s.sending|);
    PlaysConcat(cfg, s, run, next, k, 0, multiset{}, 0, multiset{});
    run := run + next;
    NoneTwice();
  }

  /** A verdict to retry is looked up and written, and the row falls due. */
  lemma HandBack(cfg: Config, s: State, k: Key, tasks: multiset<Task>, row: Row, past: Past, n: nat, src: Source)
    returns (run: seq<Action>, row': Row)
    requires Scene(s, k, tasks + multiset{Reread(k, n, src)}, row, past)
    ensures IsRun(cfg, s, run) && Plays(cfg, s, run, k, 0, multiset{})
    ensures forall a :: a in run ==> IsHarmless(a)
    ensures var s' := Exec(cfg, s, run);
      Scene(s', k, tasks, row', past.Written(n)) && SameStreams(s, s') && Due(row', s'.now)
  {
    hide Enabled, Next, Scene, Plays, Retry.Policy.NextRetryAt;
    var at := cfg.policy.NextRetryAt(row.originalAt, row.attempts);
    run := [];
    NothingPlays(cfg, s, k);
    Read(cfg, s, k, tasks, row, past, n, src);
    PlaysHarmless(cfg, s, run, ReadForReschedule(k, n, src), k, 0, multiset{});
    run := run + [ReadForReschedule(k, n, src)];
    Write(cfg, Exec(cfg, s, run), k, tasks, row, past, n, at, src);
    PlaysHarmless(cfg, s, run, WriteReschedule(k, n, at, src), k, 0, multiset{});
    run := run + [WriteReschedule(k, n, at, src)];
    row' := Rescheduled(row, at);
    var here := Exec(cfg, s, run).now;
    var later := if at > here then at else here;
    Wait(cfg, Exec(cfg, s, run), k, tasks, row', past.Written(n), later);
    PlaysHarmless(cfg, s, run, Tick(later), k, 0, multiset{});
    run := run + [Tick(later)];
  }

  lemma ErrorIsRead(s: State, k: Key, i: nat, m: nat)
    requires k in s.pool && i < |s.stats| && s.stats[i] == Event(k, Errored(m))
    ensures ReadBy(s, ConsumeError(i), k) == multiset{m}
  {
  }

  lemma SceneHolds(s: State, k: Key, tasks: multiset<Task>, row: Row, past: Past)
    requires Scene(s, k, tasks, row, past)
    ensures k in s.pool && s.pool[k] == row && s.tasks == tasks
    ensures s.history.timely[k] == past.timely && s.history.stale[k] == past.stale && s.history.reclaims[k] == past.reclaims
  {
  }

  /** The told error is consumed, once more or for the first time, at a retryable
      tally. */
  lemma Answer(cfg: Config, s: State, k: Key, tasks: multiset<Task>, row: Row, past: Past, i: nat, m: nat)
    returns (run: seq<Action>, row': Row)
    requires Scene(s, k, tasks, row, past) && NoVerdicts(tasks, k)
    requires i < |s.stats| && s.stats[i] == Event(k, Errored(m)) && cfg.policy.CanRetry(past.Tally())
    ensures IsRun(cfg, s, run) && Plays(cfg, s, run, k, 0, multiset{m})
    ensures forall a :: a in run ==> IsHarmless(a) || a.ConsumeError?
    ensures var s' := Exec(cfg, s, run);
      Scene(s', k, tasks, row', past.(timely := past.timely + 1)) && SameStreams(s, s') && Due(row', s'.now)
  {
    hide Enabled, Next, Scene, NoVerdicts, Plays, ReadBy, Retry.Policy.CanRetry;
    SceneHolds(s, k, tasks, row, past);
    ErrorIsRead(s, k, i, m);
    Consume(cfg, s, k, tasks, row, past, i, m);
    PlaysFirst(cfg, s, ConsumeError(i), k);
    run := [ConsumeError(i)];
    var next;
    next, row' := HandBack(cfg, Exec(cfg, s, run), k, tasks, row, past, past.Tally(), Answered(m));
    PlaysConcat(cfg, s, run, next, k, 0, multiset{m}, 0, multiset{});
    run := run + next;
    assert multiset{m} + multiset{} == multiset{m};
  }

  /** A dispatch fails at a retryable tally, whatever the row's own by now. */
  lemma Return(cfg: Config, s: State, k: Key, tasks: multiset<Task>, row: Row, past: Past, n: nat)
    returns (run: seq<Action>, row': Row)
    requires Scene(s, k, tasks + multiset{Dispatch(k, n)}, row, past) && NoVerdicts(tasks, k) && cfg.policy.CanRetry(n)
    ensures IsRun(cfg, s, run) && Plays(cfg, s, run, k, 0, multiset{})
    ensures var s' := Exec(cfg, s, run);
      Scene(s', k, tasks, row', past.Written(n)) && SameStreams(s, s') && Due(row', s'.now)
  {
    hide Enabled, Next, Scene, Plays, Retry.Policy.CanRetry;
    SceneHolds(s, k, tasks + multiset{Dispatch(k, n)}, row, past);
    Fail(cfg, s, k, tasks, row, past, n);
    PlaysFirst(cfg, s, FailToDispatch(k, n), k);
    run := [FailToDispatch(k, n)];
    var next;
    next, row' := HandBack(cfg, Exec(cfg, s, run), k, tasks, row, past, n, Source.Dispatching);
    PlaysConcat(cfg, s, run, next, k, 0, multiset{}, 0, multiset{});
    run := run + next;
    NoneTwice();
  }

  lemma FirstTen(cfg: Config, n: nat)
    requires cfg.policy == Retry.DefaultPolicy(cfg.policy.overflow)
    ensures n <= LAST ==> cfg.policy.CanRetry(n)
    ensures !cfg.policy.CanRetry(LAST + 1)
  {
    Retry.CanRetryExactly(n, cfg.policy.overflow);
    Retry.CanRetryExactly(LAST + 1, cfg.policy.overflow);
  }

  lemma ClaimOnce(cfg: Config, s: State, k: Key, tasks: multiset<Task>, row: Row, past: Past)
    requires Scene(s, k, tasks, row, past) && Due(row, s.now)
    ensures var run := [ClaimForDispatch(k)];
      && IsRun(cfg, s, run) && Plays(cfg, s, run, k, 0, multiset{})
      && Scene(Exec(cfg, s, run), k, tasks + multiset{Dispatch(k, past.Tally())}, ClaimedForDispatch(row, s.now), past)
      && SameStreams(s, Exec(cfg, s, run))
  {
    hide Enabled, Next, Scene, Plays;
    Claim(cfg, s, k, tasks, row, past);
    NothingPlays(cfg, s, k);
    PlaysHarmless(cfg, s, [], ClaimForDispatch(k), k, 0, multiset{});
    assert [] + [ClaimForDispatch(k)] == [ClaimForDispatch(k)];
  }
}
