/** What holds in every run of the Delivery protocol, from an empty deployment,
    however its workers interleave, crash and see their messages again. */
module Safety {
  import opened Prelude
  import opened Pool
  import opened Protocol
  import opened Invariants
  import Retry

  // ---- No Delivery vanishes ----

  lemma {:induction false} ScheduledStaysKnown(cfg: Config, s: State, run: seq<Action>, k: Key)
    requires IsRun(cfg, s, run)
    requires k in s.ever || exists at :: Schedule(k, at) in run
    ensures k in Exec(cfg, s, run).ever
    decreases |run|
  {
    hide Enabled, Next;
    if |run| > 0 {
      var s' := Next(cfg, s, run[0]);
      NextKnows(cfg, s, run[0], k);
      if k !in s'.ever {
        var at :| Schedule(k, at) in run;
        assert Schedule(k, at) in run[1..];
      }
      ScheduledStaysKnown(cfg, s', run[1..], k);
    }
  }

  lemma NextKnows(cfg: Config, s: State, a: Action, k: Key)
    requires Enabled(cfg, s, a)
    ensures k in s.ever || (a.Schedule? && a.key == k) ==> k in Next(cfg, s, a).ever
  {
  }

  ghost predicate HasEnvelope(s: State, k: Key) {
    exists m :: 0 <= m < |s.sending| && s.sending[m].key == k
  }

  /** The Rejected event of k is in the stats history, or a Validator still holds it. */
  predicate RejectionToldOrHeld(s: State, k: Key) {
    Event(k, Rejected) in s.stats || Announce(k, Rejected) in s.tasks
  }

  /** A row that left has an ending, a lost Failed stat, or its Rejected. */
  predicate LeftForAReason(s: State, k: Key) {
    k in s.ever ==> k in s.pool || Ended(s, k) || k in s.history.lost || RejectionToldOrHeld(s, k)
  }

  lemma TaskIsKept(s: State, e: Effect, t: Task)
    ensures t in s.tasks && e.finished != Some(t) ==> t in Apply(s, e).tasks
    ensures e.begun == Some(t) ==> t in Apply(s, e).tasks
  {
    hide Recorded, Appended;
  }

  lemma PublishedIsThere(s: State, e: Effect, x: Event)
    ensures x in s.stats || e.published == Some(x) ==> x in Apply(s, e).stats
  {
    hide Recorded;
  }

  lemma OnlyADeleteEmpties(s: State, e: Effect, k: Key)
    ensures k in s.pool && k !in Apply(s, e).pool ==> e.row == Deleted(k)
    ensures k !in s.ever && k in Apply(s, e).ever ==> k in Apply(s, e).pool
  {
    hide Recorded, Appended, One;
  }

  lemma EffectsOnARejection(cfg: Config, s: State, a: Action, k: Key)
    requires Enabled(cfg, s, a)
    ensures var e := EffectOf(cfg, s, a);
      && (e.row == Deleted(k) ==> a == DropRow(k) || e.begun == Some(Announce(k, Rejected)))
      && (e.finished == Some(Announce(k, Rejected)) ==> a == Crash(Announce(k, Rejected)) || e.published == Some(Event(k, Rejected)))
  {
  }

  /** Only one step takes the last reason away: the crash of the Validator that holds
      the Rejected. */
  lemma StepLeavesAReason(cfg: Config, s: State, a: Action, k: Key)
    requires Inv(cfg, s) && Enabled(cfg, s, a)
    requires LeftForAReason(s, k) && a != Crash(Announce(k, Rejected))
    ensures LeftForAReason(Next(cfg, s, a), k)
  {
    hide Apply, EffectOf, Ended, RowOK, KeyOK, Enabled;
    var e, s' := EffectOf(cfg, s, a), Next(cfg, s, a);
    NextGrows(cfg, s, a);
    EffectsOnARejection(cfg, s, a, k);
    OnlyADeleteEmpties(s, e, k);
    TaskIsKept(s, e, Announce(k, Rejected));
    PublishedIsThere(s, e, Event(k, Rejected));
    if a == DropRow(k) {
      DropIsEarned(cfg, s, k);
    }
    if Ended(s, k) {
      EndedStays(s, s', k);
    }
  }

  lemma DropIsEarned(cfg: Config, s: State, k: Key)
    requires Inv(cfg, s) && Enabled(cfg, s, DropRow(k))
    ensures Ended(s, k) || k in s.history.lost
  {
    assert TaskOK(cfg, s, Remove(k));
  }

  lemma {:induction false} RunLeavesAReason(cfg: Config, s: State, run: seq<Action>, k: Key)
    requires Inv(cfg, s) && IsRun(cfg, s, run)
    requires LeftForAReason(s, k)
    ensures LeftForAReason(Exec(cfg, s, run), k) || Crash(Announce(k, Rejected)) in run
    decreases |run|
  {
    hide Enabled, Next, Inv, LeftForAReason;
    if |run| > 0 && run[0] != Crash(Announce(k, Rejected)) {
      StepKeepsInv(cfg, s, run[0]);
      StepLeavesAReason(cfg, s, run[0], k);
      RunLeavesAReason(cfg, Next(cfg, s, run[0]), run[1..], k);
    }
  }

  /** Every Delivery ever scheduled is still in the Pool, or an outcome that ends it
      is in the stats history. The exits besides are two: NATS took its Failed stat
      and did not store it; or its address failed the check and nothing was ever
      built for it, and then its Rejected is in the history, or a Validator holds it
      still, or that Validator crashed. */
  lemma NoSilentLoss(cfg: Config, now: int, run: seq<Action>, k: Key, at: int)
    requires IsRun(cfg, Init(now), run)
    requires Schedule(k, at) in run
    ensures var s := Exec(cfg, Init(now), run);
      || k in s.pool
      || Ended(s, k)
      || k in s.history.lost
      || (&& !cfg.passes(k.email) && !Dispatched(s, k) && !HasEnvelope(s, k)
          && (RejectionToldOrHeld(s, k) || Crash(Announce(k, Rejected)) in run))
  {
    hide IsRun, Exec;
    var s := Exec(cfg, Init(now), run);
    ReachableInv(cfg, now, run);
    ScheduledStaysKnown(cfg, Init(now), run, k);
    RunLeavesAReason(cfg, Init(now), run, k);
    assert KeyOK(cfg, s, k);
    if HasEnvelope(s, k) {
      var m :| 0 <= m < |s.sending| && s.sending[m].key == k;
      assert EnvelopeOK(cfg, s, s.sending[m]);
    }
  }

  /** k alone is in the Pool, or was, a single Task is held, and nothing was told. */
  predicate IsBare(s: State, pool: map<Key, Row>, tasks: multiset<Task>) {
    s.pool == pool && s.tasks == tasks && s.stats == [] && s.history.lost == {}
  }

  lemma Scheduling(cfg: Config, s: State, k: Key)
    requires IsBare(s, map[], multiset{}) && k !in s.ever
    ensures Enabled(cfg, s, Schedule(k, 0)) && IsBare(Next(cfg, s, Schedule(k, 0)), map[k := NewRow(0)], multiset{})
  {
  }

  lemma Claiming(cfg: Config, s: State, k: Key)
    requires IsBare(s, map[k := NewRow(0)], multiset{})
    ensures Enabled(cfg, s, ClaimForValidation(k))
    ensures IsBare(Next(cfg, s, ClaimForValidation(k)), map[k := ClaimedForValidation(NewRow(0), s.now)], multiset{Validate(k)})
  {
    hide ClaimedForValidation;
  }

  lemma Refusing(cfg: Config, s: State, k: Key, r: Row)
    requires IsBare(s, map[k := r], multiset{Validate(k)}) && !cfg.passes(k.email)
    ensures Enabled(cfg, s, RejectAndDrop(k)) && IsBare(Next(cfg, s, RejectAndDrop(k)), map[], multiset{Announce(k, Rejected)})
  {
  }

  lemma Crashing(cfg: Config, s: State, k: Key)
    requires IsBare(s, map[], multiset{Announce(k, Rejected)})
    ensures Enabled(cfg, s, Crash(Announce(k, Rejected))) && IsBare(Next(cfg, s, Crash(Announce(k, Rejected))), map[], multiset{})
  {
  }

  /** That last exit is taken: a run after which a Delivery is gone, no event was ever
      published and no worker holds anything. */
  lemma ARefusalCanVanish(cfg: Config, k: Key) returns (run: seq<Action>)
    requires !cfg.passes(k.email)
    ensures IsRun(cfg, Init(0), run) && Schedule(k, 0) in run
    ensures var s := Exec(cfg, Init(0), run); k !in s.pool && s.stats == [] && s.tasks == multiset{} && s.history.lost == {}
  {
    hide Enabled, Next;
    run := [];
    Scheduling(cfg, Init(0), k);
    ExecSnoc(cfg, Init(0), run, Schedule(k, 0));
    run := run + [Schedule(k, 0)];
    var claimed := ClaimedForValidation(NewRow(0), Exec(cfg, Init(0), run).now);
    Claiming(cfg, Exec(cfg, Init(0), run), k);
    ExecSnoc(cfg, Init(0), run, ClaimForValidation(k));
    run := run + [ClaimForValidation(k)];
    Refusing(cfg, Exec(cfg, Init(0), run), k, claimed);
    ExecSnoc(cfg, Init(0), run, RejectAndDrop(k));
    run := run + [RejectAndDrop(k)];
    Crashing(cfg, Exec(cfg, Init(0), run), k);
    ExecSnoc(cfg, Init(0), run, Crash(Announce(k, Rejected)));
    run := run + [Crash(Announce(k, Rejected))];
    assert run[0] == Schedule(k, 0);
  }

  // ---- Nothing is sent before the verdict ----

  /** A worker holds the Delivery on the dispatch side. */
  predicate DispatchSide(t: Task, k: Key) {
    match t
    case Dispatch(k', _) => k' == k
    case Reread(k', _, _) => k' == k
    case Rewrite(k', _, _, _) => k' == k
    case GiveUp(k', _, _) => k' == k
    case _ => false
  }

  /** A row still waiting for the Validator was never claimed for dispatch: no
      attempt, no Envelope, no worker holding it, no outcome of a send. */
  lemma PhaseCausality(cfg: Config, now: int, run: seq<Action>, k: Key)
    requires IsRun(cfg, Init(now), run)
    requires var s := Exec(cfg, Init(now), run); k in s.pool && s.pool[k].AwaitsVerdict()
    ensures var s := Exec(cfg, Init(now), run);
      && s.pool[k].attempts == 0
      && !Dispatched(s, k)
      && !HasEnvelope(s, k)
      && (forall t :: t in s.tasks ==> !DispatchSide(t, k))
      && (forall i :: 0 <= i < |s.stats| && s.stats[i].key == k ==>
            var o := s.stats[i].outcome; !o.Delivered? && !o.Errored? && !o.Failed?)
  {
    hide IsRun, Exec;
    var s := Exec(cfg, Init(now), run);
    ReachableInv(cfg, now, run);
    assert RowOK(cfg, s, k) && KeyOK(cfg, s, k);
    forall m | 0 <= m < |s.sending| ensures s.sending[m].key != k {
      assert EnvelopeOK(cfg, s, s.sending[m]);
    }
    forall t | t in s.tasks ensures !DispatchSide(t, k) {
      assert TaskOK(cfg, s, t);
    }
    forall i | 0 <= i < |s.stats| && s.stats[i].key == k
      ensures var o := s.stats[i].outcome; !o.Delivered? && !o.Errored? && !o.Failed?
    {
      assert OutcomeOK(cfg, s, k, s.stats[i].outcome);
    }
  }

  /** No step takes a row past its verdict back before it, stale writes included. */
  lemma NoWayBack(cfg: Config, now: int, run: seq<Action>, a: Action, k: Key)
    requires IsRun(cfg, Init(now), run)
    requires Enabled(cfg, Exec(cfg, Init(now), run), a)
    requires var s := Exec(cfg, Init(now), run); k in s.pool && !s.pool[k].AwaitsVerdict()
    ensures var s' := Next(cfg, Exec(cfg, Init(now), run), a); k in s'.pool ==> !s'.pool[k].AwaitsVerdict()
  {
    hide IsRun, Exec;
    var s := Exec(cfg, Init(now), run);
    ReachableInv(cfg, now, run);
    assert RowOK(cfg, s, k);
    StepKeepsVerdicts(cfg, s, a, k);
  }

  lemma StepKeepsVerdicts(cfg: Config, s: State, a: Action, k: Key)
    requires Enabled(cfg, s, a)
    requires k in s.ever && k in s.pool && !s.pool[k].AwaitsVerdict()
    ensures k in Next(cfg, s, a).pool ==> !Next(cfg, s, a).pool[k].AwaitsVerdict()
  {
  }

  // ---- Who ends a Delivery as Failed ----

  /** A Failed stat on the error leg means the row's tally moved on after the
      answered Envelope was built: that Envelope could still be retried. */
  lemma FailedMeansTheTallyAdvanced(cfg: Config, now: int, run: seq<Action>, i: nat)
    requires IsRun(cfg, Init(now), run)
    requires var s := Exec(cfg, Init(now), run);
      i < |s.stats| && s.stats[i].outcome.Failed? && s.stats[i].outcome.source.Answered?
    ensures var s := Exec(cfg, Init(now), run);
      var n, m := s.stats[i].outcome.attempts, s.stats[i].outcome.source.msg;
      && m < |s.sending| && s.sending[m].key == s.stats[i].key
      && s.sending[m].builtAt < n
      && cfg.policy.CanRetry(s.sending[m].builtAt) && !cfg.policy.CanRetry(n)
  {
    hide IsRun, Exec;
    var s := Exec(cfg, Init(now), run);
    ReachableInv(cfg, now, run);
    assert OutcomeOK(cfg, s, s.stats[i].key, s.stats[i].outcome);
  }

  /** The error consumer's verdict in any interleaving: it reschedules unless the
      row's tally is past the one the Envelope was built at. */
  lemma ErrorConsumerReschedulesUnlessAdvanced(cfg: Config, now: int, run: seq<Action>, i: nat)
    requires IsRun(cfg, Init(now), run)
    requires var s := Exec(cfg, Init(now), run);
      i < |s.stats| && s.stats[i].outcome.Errored? && s.stats[i].key in s.pool
    ensures var s := Exec(cfg, Init(now), run);
      var k, m := s.stats[i].key, s.stats[i].outcome.msg;
      var n := s.pool[k].attempts;
      && m < |s.sending| && s.sending[m].builtAt <= n
      && (s.sending[m].builtAt == n ==> Reread(k, n, Answered(m)) in Next(cfg, s, ConsumeError(i)).tasks)
  {
    hide IsRun, Exec, Next, KeyOK, RowOK, TaskOK, SourceOK;
    var s := Exec(cfg, Init(now), run);
    ReachableInv(cfg, now, run);
    assert OutcomeOK(cfg, s, s.stats[i].key, s.stats[i].outcome);
    assert EnvelopeOK(cfg, s, s.sending[s.stats[i].outcome.msg]);
    ConsumedErrorBegins(cfg, s, i);
  }

  lemma ConsumedErrorBegins(cfg: Config, s: State, i: nat)
    requires Enabled(cfg, s, ConsumeError(i)) && s.stats[i].key in s.pool
    ensures var k := s.stats[i].key;
      RetryOrFail(cfg, k, s.pool[k].attempts, Answered(s.stats[i].outcome.msg)) in Next(cfg, s, ConsumeError(i)).tasks
  {
  }

  // ---- The Retry Budget ----

  predicate WithinBudget(l: Ledger) {
    l.stale + l.reclaims <= 16 ==> l.timely <= 10
  }

  /** A timely reschedule found the row with the very tally its verdict was
      passed on, and that tally is the row's whole history. */
  lemma TimelyMeansRetryable(cfg: Config, s: State, a: Action, k: Key)
    requires Inv(cfg, s) && Enabled(cfg, s, a)
    requires EffectOf(cfg, s, a).note == TimelyReschedule(k)
    ensures cfg.policy.CanRetry(LedgerOf(s.history, k).Tally())
  {
    hide LedgerOf, Apply, EnvelopeOK, OutcomeOK, KeyOK, TallyOK, SourceOK;
    assert a.WriteReschedule? && a.key == k && s.pool[k].attempts == a.attempts;
    assert TaskOK(cfg, s, Rewrite(k, a.attempts, a.at, a.source));
    assert RowOK(cfg, s, k);
  }

  lemma StepKeepsBudget(cfg: Config, s: State, a: Action, k: Key)
    requires cfg.policy == Retry.DefaultPolicy(cfg.policy.overflow)
    requires Inv(cfg, s) && Enabled(cfg, s, a)
    requires WithinBudget(LedgerOf(s.history, k))
    ensures WithinBudget(LedgerOf(Next(cfg, s, a).history, k))
  {
    hide Enabled, EffectOf, Recorded, LedgerOf, Inv;
    var e, l := EffectOf(cfg, s, a), LedgerOf(s.history, k);
    LedgerRecorded(s.history, e.note, s.now, k);
    if e.note == TimelyReschedule(k) {
      TimelyMeansRetryable(cfg, s, a, k);
      Retry.CanRetryExactly(l.Tally(), cfg.policy.overflow);
    }
  }

  lemma {:induction false} RunKeepsBudget(cfg: Config, s: State, run: seq<Action>, k: Key)
    requires cfg.policy == Retry.DefaultPolicy(cfg.policy.overflow)
    requires Inv(cfg, s) && IsRun(cfg, s, run)
    requires WithinBudget(LedgerOf(s.history, k))
    ensures WithinBudget(LedgerOf(Exec(cfg, s, run).history, k))
    decreases |run|
  {
    hide Enabled, Next, Inv, LedgerOf;
    if |run| > 0 {
      StepKeepsInv(cfg, s, run[0]);
      StepKeepsBudget(cfg, s, run[0], k);
      RunKeepsBudget(cfg, Next(cfg, s, run[0]), run[1..], k);
    }
  }

  /** Under the defaults, in every run: as long as reclaims and reschedules of a row
      that had moved on number at most 16, a Delivery gets at most ten timely
      reschedules. Its tally is exactly what happened to it. When there are no stale
      ones, and how many there can be, is Budget's matter. */
  lemma RetryBudgetHolds(cfg: Config, now: int, run: seq<Action>, k: Key)
    requires cfg.policy == Retry.DefaultPolicy(cfg.policy.overflow)
    requires IsRun(cfg, Init(now), run)
    ensures var s := Exec(cfg, Init(now), run);
      var h := s.history;
      && (h.stale[k] + h.reclaims[k] <= 16 ==> h.timely[k] <= 10)
      && (k in s.pool ==> s.pool[k].attempts == h.timely[k] + h.stale[k] + h.reclaims[k])
      && (k in s.pool && h.stale[k] == 0 && h.reclaims[k] <= 16 ==> s.pool[k].attempts <= 10 + h.reclaims[k])
  {
    hide IsRun, Exec;
    var s := Exec(cfg, Init(now), run);
    ReachableInv(cfg, now, run);
    RunKeepsBudget(cfg, Init(now), run, k);
    if k in s.pool {
      assert RowOK(cfg, s, k);
    }
  }

  // ---- Claims ----

  predicate ClaimsForDispatch(a: Action, k: Key) {
    a == ClaimForDispatch(k)
  }

  /** The three writes that put a row where the Dispatcher may claim it. */
  predicate ReturnsToScheduled(a: Action, k: Key) {
    || a == MarkValidated(k)
    || (a.WriteReschedule? && a.key == k)
    || a == Reclaim(ForDispatch, k)
  }

  predicate Claimable(s: State, k: Key) {
    k in s.pool && s.pool[k].status.Scheduled?
  }

  lemma ClaimableOnlyByAReturn(cfg: Config, s: State, a: Action, k: Key)
    requires Enabled(cfg, s, a)
    requires Claimable(Next(cfg, s, a), k) && !ReturnsToScheduled(a, k)
    ensures Claimable(s, k) && !ClaimsForDispatch(a, k)
  {
    hide Recorded, One, Appended;
  }

  lemma {:induction false} UnclaimableUntilReturned(cfg: Config, s: State, run: seq<Action>, k: Key)
    requires IsRun(cfg, s, run)
    requires !Claimable(s, k) && Claimable(Exec(cfg, s, run), k)
    ensures exists m :: 0 <= m < |run| && ReturnsToScheduled(run[m], k)
    decreases |run|
  {
    hide Enabled, Next, Claimable;
    if !ReturnsToScheduled(run[0], k) {
      var s' := Next(cfg, s, run[0]);
      if Claimable(s', k) {
        ClaimableOnlyByAReturn(cfg, s, run[0], k);
      }
      UnclaimableUntilReturned(cfg, s', run[1..], k);
      var m :| 0 <= m < |run[1..]| && ReturnsToScheduled(run[1..][m], k);
      assert ReturnsToScheduled(run[m + 1], k);
    }
  }

  lemma ClaimNeedsAScheduledRow(cfg: Config, s: State, k: Key)
    requires Enabled(cfg, s, ClaimForDispatch(k))
    ensures Claimable(s, k) && !Claimable(Next(cfg, s, ClaimForDispatch(k)), k)
  {
  }

  /** Between two dispatch claims of one Delivery there is always a step that put
      it back to scheduled: no two Dispatchers hold the same claim. */
  lemma ClaimsAreExclusive(cfg: Config, s: State, k: Key, between: seq<Action>)
    requires Enabled(cfg, s, ClaimForDispatch(k))
    requires IsRun(cfg, Next(cfg, s, ClaimForDispatch(k)), between)
    requires Enabled(cfg, Exec(cfg, Next(cfg, s, ClaimForDispatch(k)), between), ClaimForDispatch(k))
    ensures exists m :: 0 <= m < |between| && ReturnsToScheduled(between[m], k)
  {
    hide Enabled, Next, Claimable;
    var claimed := Next(cfg, s, ClaimForDispatch(k));
    ClaimNeedsAScheduledRow(cfg, s, k);
    ClaimNeedsAScheduledRow(cfg, Exec(cfg, claimed, between), k);
    UnclaimableUntilReturned(cfg, claimed, between, k);
  }

  /** Known, and not awaiting a Validator. */
  predicate Taken(s: State, k: Key) {
    k in s.ever && (k in s.pool ==> !s.pool[k].status.ToValidate?)
  }

  lemma TakenUntilReclaimed(cfg: Config, s: State, a: Action, k: Key)
    requires Enabled(cfg, s, a) && Taken(s, k) && a != Reclaim(ForValidation, k)
    ensures Taken(Next(cfg, s, a), k)
    ensures a != ClaimForValidation(k)
  {
    hide Recorded, One, Appended;
  }

  lemma ValidationTakes(cfg: Config, s: State, k: Key)
    requires Enabled(cfg, s, ClaimForValidation(k))
    ensures !Taken(s, k) && Taken(Next(cfg, s, ClaimForValidation(k)), k)
  {
  }

  /** And between two claims of it for validation a reclaim of the first. */
  lemma ValidationClaimsAreExclusive(cfg: Config, s: State, k: Key, between: seq<Action>)
    requires Enabled(cfg, s, ClaimForValidation(k))
    requires IsRun(cfg, Next(cfg, s, ClaimForValidation(k)), between)
    requires Enabled(cfg, Exec(cfg, Next(cfg, s, ClaimForValidation(k)), between), ClaimForValidation(k))
    ensures Reclaim(ForValidation, k) in between
  {
    hide Enabled, Next, Taken, IsRun, Exec;
    ValidationTakes(cfg, s, k);
    ReclaimedBetween(cfg, Next(cfg, s, ClaimForValidation(k)), k, between);
  }

  lemma {:induction false} ReclaimedBetween(cfg: Config, s: State, k: Key, between: seq<Action>)
    requires IsRun(cfg, s, between) && Taken(s, k)
    requires Enabled(cfg, Exec(cfg, s, between), ClaimForValidation(k))
    ensures Reclaim(ForValidation, k) in between
    decreases |between|
  {
    hide Enabled, Next, Taken;
    if |between| == 0 {
      ValidationTakes(cfg, s, k);
      assert false;
    } else if between[0] != Reclaim(ForValidation, k) {
      TakenUntilReclaimed(cfg, s, between[0], k);
      ReclaimedBetween(cfg, Next(cfg, s, between[0]), k, between[1..]);
    }
  }

  /** A row in flight carries the instant of its latest claim, so a reclaim takes
      none younger than its threshold, however overdue the row looks. */
  lemma ReclaimsOnlyOldClaims(cfg: Config, now: int, run: seq<Action>, f: InFlight, k: Key)
    requires IsRun(cfg, Init(now), run)
    requires Enabled(cfg, Exec(cfg, Init(now), run), Reclaim(f, k))
    ensures var s := Exec(cfg, Init(now), run);
      && k in s.pool && k in s.history.lastClaim
      && s.history.lastClaim[k] < s.now - (if f.ForDispatch? then 3_600_000_000_000 else 300_000_000_000)
      && s.pool[k].claimedAt == Some(s.history.lastClaim[k])
  {
    hide Init, IsRun, Exec, Enabled, Inv;
    var s := Exec(cfg, Init(now), run);
    ReachableInv(cfg, now, run);
    ReclaimNeedsAnOldClaim(cfg, s, f, k);
    ClaimedAtTheLatest(cfg, s, k);
  }

  lemma ClaimedAtTheLatest(cfg: Config, s: State, k: Key)
    requires Inv(cfg, s) && k in s.pool && s.pool[k].InFlight()
    ensures k in s.history.lastClaim && s.pool[k].claimedAt == Some(s.history.lastClaim[k])
  {
    hide KeyOK, TaskOK, OutcomeOK, EnvelopeOK;
    assert RowOK(cfg, s, k);
  }

  lemma ReclaimNeedsAnOldClaim(cfg: Config, s: State, f: InFlight, k: Key)
    requires Enabled(cfg, s, Reclaim(f, k))
    ensures k in s.pool && s.pool[k].InFlight() && s.pool[k].claimedAt.Some?
    ensures s.pool[k].claimedAt.value < s.now - (if f.ForDispatch? then 3_600_000_000_000 else 300_000_000_000)
  {
  }
}
