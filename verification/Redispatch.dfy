/** What the Retry Budget does not bound: runs that reclaim for ever, and what an
    int64 tally past 26 does to the verdict. */
module Redispatch {
  import opened Prelude
  import opened Pool
  import opened Protocol
  import opened Invariants
  import Retry

  /** k waits in the Pool, due, with this history and no outcome published. */
  predicate Waiting(s: State, k: Key, timely: nat, reclaims: nat) {
    && k in s.pool && Due(s.pool[k], s.now)
    && s.pool[k].attempts == timely + reclaims
    && s.history.timely[k] == timely && s.history.reclaims[k] == reclaims && s.history.stale[k] == 0
    && s.stats == []
  }

  lemma Admitted(cfg: Config, k: Key) returns (run: seq<Action>)
    requires cfg.passes(k.email)
    ensures IsRun(cfg, Init(0), run)
    ensures var s := Exec(cfg, Init(0), run); Waiting(s, k, 0, 0) && s.sending == []
  {
    run := [];
    ExecSnoc(cfg, Init(0), run, Schedule(k, 0));
    run := run + [Schedule(k, 0)];
    ExecSnoc(cfg, Init(0), run, ClaimForValidation(k));
    run := run + [ClaimForValidation(k)];
    ExecSnoc(cfg, Init(0), run, MarkValidated(k));
    run := run + [MarkValidated(k)];
  }

  /** k is claimed for dispatch since `since`, a worker holding `held` for it. */
  predicate Claimed(s: State, k: Key, timely: nat, reclaims: nat, since: int, held: Option<Task>) {
    && k in s.pool && s.pool[k].status.Sending? && s.pool[k].claimedAt == Some(since)
    && s.pool[k].attempts == timely + reclaims && s.pool[k].scheduledAt <= s.now
    && s.history.timely[k] == timely && s.history.reclaims[k] == reclaims && s.history.stale[k] == 0
    && s.stats == []
    && (held.Some? ==> held.value in s.tasks)
  }

  lemma ClaimEffect(cfg: Config, s: State, k: Key)
    requires k in s.pool && Due(s.pool[k], s.now)
    ensures Enabled(cfg, s, ClaimForDispatch(k))
    ensures EffectOf(cfg, s, ClaimForDispatch(k))
      == Effect(None, None, Some(Dispatch(k, s.pool[k].attempts)), Put(k, ClaimedForDispatch(s.pool[k], s.now)), None, None, Kept, DispatchClaim(k))
  {
  }

  lemma Claim(cfg: Config, s: State, k: Key, timely: nat, reclaims: nat)
    requires Waiting(s, k, timely, reclaims)
    ensures Enabled(cfg, s, ClaimForDispatch(k))
    ensures var s' := Next(cfg, s, ClaimForDispatch(k));
      && Claimed(s', k, timely, reclaims, s.now, Some(Dispatch(k, timely + reclaims)))
      && s'.now == s.now && s'.sending == s.sending
  {
    hide Enabled, EffectOf;
    ClaimEffect(cfg, s, k);
  }

  lemma Publish(cfg: Config, s: State, k: Key, timely: nat, reclaims: nat, since: int)
    requires Claimed(s, k, timely, reclaims, since, Some(Dispatch(k, timely + reclaims)))
    ensures Enabled(cfg, s, PublishEnvelope(k, timely + reclaims))
    ensures var s' := Next(cfg, s, PublishEnvelope(k, timely + reclaims));
      && Claimed(s', k, timely, reclaims, since, None)
      && s'.now == s.now && s'.sending == s.sending + [Build(cfg, k, timely + reclaims)]
  {
  }

  lemma Wait(cfg: Config, s: State, k: Key, timely: nat, reclaims: nat, since: int, until: int)
    requires Claimed(s, k, timely, reclaims, since, None) && s.now <= until
    ensures Enabled(cfg, s, Tick(until))
    ensures var s' := Next(cfg, s, Tick(until));
      && Claimed(s', k, timely, reclaims, since, None) && s'.now == until && s'.sending == s.sending
  {
  }

  lemma TakeBack(cfg: Config, s: State, k: Key, timely: nat, reclaims: nat, since: int)
    requires Claimed(s, k, timely, reclaims, since, None) && since < s.now - DISPATCH_STRAND
    ensures Enabled(cfg, s, Reclaim(ForDispatch, k))
    ensures var s' := Next(cfg, s, Reclaim(ForDispatch, k)); Waiting(s', k, timely, reclaims + 1) && s'.sending == s.sending
  {
  }

  /** Claimed, published, never answered, taken back an hour later. */
  lemma ReclaimedOnce(cfg: Config, s: State, k: Key, timely: nat, reclaims: nat) returns (run: seq<Action>)
    requires Waiting(s, k, timely, reclaims)
    ensures IsRun(cfg, s, run)
    ensures Waiting(Exec(cfg, s, run), k, timely, reclaims + 1)
    ensures Exec(cfg, s, run).sending == s.sending + [Build(cfg, k, timely + reclaims)]
  {
    hide Enabled, Next, Waiting, Claimed;
    var publish, tick := PublishEnvelope(k, timely + reclaims), Tick(s.now + DISPATCH_STRAND + 1);
    run := [];
    Claim(cfg, s, k, timely, reclaims);
    ExecSnoc(cfg, s, run, ClaimForDispatch(k));
    run := run + [ClaimForDispatch(k)];
    Publish(cfg, Exec(cfg, s, run), k, timely, reclaims, s.now);
    ExecSnoc(cfg, s, run, publish);
    run := run + [publish];
    Wait(cfg, Exec(cfg, s, run), k, timely, reclaims, s.now, tick.now);
    ExecSnoc(cfg, s, run, tick);
    run := run + [tick];
    TakeBack(cfg, Exec(cfg, s, run), k, timely, reclaims, s.now);
    ExecSnoc(cfg, s, run, Reclaim(ForDispatch, k));
    run := run + [Reclaim(ForDispatch, k)];
  }

  lemma Fail(cfg: Config, s: State, k: Key, timely: nat, reclaims: nat, since: int)
    requires Claimed(s, k, timely, reclaims, since, Some(Dispatch(k, timely + reclaims)))
    ensures Enabled(cfg, s, FailToDispatch(k, timely + reclaims))
    ensures Claimed(Next(cfg, s, FailToDispatch(k, timely + reclaims)), k, timely, reclaims, since,
                    Some(RetryOrFail(cfg, k, timely + reclaims, Dispatching)))
  {
  }

  lemma ReadBack(cfg: Config, s: State, k: Key, timely: nat, reclaims: nat, since: int) returns (at: int)
    requires Claimed(s, k, timely, reclaims, since, Some(Reread(k, timely + reclaims, Dispatching)))
    ensures Enabled(cfg, s, ReadForReschedule(k, timely + reclaims, Dispatching))
    ensures Claimed(Next(cfg, s, ReadForReschedule(k, timely + reclaims, Dispatching)), k, timely, reclaims, since,
                    Some(Rewrite(k, timely + reclaims, at, Dispatching)))
  {
    at := cfg.policy.NextRetryAt(s.pool[k].originalAt, s.pool[k].attempts);
  }

  lemma WriteEffect(cfg: Config, s: State, k: Key, n: nat, at: int)
    requires Rewrite(k, n, at, Dispatching) in s.tasks && k in s.pool && s.pool[k].attempts == n
    ensures Enabled(cfg, s, WriteReschedule(k, n, at, Dispatching))
    ensures EffectOf(cfg, s, WriteReschedule(k, n, at, Dispatching))
      == Effect(None, Some(Rewrite(k, n, at, Dispatching)), None, Put(k, Rescheduled(s.pool[k], at)), None, None, Kept, TimelyReschedule(k))
  {
  }

  lemma WriteBack(cfg: Config, s: State, k: Key, timely: nat, reclaims: nat, since: int, at: int)
    requires Claimed(s, k, timely, reclaims, since, Some(Rewrite(k, timely + reclaims, at, Dispatching)))
    ensures Enabled(cfg, s, WriteReschedule(k, timely + reclaims, at, Dispatching))
    ensures var s' := Next(cfg, s, WriteReschedule(k, timely + reclaims, at, Dispatching));
      s'.now == s.now && Waiting(s'.(now := if at > s.now then at else s.now), k, timely + 1, reclaims)
  {
    hide Enabled, EffectOf;
    WriteEffect(cfg, s, k, timely + reclaims, at);
  }

  lemma TickOnly(cfg: Config, s: State, now: int)
    requires s.now <= now
    ensures Enabled(cfg, s, Tick(now)) && Next(cfg, s, Tick(now)) == s.(now := now)
  {
  }

  /** Claimed, not built, handed back by the retry chokepoint, due again in time. */
  lemma RescheduledOnce(cfg: Config, s: State, k: Key, timely: nat, reclaims: nat) returns (run: seq<Action>)
    requires Waiting(s, k, timely, reclaims)
    requires cfg.policy.CanRetry(timely + reclaims)
    ensures IsRun(cfg, s, run)
    ensures Waiting(Exec(cfg, s, run), k, timely + 1, reclaims)
  {
    hide Enabled, Next, Waiting, Claimed;
    var n := timely + reclaims;
    run := [];
    Claim(cfg, s, k, timely, reclaims);
    ExecSnoc(cfg, s, run, ClaimForDispatch(k));
    run := run + [ClaimForDispatch(k)];
    Fail(cfg, Exec(cfg, s, run), k, timely, reclaims, s.now);
    ExecSnoc(cfg, s, run, FailToDispatch(k, n));
    run := run + [FailToDispatch(k, n)];
    var at := ReadBack(cfg, Exec(cfg, s, run), k, timely, reclaims, s.now);
    ExecSnoc(cfg, s, run, ReadForReschedule(k, n, Dispatching));
    run := run + [ReadForReschedule(k, n, Dispatching)];
    WriteBack(cfg, Exec(cfg, s, run), k, timely, reclaims, s.now, at);
    ExecSnoc(cfg, s, run, WriteReschedule(k, n, at, Dispatching));
    run := run + [WriteReschedule(k, n, at, Dispatching)];
    var here := Exec(cfg, s, run).now;
    var later := if at > here then at else here;
    TickOnly(cfg, Exec(cfg, s, run), later);
    ExecSnoc(cfg, s, run, Tick(later));
    run := run + [Tick(later)];
  }

  lemma {:induction false} ReclaimedTimes(cfg: Config, s: State, k: Key, timely: nat, n: nat) returns (run: seq<Action>)
    requires Waiting(s, k, timely, 0)
    ensures IsRun(cfg, s, run)
    ensures Waiting(Exec(cfg, s, run), k, timely, n)
    ensures |Exec(cfg, s, run).sending| == |s.sending| + n
  {
    hide Enabled, Next, Waiting;
    run := [];
    if n > 0 {
      run := ReclaimedTimes(cfg, s, k, timely, n - 1);
      var once := ReclaimedOnce(cfg, Exec(cfg, s, run), k, timely, n - 1);
      ExecConcat(cfg, s, run, once);
      run := run + once;
    }
  }

  lemma {:induction false} RescheduledTimes(cfg: Config, s: State, k: Key, n: nat) returns (run: seq<Action>)
    requires Waiting(s, k, 0, 0)
    requires forall i: nat :: i < n ==> cfg.policy.CanRetry(i)
    ensures IsRun(cfg, s, run)
    ensures Waiting(Exec(cfg, s, run), k, n, 0)
  {
    hide Enabled, Next, Waiting;
    run := [];
    if n > 0 {
      run := RescheduledTimes(cfg, s, k, n - 1);
      var once := RescheduledOnce(cfg, Exec(cfg, s, run), k, n - 1, 0);
      ExecConcat(cfg, s, run, once);
      run := run + once;
    }
  }

  /** A reclaim consults no budget: for every n there is a run in which an Envelope
      was published n times for one Delivery, none was answered, nobody was told
      anything, and the Delivery is due again. */
  lemma NeverAnsweredIsRedispatchedForever(cfg: Config, k: Key, n: nat) returns (run: seq<Action>)
    requires cfg.passes(k.email)
    ensures IsRun(cfg, Init(0), run)
    ensures var s := Exec(cfg, Init(0), run);
      Waiting(s, k, 0, n) && |s.sending| == n && Enabled(cfg, s, ClaimForDispatch(k))
  {
    var admitted := Admitted(cfg, k);
    var reclaimed := ReclaimedTimes(cfg, Exec(cfg, Init(0), admitted), k, 0, n);
    hide Enabled, Next;
    ExecConcat(cfg, Init(0), admitted, reclaimed);
    run := admitted + reclaimed;
    WaitingIsClaimable(cfg, Exec(cfg, Init(0), run), k, n);
  }

  lemma WaitingIsClaimable(cfg: Config, s: State, k: Key, n: nat)
    requires Waiting(s, k, 0, n)
    ensures Enabled(cfg, s, ClaimForDispatch(k))
  {
  }

  lemma TenThenTwentySeven(p: Retry.Policy)
    requires p == Retry.DefaultPolicy(p.overflow)
    ensures forall i: nat :: i < 10 ==> p.CanRetry(i)
    ensures p.CanRetry(27)
  {
    forall i: nat | i < 10 || i == 27 ensures p.CanRetry(i) {
      Retry.CanRetryExactly(i, p.overflow);
    }
  }

  /** The bound of sixteen is exact: with seventeen reclaims the tally reaches 27,
      where the delay has wrapped to its floor, and a budget spent at ten
      reschedules grants an eleventh. */
  lemma SeventeenReclaimsReopenTheBudget(cfg: Config, k: Key) returns (run: seq<Action>)
    requires cfg.policy == Retry.DefaultPolicy(cfg.policy.overflow)
    requires cfg.passes(k.email)
    ensures IsRun(cfg, Init(0), run)
    ensures Waiting(Exec(cfg, Init(0), run), k, 11, 17)
  {
    hide Enabled, Next, Waiting;
    run := Admitted(cfg, k);
    TenThenTwentySeven(cfg.policy);
    var next := RescheduledTimes(cfg, Exec(cfg, Init(0), run), k, 10);
    ExecConcat(cfg, Init(0), run, next);
    run := run + next;
    next := ReclaimedTimes(cfg, Exec(cfg, Init(0), run), k, 10, 17);
    ExecConcat(cfg, Init(0), run, next);
    run := run + next;
    next := RescheduledOnce(cfg, Exec(cfg, Init(0), run), k, 10, 17);
    ExecConcat(cfg, Init(0), run, next);
    run := run + next;
  }
}
