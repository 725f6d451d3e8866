/** When a row is due, in every run: as it was scheduled, or as the backoff says. */
module DueTimes {
  import opened Prelude
  import opened Pool
  import opened Protocol
  import opened Invariants
  import opened Dispatches
  import opened Budget
  import Retry

  /** k was scheduled for the row's original time, and the row is due then, or when the
      backoff puts the attempt after some tally it has left behind. */
  ghost predicate IsDue(cfg: Config, done: seq<Action>, k: Key, r: Row) {
    && Schedule(k, r.originalAt) in done
    && (r.scheduledAt == r.originalAt || exists n: nat :: n < r.attempts && BackedOff(cfg.policy, r, n))
  }

  /** at is when the backoff puts the attempt after n of row r. */
  predicate IsAttempt(cfg: Config, r: Row, at: int, n: nat) {
    n <= r.attempts && at == r.originalAt + cfg.policy.backoff.Delay(n, cfg.policy.overflow)
  }

  ghost predicate AllDue(cfg: Config, s: State, done: seq<Action>) {
    && (forall k :: k in s.pool ==> IsDue(cfg, done, k, s.pool[k]))
    && forall t :: t in s.tasks && t.Rewrite? && t.key in s.pool ==> exists n: nat :: IsAttempt(cfg, s.pool[t.key], t.at, n)
  }

  lemma StaysDue(cfg: Config, done: seq<Action>, a: Action, k: Key, r: Row, r': Row)
    requires IsDue(cfg, done, k, r) && Later(r, r') && r'.scheduledAt == r.scheduledAt
    ensures IsDue(cfg, done + [a], k, r')
  {
    hide Retry.Backoff.Delay;
    if n: nat :| n < r.attempts && BackedOff(cfg.policy, r, n) {
      assert BackedOff(cfg.policy, r', n);
    }
  }

  lemma RewrittenIsDue(cfg: Config, done: seq<Action>, a: Action, k: Key, r: Row, at: int, n: nat)
    requires IsDue(cfg, done, k, r) && IsAttempt(cfg, r, at, n)
    ensures IsDue(cfg, done + [a], k, Rescheduled(r, at))
  {
    hide Retry.Backoff.Delay, Retry.IntendedDelay;
    Retry.DefaultRetries(r.originalAt, n, cfg.policy.overflow);
    Retry.RetriesAreBackedOff(cfg.policy, r.originalAt, n);
    assert BackedOff(cfg.policy, Rescheduled(r, at), n);
  }

  /** How an action bears on k's time. */
  predicate TimeStep(cfg: Config, s: State, a: Action, e: Effect, k: Key) {
    && (e.row.Put? && e.row.key == k && k !in s.pool ==> a == Schedule(k, e.row.row.originalAt) && e.row.row.scheduledAt == e.row.row.originalAt)
    && (e.row.Put? && e.row.key == k && k in s.pool && !a.Schedule? ==>
          || e.row.row.scheduledAt == s.pool[k].scheduledAt
          || (a.WriteReschedule? && a.key == k && e.row.row == Rescheduled(s.pool[k], a.at)))
    && (a.WriteReschedule? ==> Rewrite(a.key, a.attempts, a.at, a.source) in s.tasks)
    && (e.begun.Some? && e.begun.value.Rewrite? && e.begun.value.key == k ==>
          k in s.pool && e.row.Untouched? && e.begun.value.at == cfg.policy.NextRetryAt(s.pool[k].originalAt, s.pool[k].attempts))
  }

  lemma ActionsStepTheTime(cfg: Config, s: State, a: Action, k: Key)
    requires Enabled(cfg, s, a)
    ensures TimeStep(cfg, s, a, EffectOf(cfg, s, a), k)
  {
    hide Retry.Policy.NextRetryAt;
  }

  lemma PoolAfter(s: State, e: Effect)
    ensures Apply(s, e).pool == match e.row case Untouched => s.pool case Put(k, r) => s.pool[k := r] case Deleted(k) => s.pool - {k}
  {
  }

  lemma RowsStayDue(cfg: Config, s: State, a: Action, done: seq<Action>, k: Key)
    requires Inv(cfg, s) && Enabled(cfg, s, a) && AllDue(cfg, s, done) && k in Next(cfg, s, a).pool
    ensures IsDue(cfg, done + [a], k, Next(cfg, s, a).pool[k])
  {
    hide Inv, Enabled, EffectOf, Apply, IsDue, IsAttempt, Rescheduled;
    var e := EffectOf(cfg, s, a);
    ActionsStepTheTime(cfg, s, a, k);
    PoolAfter(s, e);
    NextGrows(cfg, s, a);
    if k !in s.pool {
      NewIsDue(cfg, done, a, k, e.row.row);
    } else {
      RowIsKnown(cfg, s, k);
      ScheduleIsNew(cfg, s, a);
      var r, r' := s.pool[k], Next(cfg, s, a).pool[k];
      if r'.scheduledAt == r.scheduledAt {
        StaysDue(cfg, done, a, k, r, r');
      } else {
        var n: nat :| IsAttempt(cfg, r, a.at, n);
        RewrittenIsDue(cfg, done, a, k, r, a.at, n);
      }
    }
  }

  lemma NewIsDue(cfg: Config, done: seq<Action>, a: Action, k: Key, r: Row)
    requires a == Schedule(k, r.originalAt) && r.scheduledAt == r.originalAt
    ensures IsDue(cfg, done + [a], k, r)
  {
  }

  lemma ScheduleIsNew(cfg: Config, s: State, a: Action)
    requires Enabled(cfg, s, a)
    ensures a.Schedule? ==> a.key !in s.ever && EffectOf(cfg, s, a).row == Put(a.key, NewRow(a.at))
  {
  }

  lemma TasksStayDue(cfg: Config, s: State, a: Action, done: seq<Action>, t: Task)
    requires Inv(cfg, s) && Enabled(cfg, s, a) && AllDue(cfg, s, done)
    requires t in Next(cfg, s, a).tasks && t.Rewrite? && t.key in Next(cfg, s, a).pool
    ensures exists n: nat :: IsAttempt(cfg, Next(cfg, s, a).pool[t.key], t.at, n)
  {
    hide Inv, Enabled, EffectOf, Apply, IsDue, Retry.Backoff.Delay, Retry.Policy.NextRetryAt;
    var e, s', k := EffectOf(cfg, s, a), Next(cfg, s, a), t.key;
    ActionsStepTheTime(cfg, s, a, k);
    FinishedIsHeld(cfg, s, a);
    PoolAfter(s, e);
    TasksAfter(s, e, t);
    TalliesAfter(cfg, s, a, k);
    assert Carries(t, k, true);
    RowIsKnown(cfg, s, k);
    NextGrows(cfg, s, a);
    if t in s.tasks {
      var n: nat :| IsAttempt(cfg, s.pool[k], t.at, n);
      assert IsAttempt(cfg, s'.pool[k], t.at, n);
    } else {
      Retry.RetriesAreBackedOff(cfg.policy, s.pool[k].originalAt, s.pool[k].attempts);
      assert IsAttempt(cfg, s'.pool[k], t.at, s.pool[k].attempts);
    }
  }

  lemma StepKeepsDue(cfg: Config, s: State, a: Action, done: seq<Action>)
    requires Inv(cfg, s) && Enabled(cfg, s, a) && AllDue(cfg, s, done)
    ensures AllDue(cfg, Next(cfg, s, a), done + [a])
  {
    hide Inv, Enabled, Next, IsDue, IsAttempt;
    forall k | k in Next(cfg, s, a).pool ensures IsDue(cfg, done + [a], k, Next(cfg, s, a).pool[k]) {
      RowsStayDue(cfg, s, a, done, k);
    }
    forall t | t in Next(cfg, s, a).tasks && t.Rewrite? && t.key in Next(cfg, s, a).pool
      ensures exists n: nat :: IsAttempt(cfg, Next(cfg, s, a).pool[t.key], t.at, n)
    {
      TasksStayDue(cfg, s, a, done, t);
    }
  }

  lemma {:induction false} RunKeepsDue(cfg: Config, s: State, run: seq<Action>, done: seq<Action>)
    requires Inv(cfg, s) && IsRun(cfg, s, run) && AllDue(cfg, s, done)
    ensures AllDue(cfg, Exec(cfg, s, run), done + run)
    decreases |run|
  {
    hide Inv, Enabled, Next, AllDue;
    if |run| == 0 {
      assert done + run == done;
    } else {
      StepKeepsInv(cfg, s, run[0]);
      StepKeepsDue(cfg, s, run[0], done);
      RunKeepsDue(cfg, Next(cfg, s, run[0]), run[1..], done + [run[0]]);
      assert done + [run[0]] + run[1..] == done + run;
    }
  }

  lemma NothingIsDue(cfg: Config, now: int)
    ensures AllDue(cfg, Init(now), [])
  {
  }

  /** In every run a row keeps the time its Delivery was scheduled for as its original
      time, and is due then or a backoff after it: that of a tally the row has left
      behind, which under the defaults, up to 26, is the intended one. Claims, reclaims
      and verdicts on the address move no time, and overlapping reschedules cannot add
      up. */
  lemma RowsAreDueByTheBackoff(cfg: Config, now: int, run: seq<Action>, k: Key)
    requires IsRun(cfg, Init(now), run) && k in Exec(cfg, Init(now), run).pool
    ensures var r := Exec(cfg, Init(now), run).pool[k];
      && Schedule(k, r.originalAt) in run
      && (|| r.scheduledAt == r.originalAt
          || exists n: nat :: n < r.attempts
               && r.scheduledAt == r.originalAt + cfg.policy.backoff.Delay(n, cfg.policy.overflow)
               && (cfg.policy == Retry.DefaultPolicy(cfg.policy.overflow) && n <= 26 ==> r.scheduledAt == r.originalAt + Retry.IntendedDelay(n)))
  {
    hide Init, IsRun, Exec, Inv, Retry.Backoff.Delay, Retry.IntendedDelay, Retry.DefaultPolicy;
    InitHolds(cfg, now);
    NothingIsDue(cfg, now);
    RunKeepsDue(cfg, Init(now), run, []);
    assert [] + run == run;
    var r := Exec(cfg, Init(now), run).pool[k];
    assert IsDue(cfg, run, k, r);
    if n: nat :| n < r.attempts && BackedOff(cfg.policy, r, n) {
      assert r.scheduledAt == r.originalAt + cfg.policy.backoff.Delay(n, cfg.policy.overflow);
    }
  }
}
