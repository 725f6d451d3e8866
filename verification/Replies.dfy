/** What the outcomes of a Delivery say of the replies of the SMTP servers. */
module Replies {
  import opened Prelude
  import opened Pool
  import opened Protocol
  import opened Invariants
  import opened Dispatches
  import opened Budget
  import opened SendOnce

  /** The outcomes told of a message that was sent. */
  predicate IsReport(o: Outcome) {
    o.Delivered? || o.Errored? || (o.Bounced? && o.origin.Some?)
  }

  function MessageOf(o: Outcome): nat
    requires IsReport(o)
  {
    match o
    case Delivered(m) => m
    case Errored(m) => m
    case Bounced(origin) => origin.value
  }

  /** o is told of message m for a reply to it among the actions done: delivered for an
      accepted one; bounced for a final refusal, or for a passing one past the budget of
      the Envelope; an error for a passing one within it. */
  predicate IsEarned(cfg: Config, sending: seq<Envelope>, done: seq<Action>, m: nat, o: Outcome) {
    && m < |sending|
    && IsReport(o) && MessageOf(o) == m
    && var retries := cfg.policy.CanRetry(sending[m].builtAt);
    && (o.Delivered? ==> Transact(m, Taken) in done)
    && (o.Errored? ==> retries && Transact(m, RefusedForNow) in done)
    && (o.Bounced? ==> Transact(m, RefusedForGood) in done || (!retries && Transact(m, RefusedForNow) in done))
  }

  ghost predicate Earned(cfg: Config, s: State, done: seq<Action>) {
    && (forall t :: t in s.tasks && t.Report? ==> IsEarned(cfg, s.sending, done, t.msg, t.outcome))
    && (forall x :: x in s.stats && IsReport(x.outcome) ==>
          IsEarned(cfg, s.sending, done, MessageOf(x.outcome), x.outcome) && s.sending[MessageOf(x.outcome)].key == x.key)
  }

  lemma StaysEarned(cfg: Config, sending: seq<Envelope>, sending': seq<Envelope>, done: seq<Action>, a: Action, m: nat, o: Outcome)
    requires sending <= sending' && IsEarned(cfg, sending, done, m, o)
    ensures IsEarned(cfg, sending', done + [a], m, o)
  {
  }

  /** A reply is reported by its kind and the Envelope's own verdict. */
  lemma TransactionEarns(cfg: Config, s: State, m: nat, reply: Reply, done: seq<Action>)
    requires Inv(cfg, s) && Enabled(cfg, s, Transact(m, reply))
    ensures var b := EffectOf(cfg, s, Transact(m, reply)).begun;
      b.Some? && b.value.Report? && b.value.msg == m && IsEarned(cfg, s.sending, done + [Transact(m, reply)], m, b.value.outcome)
  {
    hide RowOK, KeyOK, OutcomeOK, TaskOK;
    assert EnvelopeOK(cfg, s, s.sending[m]);
  }

  predicate ReportStep(s: State, a: Action, e: Effect) {
    && (e.begun.Some? && e.begun.value.Report? ==> a.Transact?)
    && (e.published.Some? && IsReport(e.published.value.outcome) ==>
          && a.PublishReport? && a.msg < |s.sending| && e.finished == Some(Report(a.msg, a.outcome))
          && e.published.value == Event(s.sending[a.msg].key, a.outcome))
  }

  lemma ActionsStepTheReport(cfg: Config, s: State, a: Action)
    requires Inv(cfg, s) && Enabled(cfg, s, a)
    ensures ReportStep(s, a, EffectOf(cfg, s, a))
  {
    hide RowOK, KeyOK, OutcomeOK, EnvelopeOK, TallyOK, SourceOK;
    match a
    case PublishVerdict(k, v) => assert TaskOK(cfg, s, Announce(k, v));
    case _ =>
  }

  lemma StepKeepsEarned(cfg: Config, s: State, a: Action, done: seq<Action>)
    requires Inv(cfg, s) && Enabled(cfg, s, a) && Earned(cfg, s, done)
    ensures Earned(cfg, Next(cfg, s, a), done + [a])
  {
    hide Inv, Enabled, EffectOf, Apply, IsEarned, Appended;
    var e, s' := EffectOf(cfg, s, a), Next(cfg, s, a);
    ActionsStepTheReport(cfg, s, a);
    FinishedIsHeld(cfg, s, a);
    SendingAfter(s, e);
    StatsAfter(s, e);
    StreamGrows(s.sending, e.sent);
    if a.Transact? {
      TransactionEarns(cfg, s, a.msg, a.reply, done);
    }
    forall t | t in s'.tasks && t.Report? ensures IsEarned(cfg, s'.sending, done + [a], t.msg, t.outcome) {
      TasksAfter(s, e, t);
      if t in s.tasks {
        StaysEarned(cfg, s.sending, s'.sending, done, a, t.msg, t.outcome);
      } else {
        MoreSending(cfg, s.sending, s'.sending, done + [a], t.msg, t.outcome);
      }
    }
    forall x | x in s'.stats && IsReport(x.outcome)
      ensures IsEarned(cfg, s'.sending, done + [a], MessageOf(x.outcome), x.outcome)
      ensures MessageOf(x.outcome) < |s'.sending| && s'.sending[MessageOf(x.outcome)].key == x.key
    {
      AppendedHolds(s.stats, e.published, x);
      if x !in s.stats {
        NamesItsMessage(cfg, s.sending, done, a.msg, a.outcome);
      }
      NamesItsMessage(cfg, s.sending, done, MessageOf(x.outcome), x.outcome);
      StaysEarned(cfg, s.sending, s'.sending, done, a, MessageOf(x.outcome), x.outcome);
    }
  }

  lemma AppendedHolds(stats: seq<Event>, more: Option<Event>, x: Event)
    ensures x in stats + Appended(more) <==> x in stats || more == Some(x)
  {
  }

  lemma NamesItsMessage(cfg: Config, sending: seq<Envelope>, done: seq<Action>, m: nat, o: Outcome)
    requires IsEarned(cfg, sending, done, m, o)
    ensures IsReport(o) && MessageOf(o) == m && m < |sending|
  {
  }

  lemma MoreSending(cfg: Config, sending: seq<Envelope>, sending': seq<Envelope>, done: seq<Action>, m: nat, o: Outcome)
    requires sending <= sending' && IsEarned(cfg, sending, done, m, o)
    ensures IsEarned(cfg, sending', done, m, o)
  {
  }

  lemma {:induction false} RunKeepsEarned(cfg: Config, s: State, run: seq<Action>, done: seq<Action>)
    requires Inv(cfg, s) && IsRun(cfg, s, run) && Earned(cfg, s, done)
    ensures Earned(cfg, Exec(cfg, s, run), done + run)
    decreases |run|
  {
    hide Inv, Enabled, Next, Earned;
    if |run| == 0 {
      assert done + run == done;
    } else {
      StepKeepsInv(cfg, s, run[0]);
      StepKeepsEarned(cfg, s, run[0], done);
      RunKeepsEarned(cfg, Next(cfg, s, run[0]), run[1..], done + [run[0]]);
      assert done + [run[0]] + run[1..] == done + run;
    }
  }

  lemma InitOwesNothing(cfg: Config, now: int)
    ensures Earned(cfg, Init(now), [])
  {
  }

  /** In every run, what the stats tell of a message is what its server said. Delivered
      means a reply that took it. An error means a passing refusal, of an Envelope built
      with a retry left. Bounced means a final refusal, or a passing one of an Envelope
      built with none. Each names the Delivery the Envelope was built from. */
  lemma OutcomesTellTheReply(cfg: Config, now: int, run: seq<Action>, x: Event)
    requires IsRun(cfg, Init(now), run) && x in Exec(cfg, Init(now), run).stats && IsReport(x.outcome)
    ensures var s, m := Exec(cfg, Init(now), run), MessageOf(x.outcome);
      && m < |s.sending| && s.sending[m].key == x.key
      && (x.outcome == Delivered(m) ==> Transact(m, Taken) in run)
      && (x.outcome == Errored(m) ==> Transact(m, RefusedForNow) in run && cfg.policy.CanRetry(s.sending[m].builtAt))
      && (x.outcome == Bounced(Some(m)) ==>
            || Transact(m, RefusedForGood) in run
            || (Transact(m, RefusedForNow) in run && !cfg.policy.CanRetry(s.sending[m].builtAt)))
  {
    hide Init, IsRun, Exec, Inv;
    InitHolds(cfg, now);
    InitOwesNothing(cfg, now);
    RunKeepsEarned(cfg, Init(now), run, []);
    assert [] + run == run;
  }

  // ---- No more outcomes than transactions ----

  /** How often an outcome of message m was told. */
  function Told(stats: seq<Event>, m: nat): nat {
    if |stats| == 0 then 0
    else
      var o := stats[|stats| - 1].outcome;
      Told(stats[..|stats| - 1], m) + if IsReport(o) && MessageOf(o) == m then 1 else 0
  }

  /** The outcomes of message m that are still to be told. */
  function Untold(tasks: multiset<Task>, m: nat): nat {
    tasks[Report(m, Delivered(m))] + tasks[Report(m, Errored(m))] + tasks[Report(m, Bounced(Some(m)))]
  }

  predicate AllTransacted(s: State, m: nat) {
    Told(s.stats, m) + Untold(s.tasks, m) <= s.history.transactions[m]
  }

  lemma ToldAfter(stats: seq<Event>, more: Option<Event>, m: nat)
    ensures Told(stats + Appended(more), m) ==
      Told(stats, m) + if more.Some? && IsReport(more.value.outcome) && MessageOf(more.value.outcome) == m then 1 else 0
  {
    if more.Some? {
      assert (stats + [more.value])[..|stats|] == stats;
    } else {
      assert stats + Appended(more) == stats;
    }
  }

  function IsUntold(t: Option<Task>, m: nat): nat {
    if t in {Some(Report(m, Delivered(m))), Some(Report(m, Errored(m))), Some(Report(m, Bounced(Some(m))))} then 1 else 0
  }

  lemma UntoldAfter(s: State, e: Effect, m: nat)
    requires e.finished.Some? ==> e.finished.value in s.tasks
    ensures Untold(Apply(s, e).tasks, m) == Untold(s.tasks, m) - IsUntold(e.finished, m) + IsUntold(e.begun, m)
  {
    hide Apply;
    TasksAfter(s, e, Report(m, Delivered(m)));
    TasksAfter(s, e, Report(m, Errored(m)));
    TasksAfter(s, e, Report(m, Bounced(Some(m))));
  }

  lemma BegunIsTransacted(cfg: Config, s: State, a: Action, m: nat)
    requires Enabled(cfg, s, a)
    ensures IsUntold(EffectOf(cfg, s, a).begun, m) > 0 ==> EffectOf(cfg, s, a).note == Transaction(m)
  {
  }

  lemma StepKeepsTransacted(cfg: Config, s: State, a: Action, done: seq<Action>, m: nat)
    requires Inv(cfg, s) && Enabled(cfg, s, a) && Earned(cfg, s, done) && AllTransacted(s, m)
    ensures AllTransacted(Next(cfg, s, a), m)
  {
    hide Inv, Enabled, EffectOf, Apply, Told, Untold, Appended;
    var e := EffectOf(cfg, s, a);
    ActionsStepTheReport(cfg, s, a);
    FinishedIsHeld(cfg, s, a);
    StatsAfter(s, e);
    ToldAfter(s.stats, e.published, m);
    UntoldAfter(s, e, m);
    AccountsNext(s, e, m);
    BegunIsTransacted(cfg, s, a, m);
  }

  lemma {:induction false} RunKeepsTransacted(cfg: Config, s: State, run: seq<Action>, done: seq<Action>, m: nat)
    requires Inv(cfg, s) && IsRun(cfg, s, run) && Earned(cfg, s, done) && AllTransacted(s, m)
    ensures AllTransacted(Exec(cfg, s, run), m)
    decreases |run|
  {
    hide Inv, Enabled, Next, Earned, AllTransacted;
    if |run| > 0 {
      StepKeepsInv(cfg, s, run[0]);
      StepKeepsEarned(cfg, s, run[0], done);
      StepKeepsTransacted(cfg, s, run[0], done, m);
      RunKeepsTransacted(cfg, Next(cfg, s, run[0]), run[1..], done + [run[0]], m);
    }
  }

  /** So a message is told of once at most, up to the guard's own failures, however often
      it is delivered to the senders. */
  lemma AtMostOneOutcome(cfg: Config, now: int, run: seq<Action>, m: nat)
    requires IsRun(cfg, Init(now), run)
    ensures var s := Exec(cfg, Init(now), run);
      && Told(s.stats, m) <= s.history.transactions[m]
      && Told(s.stats, m) <= 1 + s.history.faults[m] + s.history.expired[m]
  {
    hide Init, IsRun, Exec, Inv, Earned, Told;
    InitHolds(cfg, now);
    InitOwesNothing(cfg, now);
    NothingTransacted(now, m);
    RunKeepsTransacted(cfg, Init(now), run, [], m);
    AtMostOneTransaction(cfg, now, run, m);
  }

  lemma NothingTransacted(now: int, m: nat)
    ensures AllTransacted(Init(now), m)
  {
  }
}
