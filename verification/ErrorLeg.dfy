/** Runs that end a Delivery as Failed on an answered error, one for each of the causes
    there can be. */
module ErrorLeg {
  import opened Pool
  import opened Protocol
  import opened Dispatches
  import opened Budget
  import opened Answers
  import opened Scenes
  import Retry
  import SendOnce

  /** A run that plays marks and heard, and then one that plays heard' alone. */
  lemma Joined(cfg: Config, s: State, a: seq<Action>, b: seq<Action>, k: Key, marks: nat, heard: multiset<nat>, heard': multiset<nat>)
    returns (run: seq<Action>)
    requires IsRun(cfg, s, a) && IsRun(cfg, Exec(cfg, s, a), b)
    requires Plays(cfg, s, a, k, marks, heard) && Plays(cfg, Exec(cfg, s, a), b, k, 0, heard')
    ensures run == a + b && IsRun(cfg, s, run) && Exec(cfg, s, run) == Exec(cfg, Exec(cfg, s, a), b)
    ensures Plays(cfg, s, run, k, marks, heard + heard')
  {
    hide IsRun, Exec, Plays;
    PlaysConcat(cfg, s, a, b, k, marks, heard, 0, heard');
    run := a + b;
  }

  /** The same where the second run answers nothing. */
  lemma Continued(cfg: Config, s: State, a: seq<Action>, b: seq<Action>, k: Key, marks: nat) returns (run: seq<Action>)
    requires IsRun(cfg, s, a) && IsRun(cfg, Exec(cfg, s, a), b)
    requires Plays(cfg, s, a, k, marks, multiset{}) && Plays(cfg, Exec(cfg, s, a), b, k, 0, multiset{})
    ensures run == a + b && IsRun(cfg, s, run) && Exec(cfg, s, run) == Exec(cfg, Exec(cfg, s, a), b)
    ensures Plays(cfg, s, run, k, marks, multiset{})
  {
    hide IsRun, Exec, Plays;
    run := Joined(cfg, s, a, b, k, marks, multiset{}, multiset{});
    NoneTwice();
  }

  /** n dispatches fail, each in turn handed back. */
  lemma {:induction false} ReturnInTurn(cfg: Config, s: State, k: Key, base: multiset<Task>, row: Row, past: Past, n: nat)
    returns (run: seq<Action>, row': Row)
    requires cfg.policy == Retry.DefaultPolicy(cfg.policy.overflow) && past.Tally() + n <= LAST + 1
    requires Scene(s, k, base, row, past) && NoVerdicts(base, k) && Due(row, s.now)
    ensures IsRun(cfg, s, run) && Plays(cfg, s, run, k, 0, multiset{})
    ensures var s' := Exec(cfg, s, run);
      Scene(s', k, base, row', past.(timely := past.timely + n)) && SameStreams(s, s') && Due(row', s'.now)
  {
    hide Enabled, Next, Plays, Scene, Retry.DefaultPolicy, Retry.Policy.CanRetry, NoVerdicts;
    if n == 0 {
      run, row' := [], row;
      NothingPlays(cfg, s, k);
    } else {
      run, row' := ReturnInTurn(cfg, s, k, base, row, past, n - 1);
      var here, past' := Exec(cfg, s, run), past.(timely := past.timely + n - 1);
      ClaimOnce(cfg, here, k, base, row', past');
      run := Continued(cfg, s, run, [ClaimForDispatch(k)], k, 0);
      row' := ClaimedForDispatch(row', here.now);
      FirstTen(cfg, past'.Tally());
      var next;
      next, row' := Return(cfg, Exec(cfg, s, run), k, base, row', past', past'.Tally());
      run := Continued(cfg, s, run, next, k, 0);
    }
  }

  /** An error read past the last retryable tally, and what it comes to. */
  lemma GiveUpOn(cfg: Config, s: State, k: Key, base: multiset<Task>, row: Row, past: Past, i: nat, m: nat) returns (run: seq<Action>)
    requires cfg.policy == Retry.DefaultPolicy(cfg.policy.overflow) && past.Tally() == LAST + 1
    requires Scene(s, k, base, row, past) && NoVerdicts(base, k) && i < |s.stats| && s.stats[i] == Event(k, Errored(m))
    ensures IsRun(cfg, s, run) && Plays(cfg, s, run, k, 0, multiset{m})
    ensures forall a :: a in run ==> IsHarmless(a) || a.ConsumeError?
    ensures var s' := Exec(cfg, s, run);
      && Scene(s', k, base + multiset{Remove(k)}, row, past)
      && s'.sending == s.sending && s'.stats == s.stats + [Event(k, Failed(LAST + 1, Answered(m)))]
  {
    hide Enabled, Next, Scene, NoVerdicts, Plays, ReadBy, Retry.DefaultPolicy, Retry.Policy.CanRetry;
    FirstTen(cfg, LAST + 1);
    SceneHolds(s, k, base, row, past);
    ErrorIsRead(s, k, i, m);
    Consume(cfg, s, k, base, row, past, i, m);
    PlaysFirst(cfg, s, ConsumeError(i), k);
    run := [ConsumeError(i)];
    var a := PublishFailed(k, LAST + 1, Answered(m), true);
    GiveUpTold(cfg, Exec(cfg, s, run), k, base, row, past, LAST + 1, Answered(m));
    PlaysHarmless(cfg, s, run, a, k, 0, multiset{m});
    run := run + [a];
  }

  // ---- An error answered twice ----

  /** The last error, answered at tally 9, earns a Delivery its tenth reschedule; the same
      error, redelivered, reads 10 and ends it as Failed while that retry waits. It was
      marked validated once and never reclaimed, no reschedule is stale and every verdict
      stands alone. */
  lemma ARedeliveryEndsAGrantedRetry(cfg: Config, k: Key) returns (run: seq<Action>)
    requires cfg.policy == Retry.DefaultPolicy(cfg.policy.overflow) && cfg.passes(k.email)
    ensures IsRun(cfg, Init(0), run) && Alone(cfg, Init(0), run, k) && Marks(run, k) == 1
    ensures TimesRead(cfg, Init(0), run, k, 0) == 2
    ensures var s := Exec(cfg, Init(0), run);
      var h := s.history;
      && h.timely[k] == 10 && h.stale[k] == 0 && h.reclaims[k] == 0
      && s.sending == [Envelope(k, 9, true)]
      && s.stats == [Event(k, Errored(0)), Event(k, Failed(10, Answered(0)))]
      && k in s.pool && s.pool[k].status.Scheduled? && Remove(k) in s.tasks
  {
    hide Enabled, Next, Scene, Alone, Retry.DefaultPolicy, Retry.Policy.CanRetry, Marks, TimesRead;
    var base := multiset{Announce(k, Accepted)};
    var row, next;
    run, row := Admit(cfg, k);
    next, row := ReturnInTurn(cfg, Exec(cfg, Init(0), run), k, base, row, Past(0, 0, 0), LAST);
    run := Continued(cfg, Init(0), run, next, k, 1);
    FirstTen(cfg, LAST);
    var s := Exec(cfg, Init(0), run);
    next := SendAndRefuse(cfg, s, k, base, row, Past(LAST, 0, 0));
    row := ClaimedForDispatch(row, s.now);
    run := Continued(cfg, Init(0), run, next, k, 1);
    next, row := Answer(cfg, Exec(cfg, Init(0), run), k, base, row, Past(LAST, 0, 0), 0, 0);
    run := Joined(cfg, Init(0), run, next, k, 1, multiset{}, multiset{0});
    next := GiveUpOn(cfg, Exec(cfg, Init(0), run), k, base, row, Past(LAST + 1, 0, 0), 0, 0);
    run := Joined(cfg, Init(0), run, next, k, 1, multiset{} + multiset{0}, multiset{0});
    SceneHolds(Exec(cfg, Init(0), run), k, base + multiset{Remove(k)}, row, Past(LAST + 1, 0, 0));
  }

  // ---- Two Envelopes at large ----

  /** Of two Envelopes built up to tally 9, neither answered yet, the first error earns
      the last retry and so the second finds the budget spent. Nothing here is
      unanswered. */
  lemma TwoAnswers(cfg: Config, s: State, k: Key, base: multiset<Task>, row: Row, past: Past, marks: nat, before: seq<Action>)
    returns (after: seq<Action>)
    requires cfg.policy == Retry.DefaultPolicy(cfg.policy.overflow) && past.Tally() == LAST
    requires IsRun(cfg, Init(0), before) && s == Exec(cfg, Init(0), before) && Plays(cfg, Init(0), before, k, marks, multiset{})
    requires Scene(s, k, base, row, past) && NoVerdicts(base, k)
    requires |s.sending| == 2 && (forall i :: 0 <= i < 2 ==> s.sending[i].key == k && s.sending[i].shouldRetry)
    requires s.stats == [] && s.guard == {}
    ensures IsRun(cfg, Init(0), before + after) && Plays(cfg, Init(0), before + after, k, marks, multiset{0, 1})
    ensures forall a :: a in after ==> IsHarmless(a) || a.ConsumeError?
    ensures var s' := Exec(cfg, Init(0), before + after);
      && s'.history.reclaims[k] == past.reclaims && s'.history.stale[k] == past.stale && s'.sending == s.sending
      && s'.stats == [Event(k, Errored(0)), Event(k, Errored(1)), Event(k, Failed(10, Answered(1)))]
  {
    hide Enabled, Next, Scene, Plays, GuardKey, NoVerdicts, Retry.DefaultPolicy, Retry.Policy.CanRetry;
    SendOnce.KeysAreDistinct(cfg, s.sending, 0, 1);
    FirstTen(cfg, LAST);
    var next, row';
    var run := before;
    after := RefuseAndTell(cfg, s, k, base, row, past, 0);
    run := Continued(cfg, Init(0), run, after, k, marks);
    next := RefuseAndTell(cfg, Exec(cfg, Init(0), run), k, base, row, past, 1);
    run := Continued(cfg, Init(0), run, next, k, marks);
    after := after + next;
    next, row' := Answer(cfg, Exec(cfg, Init(0), run), k, base, row, past, 0, 0);
    run := Joined(cfg, Init(0), run, next, k, marks, multiset{}, multiset{0});
    after := after + next;
    var past' := past.(timely := past.timely + 1);
    next := GiveUpOn(cfg, Exec(cfg, Init(0), run), k, base, row', past', 1, 1);
    run := Joined(cfg, Init(0), run, next, k, marks, multiset{} + multiset{0}, multiset{1});
    after := after + next;
    assert run == before + after;
    assert multiset{} + multiset{0} + multiset{1} == multiset{0, 1};
    SceneHolds(Exec(cfg, Init(0), run), k, base + multiset{Remove(k)}, row', past');
  }

  // ---- A late answer ----

  /** A claimed row waits past its threshold and is taken back. */
  lemma Strand(cfg: Config, s: State, k: Key, tasks: multiset<Task>, row: Row, past: Past) returns (run: seq<Action>, row': Row)
    requires Scene(s, k, tasks, row, past) && NoVerdicts(tasks, k)
    requires row.status.Sending? && row.claimedAt.Some? && row.scheduledAt <= s.now
    ensures IsRun(cfg, s, run) && Plays(cfg, s, run, k, 0, multiset{})
    ensures var s' := Exec(cfg, s, run);
      Scene(s', k, tasks, row', past.(reclaims := past.reclaims + 1)) && SameStreams(s, s') && Due(row', s'.now)
  {
    hide Enabled, Next, Scene, Plays;
    var since := row.claimedAt.value + DISPATCH_STRAND + 1;
    var until := if since > s.now then since else s.now;
    NothingPlays(cfg, s, k);
    Wait(cfg, s, k, tasks, row, past, until);
    PlaysHarmless(cfg, s, [], Tick(until), k, 0, multiset{});
    run := [] + [Tick(until)];
    var here := Exec(cfg, s, run);
    TakeBack(cfg, here, k, tasks, row, past, ForDispatch);
    SceneHolds(here, k, tasks, row, past);
    PlaysFirst(cfg, here, Reclaim(ForDispatch, k), k);
    run := Continued(cfg, s, run, [Reclaim(ForDispatch, k)], k, 0);
    row' := Reclaimed(row, ReclaimTarget(ForDispatch).value);
  }

  /** A reclaim before the Envelope was built will do. An Envelope built at tally 8 goes
      unanswered for an hour, and its Delivery is reclaimed and sent again at tally 9.
      Then both are refused: the late error earns the tenth attempt, and the error of the
      second Envelope, read the first time, ends the Delivery as Failed. Nothing after
      that Envelope was built is unanswered, no error is answered twice, and k was marked
      validated once. */
  lemma ALateAnswerEndsADelivery(cfg: Config, k: Key) returns (before: seq<Action>, after: seq<Action>)
    requires cfg.policy == Retry.DefaultPolicy(cfg.policy.overflow) && cfg.passes(k.email)
    ensures IsRun(cfg, Init(0), before) && IsRun(cfg, Init(0), before + after)
    ensures Alone(cfg, Init(0), before + after, k) && Marks(before + after, k) == 1 && AnswersOnce(cfg, Init(0), before + after, k)
    ensures Exec(cfg, Init(0), before).sending == [Envelope(k, 8, true), Envelope(k, 9, true)]
    ensures forall a :: a in after ==> !a.FailToDispatch? && (a.Reclaim? ==> !a.kind.ForDispatch?)
    ensures var s := Exec(cfg, Init(0), before + after);
      && s.history.reclaims[k] == 1 && s.history.stale[k] == 0
      && s.stats == [Event(k, Errored(0)), Event(k, Errored(1)), Event(k, Failed(10, Answered(1)))]
  {
    hide Enabled, Next, Scene, Plays, NoVerdicts, Retry.DefaultPolicy, Retry.Policy.CanRetry;
    var base := multiset{Announce(k, Accepted)};
    OnlyAnnounced(base, k);
    var row, next;
    var run;
    run, row := Admit(cfg, k);
    next, row := ReturnInTurn(cfg, Exec(cfg, Init(0), run), k, base, row, Past(0, 0, 0), LAST - 1);
    run := Continued(cfg, Init(0), run, next, k, 1);
    FirstTen(cfg, LAST - 1);
    FirstTen(cfg, LAST);
    var here := Exec(cfg, Init(0), run);
    next := Send(cfg, here, k, base, row, Past(LAST - 1, 0, 0));
    row := ClaimedForDispatch(row, here.now);
    run := Continued(cfg, Init(0), run, next, k, 1);
    next, row := Strand(cfg, Exec(cfg, Init(0), run), k, base, row, Past(LAST - 1, 0, 0));
    run := Continued(cfg, Init(0), run, next, k, 1);
    here := Exec(cfg, Init(0), run);
    next := Send(cfg, here, k, base, row, Past(LAST - 1, 0, 1));
    row := ClaimedForDispatch(row, here.now);
    run := Continued(cfg, Init(0), run, next, k, 1);
    before := run;
    after := TwoAnswers(cfg, Exec(cfg, Init(0), run), k, base, row, Past(LAST - 1, 0, 1), 1, before);
    PlaysMeans(cfg, before + after, k, 1);
  }

  lemma OnlyAnnounced(tasks: multiset<Task>, k: Key)
    requires forall t :: t in tasks ==> t.Announce? || t.Validate?
    ensures NoVerdicts(tasks, k)
  {
  }

  lemma PlaysMeans(cfg: Config, run: seq<Action>, k: Key, marks: nat)
    requires IsRun(cfg, Init(0), run) && Plays(cfg, Init(0), run, k, marks, multiset{0, 1})
    ensures Alone(cfg, Init(0), run, k) && Marks(run, k) == marks && AnswersOnce(cfg, Init(0), run, k)
  {
    hide IsRun, Alone, Marks, TimesRead;
  }

  // ---- A second verdict on the address ----

  /** The first Validator stalls, its claim is taken back, and a second one marks the row. */
  lemma AdmitTwice(cfg: Config, k: Key) returns (run: seq<Action>, row: Row)
    requires cfg.passes(k.email)
    ensures IsRun(cfg, Init(0), run) && Plays(cfg, Init(0), run, k, 1, multiset{})
    ensures var s := Exec(cfg, Init(0), run);
      && Scene(s, k, multiset{Validate(k), Announce(k, Accepted)}, row, Past(0, 0, 0)) && Due(row, s.now)
      && s.sending == [] && s.stats == [] && s.guard == {}
  {
    hide Enabled, Next, Scene, Plays;
    var one, past, later := multiset{Validate(k)}, Past(0, 0, 0), VALIDATION_STRAND + 1;
    run, row := Enter(cfg, k);
    Wait(cfg, Exec(cfg, Init(0), run), k, one, row, past, later);
    PlaysHarmless(cfg, Init(0), run, Tick(later), k, 0, multiset{});
    run := run + [Tick(later)];
    TakeBack(cfg, Exec(cfg, Init(0), run), k, one, row, past, ForValidation);
    PlaysHarmless(cfg, Init(0), run, Reclaim(ForValidation, k), k, 0, multiset{});
    run, row := run + [Reclaim(ForValidation, k)], Reclaimed(row, ReclaimTarget(ForValidation).value);
    ClaimsForValidation(cfg, Exec(cfg, Init(0), run), k, one, row, past);
    PlaysHarmless(cfg, Init(0), run, ClaimForValidation(k), k, 0, multiset{});
    run, row := run + [ClaimForValidation(k)], ClaimedForValidation(row, later);
    var next := Mark(cfg, Exec(cfg, Init(0), run), k, one, row, past);
    PlaysConcat(cfg, Init(0), run, next, k, 0, multiset{}, 1, multiset{});
    NoneTwice();
    run, row := run + next, MarkedScheduled(row);
    assert one + multiset{Announce(k, Accepted)} == multiset{Validate(k), Announce(k, Accepted)};
  }

  /** Nor need there be a reclaim. A Validator left behind marks the row again while an
      Envelope built at tally 9 is out, so that a second one is built at the same tally.
      Then both are refused, and the second error ends the Delivery as Failed: no dispatch
      is reclaimed, no error is answered twice, and no reschedule is stale. */
  lemma ASecondMarkEndsADelivery(cfg: Config, k: Key) returns (before: seq<Action>, after: seq<Action>)
    requires cfg.policy == Retry.DefaultPolicy(cfg.policy.overflow) && cfg.passes(k.email)
    ensures IsRun(cfg, Init(0), before) && IsRun(cfg, Init(0), before + after)
    ensures Alone(cfg, Init(0), before + after, k) && Marks(before + after, k) == 2 && AnswersOnce(cfg, Init(0), before + after, k)
    ensures Exec(cfg, Init(0), before).sending == [Envelope(k, 9, true), Envelope(k, 9, true)]
    ensures forall a :: a in after ==> !a.FailToDispatch? && (a.Reclaim? ==> !a.kind.ForDispatch?)
    ensures var s := Exec(cfg, Init(0), before + after);
      && s.history.reclaims[k] == 0 && s.history.stale[k] == 0
      && s.stats == [Event(k, Errored(0)), Event(k, Errored(1)), Event(k, Failed(10, Answered(1)))]
  {
    hide Enabled, Next, Scene, Plays, NoVerdicts, Retry.DefaultPolicy, Retry.Policy.CanRetry;
    var told, past := multiset{Announce(k, Accepted)}, Past(LAST, 0, 0);
    var base := told + multiset{Validate(k)};
    assert base == multiset{Validate(k), Announce(k, Accepted)};
    OnlyAnnounced(base, k);
    OnlyAnnounced(told + told, k);
    var row, next;
    var run;
    run, row := AdmitTwice(cfg, k);
    next, row := ReturnInTurn(cfg, Exec(cfg, Init(0), run), k, base, row, Past(0, 0, 0), LAST);
    run := Continued(cfg, Init(0), run, next, k, 1);
    FirstTen(cfg, LAST);
    var here := Exec(cfg, Init(0), run);
    next := Send(cfg, here, k, base, row, past);
    row := ClaimedForDispatch(row, here.now);
    run := Continued(cfg, Init(0), run, next, k, 1);
    next := Mark(cfg, Exec(cfg, Init(0), run), k, told, row, past);
    PlaysConcat(cfg, Init(0), run, next, k, 1, multiset{}, 1, multiset{});
    NoneTwice();
    run, row := run + next, MarkedScheduled(row);
    here := Exec(cfg, Init(0), run);
    next := Send(cfg, here, k, told + told, row, past);
    row := ClaimedForDispatch(row, here.now);
    run := Continued(cfg, Init(0), run, next, k, 2);
    before := run;
    after := TwoAnswers(cfg, Exec(cfg, Init(0), run), k, told + told, row, past, 2, before);
    PlaysMeans(cfg, before + after, k, 2);
  }
}
