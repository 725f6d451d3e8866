/** When the tally of a Delivery stays where its answers left it: what it takes for an
    answered error to find the Retry Budget spent. */
module Answers {
  import opened Prelude
  import opened Pool
  import opened Protocol
  import opened Invariants
  import opened Safety
  import opened Dispatches
  import opened Budget

  /** The action consumes message m's error and reads k's row for it. */
  predicate Reads(s: State, a: Action, k: Key, m: nat) {
    a.ConsumeError? && a.index < |s.stats| && s.stats[a.index] == Event(k, Errored(m)) && k in s.pool
  }

  function TimesRead(cfg: Config, s: State, run: seq<Action>, k: Key, m: nat): nat
    requires IsRun(cfg, s, run)
    decreases |run|
  {
    if |run| == 0 then 0
    else TimesRead(cfg, Next(cfg, s, run[0]), run[1..], k, m) + if Reads(s, run[0], k, m) then 1 else 0
  }

  /** No message of k is answered twice, whatever events its answer is told by. */
  ghost predicate AnswersOnce(cfg: Config, s: State, run: seq<Action>, k: Key)
    requires IsRun(cfg, s, run)
  {
    forall m: nat :: TimesRead(cfg, s, run, k, m) <= 1
  }

  /** The j-th step of the run takes a dispatch claim of k back, at tally t. */
  ghost predicate ReclaimedAt(cfg: Config, s: State, run: seq<Action>, j: nat, k: Key, t: nat) {
    && j < |run| && run[j] == Reclaim(ForDispatch, k)
    && IsRun(cfg, s, run[..j]) && Tally(Exec(cfg, s, run[..j]), k) == t
  }

  /** The run takes a dispatch claim of k back at a tally of at most b. */
  ghost predicate ReclaimedBy(cfg: Config, s: State, run: seq<Action>, k: Key, b: nat) {
    exists j: nat, t: nat :: t <= b && ReclaimedAt(cfg, s, run, j, k, t)
  }

  // ---- What left the first tallies of a row ----

  /** What moved k's tally on from 0 to b: messages whose answer was written, dispatches
      handed back and claims taken back. Besides, the messages answered so far and the
      dispatch failures, at a tally of at most b, not written yet. */
  datatype Account = Account(read: set<nat>, written: set<nat>, open: multiset<Task>, returned: nat, reclaimed: nat)

  const NO_ACCOUNT := Account({}, {}, multiset{}, 0, 0)

  function Settled(open: multiset<Task>, gone: Option<Task>, come: Option<Task>): multiset<Task> {
    open - One(gone) + One(come)
  }

  function Entered(cfg: Config, s: State, a: Action, k: Key, b: nat, acc: Account): Account
    requires Enabled(cfg, s, a)
  {
    match a
    case ConsumeError(i) =>
      if Reads(s, a, k, s.stats[i].outcome.msg) then acc.(read := acc.read + {s.stats[i].outcome.msg}) else acc
    case FailToDispatch(k', n) =>
      if k' == k && n <= b then acc.(open := Settled(acc.open, None, Some(Reread(k, n, Dispatching)))) else acc
    case ReadForReschedule(k', n, src) =>
      if k' == k && src.Dispatching? && n <= b
      then acc.(open := Settled(acc.open, Some(Reread(k, n, src)), EffectOf(cfg, s, a).begun))
      else acc
    case WriteReschedule(k', n, at, src) =>
      if k' != k || k !in s.pool || s.pool[k].attempts > b then acc
      else if src.Answered? then acc.(written := acc.written + {src.msg})
      else acc.(open := Settled(acc.open, Some(Rewrite(k, n, at, src)), None), returned := acc.returned + 1)
    case Reclaim(f, k') =>
      if f.ForDispatch? && k' == k && s.pool[k].attempts <= b then acc.(reclaimed := acc.reclaimed + 1) else acc
    case _ => acc
  }

  predicate IsAnswer(t: Task, k: Key) {
    IsVerdict(t, k) && t.source.Answered?
  }

  predicate IsReturn(t: Task, k: Key, b: nat) {
    IsVerdict(t, k) && t.source.Dispatching? && t.attempts <= b
  }

  /** An answer is one verdict, pending or written. */
  ghost predicate AnswersHeld(s: State, k: Key, acc: Account) {
    && (forall t :: t in s.tasks && IsAnswer(t, k) ==> t.source.msg in acc.read && t.source.msg !in acc.written && s.tasks[t] == 1)
    && (forall t, u :: t in s.tasks && IsAnswer(t, k) && u in s.tasks && IsAnswer(u, k) && t.source == u.source ==> t == u)
  }

  /** The Envelopes that the written answers are of. */
  ghost predicate AnswersBuilt(s: State, k: Key, b: nat, acc: Account) {
    acc.written <= acc.read && forall m :: m in acc.written ==> m < |s.sending| && s.sending[m].key == k && s.sending[m].builtAt <= b
  }

  ghost predicate ReturnsHeld(s: State, k: Key, b: nat, acc: Account, failures: nat) {
    && acc.returned + |acc.open| <= failures
    && forall t :: t in s.tasks && IsReturn(t, k, b) ==> s.tasks[t] <= acc.open[t]
  }

  predicate AddsUp(s: State, k: Key, b: nat, acc: Account) {
    |acc.written| + acc.returned + acc.reclaimed == Least(Tally(s, k), b + 1)
  }

  ghost predicate Audited(s: State, k: Key, b: nat, acc: Account, failures: nat) {
    AnswersHeld(s, k, acc) && AnswersBuilt(s, k, b, acc) && ReturnsHeld(s, k, b, acc, failures) && AddsUp(s, k, b, acc)
  }

  // ---- One step ----

  /** Where a verdict on k comes from, and what its write finishes. */
  predicate AnswerStep(s: State, a: Action, e: Effect, k: Key) {
    && (e.begun.Some? && IsVerdict(e.begun.value, k) ==>
          || (e.begun.value.source.Answered? && e.begun.value.Reread? && e.finished.None? && Reads(s, a, k, e.begun.value.source.msg))
          || (e.begun.value.source.Dispatching? && e.begun.value.Reread? && a == FailToDispatch(k, e.begun.value.attempts))
          || (e.begun.value.Rewrite? && a == ReadForReschedule(k, e.begun.value.attempts, e.begun.value.source)))
    && (a.ReadForReschedule? && a.key == k ==>
          && e.finished == Some(Reread(k, a.attempts, a.source))
          && (e.begun.Some? ==> e.begun.value.Rewrite?))
    && (a.WriteReschedule? && a.key == k ==> e.finished == Some(Rewrite(k, a.attempts, a.at, a.source)) && e.begun.None?)
    && (a.ConsumeError? ==> e.finished.None?)
    && (a.FailToDispatch? && a.key == k ==> e.finished == Some(Dispatch(k, a.attempts)))
  }

  lemma ActionsStepTheAnswer(cfg: Config, s: State, a: Action, k: Key)
    requires Enabled(cfg, s, a)
    ensures AnswerStep(s, a, EffectOf(cfg, s, a), k)
  {
  }

  lemma WrittenAfter(cfg: Config, s: State, a: Action, k: Key, b: nat, acc: Account)
    requires Enabled(cfg, s, a)
    ensures acc.read <= Entered(cfg, s, a, k, b, acc).read
    ensures forall m: nat :: Reads(s, a, k, m) ==> m in Entered(cfg, s, a, k, b, acc).read
    ensures Entered(cfg, s, a, k, b, acc).written ==
      if a.WriteReschedule? && a.key == k && k in s.pool && s.pool[k].attempts <= b && a.source.Answered?
      then acc.written + {a.source.msg} else acc.written
  {
    hide Enabled, EffectOf, Settled;
  }

  lemma AnswersStayHeld(cfg: Config, s: State, a: Action, k: Key, b: nat, acc: Account)
    requires Enabled(cfg, s, a) && AnswersHeld(s, k, acc) && acc.written <= acc.read
    requires forall m: nat :: Reads(s, a, k, m) ==> m !in acc.read
    ensures AnswersHeld(Next(cfg, s, a), k, Entered(cfg, s, a, k, b, acc))
  {
    hide Enabled, EffectOf, Apply, Entered, Reads;
    var e, s', acc' := EffectOf(cfg, s, a), Next(cfg, s, a), Entered(cfg, s, a, k, b, acc);
    ActionsStepTheAnswer(cfg, s, a, k);
    FinishedIsHeld(cfg, s, a);
    WrittenAfter(cfg, s, a, k, b, acc);
    forall t | t in s'.tasks && IsAnswer(t, k)
      ensures t.source.msg in acc'.read && t.source.msg !in acc'.written && s'.tasks[t] == 1
    {
      TasksAfter(s, e, t);
    }
    forall t, u | t in s'.tasks && IsAnswer(t, k) && u in s'.tasks && IsAnswer(u, k) && t.source == u.source ensures t == u {
      AnswersStayOne(cfg, s, a, k, acc, t, u);
    }
  }

  lemma AnswersStayOne(cfg: Config, s: State, a: Action, k: Key, acc: Account, t: Task, u: Task)
    requires Enabled(cfg, s, a) && AnswersHeld(s, k, acc)
    requires forall m: nat :: Reads(s, a, k, m) ==> m !in acc.read
    requires IsAnswer(t, k) && IsAnswer(u, k) && t.source == u.source
    requires t in Next(cfg, s, a).tasks && u in Next(cfg, s, a).tasks
    ensures t == u
  {
    hide Enabled, EffectOf, Apply, Reads;
    ActionsStepTheAnswer(cfg, s, a, k);
    FinishedIsHeld(cfg, s, a);
    TasksAfter(s, EffectOf(cfg, s, a), t);
    TasksAfter(s, EffectOf(cfg, s, a), u);
  }

  lemma AnswersStayBuilt(cfg: Config, s: State, a: Action, k: Key, b: nat, acc: Account)
    requires Inv(cfg, s) && Enabled(cfg, s, a) && AnswersHeld(s, k, acc) && AnswersBuilt(s, k, b, acc)
    ensures AnswersBuilt(Next(cfg, s, a), k, b, Entered(cfg, s, a, k, b, acc))
  {
    hide Enabled, EffectOf, Apply, Inv, Entered, Appended;
    ActionsStepTheAnswer(cfg, s, a, k);
    FinishedIsHeld(cfg, s, a);
    WrittenAfter(cfg, s, a, k, b, acc);
    SendingAfter(s, EffectOf(cfg, s, a));
    StreamGrows(s.sending, EffectOf(cfg, s, a).sent);
    if a.WriteReschedule? && a.key == k && k in s.pool {
      WritesReadBelow(cfg, s, a);
    }
  }

  lemma ReturnsStayHeld(cfg: Config, s: State, a: Action, k: Key, b: nat, acc: Account, tale: Tale)
    requires Inv(cfg, s) && Enabled(cfg, s, a) && ReturnsHeld(s, k, b, acc, tale.failures)
    ensures ReturnsHeld(Next(cfg, s, a), k, b, Entered(cfg, s, a, k, b, acc), Told(s, a, k, b, tale).failures)
  {
    hide Enabled, EffectOf, Apply, Inv, Entered, Told;
    var s', acc' := Next(cfg, s, a), Entered(cfg, s, a, k, b, acc);
    ReturnsStayPaid(cfg, s, a, k, b, acc, tale);
    forall t | t in s'.tasks && IsReturn(t, k, b) ensures s'.tasks[t] <= acc'.open[t] {
      ReturnStaysHeld(cfg, s, a, k, b, acc, tale.failures, t);
    }
  }

  lemma ReturnStaysHeld(cfg: Config, s: State, a: Action, k: Key, b: nat, acc: Account, failures: nat, t: Task)
    requires Inv(cfg, s) && Enabled(cfg, s, a) && ReturnsHeld(s, k, b, acc, failures) && IsReturn(t, k, b)
    ensures Next(cfg, s, a).tasks[t] <= Entered(cfg, s, a, k, b, acc).open[t]
  {
    hide Enabled, EffectOf, Apply, Inv, Entered, AnswerStep;
    ActionsStepTheAnswer(cfg, s, a, k);
    FinishedIsHeld(cfg, s, a);
    TasksAfter(s, EffectOf(cfg, s, a), t);
    assert s.tasks[t] <= acc.open[t];
    OpenAfter(cfg, s, a, k, b, acc, t);
  }

  /** What one entry does to the open return t. */
  lemma OpenAfter(cfg: Config, s: State, a: Action, k: Key, b: nat, acc: Account, t: Task)
    requires Enabled(cfg, s, a) && AnswerStep(s, a, EffectOf(cfg, s, a), k) && IsReturn(t, k, b)
    ensures var e := EffectOf(cfg, s, a);
      acc.open[t] + (if e.begun == Some(t) then 1 else 0) <= Entered(cfg, s, a, k, b, acc).open[t] + (if e.finished == Some(t) then 1 else 0)
  {
    hide Enabled, EffectOf, Reads, Settled;
    var e := EffectOf(cfg, s, a);
    match a
    case FailToDispatch(_, n) => OpenSettled(acc.open, None, Some(Reread(k, n, Dispatching)), t);
    case ReadForReschedule(_, n, src) => OpenSettled(acc.open, Some(Reread(k, n, src)), e.begun, t);
    case WriteReschedule(_, n, at, src) => OpenSettled(acc.open, Some(Rewrite(k, n, at, src)), None, t);
    case _ =>
  }

  lemma OpenSettled(open: multiset<Task>, gone: Option<Task>, come: Option<Task>, t: Task)
    ensures open[t] + (if come == Some(t) then 1 else 0) <= Settled(open, gone, come)[t] + (if gone == Some(t) then 1 else 0)
  {
  }

  lemma ReturnsStayPaid(cfg: Config, s: State, a: Action, k: Key, b: nat, acc: Account, tale: Tale)
    requires Inv(cfg, s) && Enabled(cfg, s, a) && ReturnsHeld(s, k, b, acc, tale.failures)
    ensures var acc' := Entered(cfg, s, a, k, b, acc); acc'.returned + |acc'.open| <= Told(s, a, k, b, tale).failures
  {
    hide Enabled, EffectOf, Apply, Inv, Settled, Reads;
    ActionsStepTheAnswer(cfg, s, a, k);
    FinishedIsHeld(cfg, s, a);
    match a
    case FailToDispatch(_, n) => SettledSize(acc.open, None, Some(Reread(k, n, Dispatching)));
    case ReadForReschedule(_, n, src) =>
      assert a.key == k && src.Dispatching? && n <= b ==> IsReturn(Reread(k, n, src), k, b);
      SettledSize(acc.open, Some(Reread(k, n, src)), EffectOf(cfg, s, a).begun);
    case WriteReschedule(k', n, at, src) =>
      if k' == k && k in s.pool {
        WritesReadBelow(cfg, s, a);
      }
      assert k' == k && src.Dispatching? && n <= b ==> IsReturn(Rewrite(k, n, at, src), k, b);
      SettledSize(acc.open, Some(Rewrite(k, n, at, src)), None);
    case _ =>
  }

  lemma SettledSize(open: multiset<Task>, gone: Option<Task>, come: Option<Task>)
    ensures |Settled(open, gone, come)| == |open| - (if gone.Some? && gone.value in open then 1 else 0) + (if come.Some? then 1 else 0)
  {
  }

  /** A verdict never read past the row it is written to, nor short of the Envelope that
      was answered. */
  lemma WritesReadBelow(cfg: Config, s: State, a: Action)
    requires Inv(cfg, s) && Enabled(cfg, s, a) && a.WriteReschedule? && a.key in s.pool
    ensures a.attempts <= s.pool[a.key].attempts
    ensures a.source.Answered? ==>
      a.source.msg < |s.sending| && s.sending[a.source.msg].key == a.key && s.sending[a.source.msg].builtAt <= a.attempts
  {
    hide OutcomeOK, EnvelopeOK, KeyOK, RowOK;
    assert TaskOK(cfg, s, Rewrite(a.key, a.attempts, a.at, a.source));
  }

  lemma StaysAddedUp(cfg: Config, s: State, a: Action, k: Key, b: nat, acc: Account)
    requires Inv(cfg, s) && Enabled(cfg, s, a) && AnswersHeld(s, k, acc) && AddsUp(s, k, b, acc)
    ensures AddsUp(Next(cfg, s, a), k, b, Entered(cfg, s, a, k, b, acc))
  {
    hide Enabled, EffectOf, Apply, Inv, Tally;
    var e := EffectOf(cfg, s, a);
    ActionsStepTheAnswer(cfg, s, a, k);
    ActionsStepTheDispatch(cfg, s, a, k);
    FinishedIsHeld(cfg, s, a);
    TallyAfter(s, e, k);
    RowIsItsTally(cfg, s, k);
    ReclaimFindsARow(cfg, s, a);
  }

  lemma ReclaimFindsARow(cfg: Config, s: State, a: Action)
    requires Enabled(cfg, s, a)
    ensures a.Reclaim? ==> a.key in s.pool
  {
  }

  lemma StepKeepsAudit(cfg: Config, s: State, a: Action, k: Key, b: nat, acc: Account, tale: Tale)
    requires Inv(cfg, s) && Enabled(cfg, s, a) && Audited(s, k, b, acc, tale.failures)
    requires forall m: nat :: Reads(s, a, k, m) ==> m !in acc.read
    ensures Audited(Next(cfg, s, a), k, b, Entered(cfg, s, a, k, b, acc), Told(s, a, k, b, tale).failures)
  {
    hide Inv, Enabled, Next, AnswersHeld, ReturnsHeld, AddsUp, Entered, Told, Reads;
    AnswersStayHeld(cfg, s, a, k, b, acc);
    AnswersStayBuilt(cfg, s, a, k, b, acc);
    ReturnsStayHeld(cfg, s, a, k, b, acc, tale);
    StaysAddedUp(cfg, s, a, k, b, acc);
  }

  // ---- Whole runs ----

  lemma EntriesMean(cfg: Config, s: State, a: Action, k: Key, b: nat, acc: Account)
    requires Inv(cfg, s) && Enabled(cfg, s, a)
    ensures var acc' := Entered(cfg, s, a, k, b, acc);
      && (forall m: nat :: m in acc'.read <==> m in acc.read || Reads(s, a, k, m))
      && (acc'.reclaimed != acc.reclaimed ==> a == Reclaim(ForDispatch, k) && Tally(s, k) <= b)
  {
    hide EffectOf, Tally;
    RowIsItsTally(cfg, s, k);
  }

  lemma LaterReclaim(cfg: Config, s: State, run: seq<Action>, k: Key, b: nat)
    requires |run| > 0 && IsRun(cfg, s, run)
    ensures ReclaimedBy(cfg, Next(cfg, s, run[0]), run[1..], k, b) ==> ReclaimedBy(cfg, s, run, k, b)
    ensures run[0] == Reclaim(ForDispatch, k) && Tally(s, k) <= b ==> ReclaimedBy(cfg, s, run, k, b)
  {
    hide Enabled, Next, Tally;
    var s' := Next(cfg, s, run[0]);
    if ReclaimedBy(cfg, s', run[1..], k, b) {
      var j: nat, t: nat :| t <= b && ReclaimedAt(cfg, s', run[1..], j, k, t);
      assert run[..j + 1][0] == run[0] && run[..j + 1][1..] == run[1..][..j];
      assert ReclaimedAt(cfg, s, run, j + 1, k, t);
    }
    if run[0] == Reclaim(ForDispatch, k) && Tally(s, k) <= b {
      assert run[..0] == [];
      assert ReclaimedAt(cfg, s, run, 0, k, Tally(s, k));
    }
  }

  lemma {:induction false} RunKeepsAudit(cfg: Config, s: State, run: seq<Action>, k: Key, b: nat, acc: Account, tale: Tale)
    returns (acc': Account)
    requires Inv(cfg, s) && IsRun(cfg, s, run) && Audited(s, k, b, acc, tale.failures)
    requires forall m: nat :: TimesRead(cfg, s, run, k, m) + (if m in acc.read then 1 else 0) <= 1
    ensures Audited(Exec(cfg, s, run), k, b, acc', TaleAfter(cfg, s, run, k, b, tale).failures)
    ensures forall m: nat :: m in acc'.read ==> m in acc.read || TimesRead(cfg, s, run, k, m) > 0
    ensures acc'.reclaimed != acc.reclaimed ==> ReclaimedBy(cfg, s, run, k, b)
    decreases |run|
  {
    hide Enabled, Next, Inv, Audited, Told, Entered, Reads, ReclaimedBy;
    acc' := acc;
    if |run| > 0 {
      var a := run[0];
      var s' := Next(cfg, s, a);
      EntriesMean(cfg, s, a, k, b, acc);
      assert forall m: nat :: TimesRead(cfg, s, run, k, m) == TimesRead(cfg, s', run[1..], k, m) + if Reads(s, a, k, m) then 1 else 0;
      StepKeepsInv(cfg, s, a);
      StepKeepsAudit(cfg, s, a, k, b, acc, tale);
      LaterReclaim(cfg, s, run, k, b);
      acc' := RunKeepsAudit(cfg, s', run[1..], k, b, Entered(cfg, s, a, k, b, acc), Told(s, a, k, b, tale));
    }
  }

  lemma InitIsAudited(now: int, k: Key, b: nat)
    ensures Audited(Init(now), k, b, NO_ACCOUNT, 0)
  {
    hide Tally;
    NoneIsTallied(now, k);
  }

  lemma {:induction false} BuiltHolds(sending: seq<Envelope>, k: Key, b: nat, ms: set<nat>)
    requires forall m :: m in ms ==> m < |sending| && sending[m].key == k && sending[m].builtAt <= b
    ensures |ms| <= BuiltUpTo(sending, k, b)
  {
    if |sending| == 0 {
      assert ms == {};
    } else {
      var last := |sending| - 1;
      assert forall m :: m in ms - {last} ==> sending[..last][m] == sending[m];
      BuiltHolds(sending[..last], k, b, ms - {last});
      assert ms == ms - {last} || ms == ms - {last} + {last};
    }
  }

  /** The count. Of the b + 1 moves that left the tallies up to b, those by an answer or
      a failed dispatch took a claim each, other than the claim m was built from; and
      there are no more claims up to b than b and the marks. */
  lemma OneMoveIsAReclaim(s: State, k: Key, m: nat, acc: Account, tale: Tale)
    requires m < |s.sending| && s.sending[m].key == k
    requires var b := s.sending[m].builtAt;
      Balanced(s, k, b, tale) && Audited(s, k, b, acc, tale.failures) && b < Tally(s, k)
    requires m !in acc.read
    ensures acc.reclaimed + tale.marks >= 2
  {
    hide HeldUpTo, BuiltUpTo, Tally, Claimable;
    BuiltHolds(s.sending, k, s.sending[m].builtAt, acc.written + {m});
    assert |acc.written + {m}| == |acc.written| + 1;
  }

  /** While no answer of message m has been read, k's tally is still the one m was built
      at: unless another message was answered twice, k was marked validated twice, or a
      dispatch claim was taken back at that tally or an earlier one. */
  lemma AnUnreadEnvelopeHoldsTheTally(cfg: Config, now: int, run: seq<Action>, k: Key, m: nat)
    requires IsRun(cfg, Init(now), run) && AnswersOnce(cfg, Init(now), run, k) && Marks(run, k) <= 1
    requires var s := Exec(cfg, Init(now), run); m < |s.sending| && s.sending[m].key == k
    requires TimesRead(cfg, Init(now), run, k, m) == 0
    ensures var s := Exec(cfg, Init(now), run);
      var b := s.sending[m].builtAt;
      ReclaimedBy(cfg, Init(now), run, k, b) || (Tally(s, k) <= b && (k in s.pool ==> s.pool[k].attempts == b))
  {
    hide Init, IsRun, Exec, Inv, Tally, Balanced, Audited, TaleAfter, TimesRead, ReclaimedBy;
    var s := Exec(cfg, Init(now), run);
    var b := s.sending[m].builtAt;
    InitHolds(cfg, now);
    InitIsAudited(now, k, b);
    assert forall m': nat :: TimesRead(cfg, Init(now), run, k, m') <= 1;
    var acc := RunKeepsAudit(cfg, Init(now), run, k, b, NO_ACCOUNT, UNTOLD);
    TalesBalance(cfg, now, run, k, b);
    MarksAreTold(cfg, Init(now), run, k, b, UNTOLD);
    if b < Tally(s, k) {
      OneMoveIsAReclaim(s, k, m, acc, TaleAfter(cfg, Init(now), run, k, b, UNTOLD));
    } else {
      ReachableInv(cfg, now, run);
      RowIsItsTally(cfg, s, k);
      BuiltBelow(cfg, s, m);
    }
  }

  lemma BuiltBelow(cfg: Config, s: State, m: nat)
    requires Inv(cfg, s) && m < |s.sending|
    ensures var v := s.sending[m]; v.key in s.pool ==> v.builtAt <= s.pool[v.key].attempts
    ensures s.sending[m].shouldRetry == cfg.policy.CanRetry(s.sending[m].builtAt)
  {
    assert EnvelopeOK(cfg, s, s.sending[m]);
  }

  lemma ErrorsNameTheirMessage(cfg: Config, s: State, i: nat)
    requires Inv(cfg, s) && i < |s.stats| && s.stats[i].outcome.Errored?
    ensures var m := s.stats[i].outcome.msg;
      m < |s.sending| && s.sending[m].key == s.stats[i].key && s.sending[m].shouldRetry
  {
    assert OutcomeOK(cfg, s, s.stats[i].key, s.stats[i].outcome);
  }

  lemma ReadBegins(cfg: Config, s: State, i: nat)
    requires Enabled(cfg, s, ConsumeError(i)) && s.stats[i].key in s.pool
    ensures EffectOf(cfg, s, ConsumeError(i))
      == NOTHING.(begun := Some(RetryOrFail(cfg, s.stats[i].key, s.pool[s.stats[i].key].attempts, Answered(s.stats[i].outcome.msg))))
  {
  }

  /** Where no dispatch claim of k is taken back, no message of it is answered twice and
      it is marked validated once, the error leg always retries: an error, read for the
      first time, finds the tally its Envelope was built at. */
  lemma AFirstAnswerIsRetried(cfg: Config, now: int, run: seq<Action>, i: nat)
    requires IsRun(cfg, Init(now), run)
    requires var s := Exec(cfg, Init(now), run);
      Enabled(cfg, s, ConsumeError(i)) && s.stats[i].key in s.pool
    requires var s := Exec(cfg, Init(now), run);
      var k, m := s.stats[i].key, s.stats[i].outcome.msg;
      && AnswersOnce(cfg, Init(now), run, k) && TimesRead(cfg, Init(now), run, k, m) == 0
      && Marks(run, k) <= 1 && Reclaim(ForDispatch, k) !in run
    ensures var s := Exec(cfg, Init(now), run);
      var k, m := s.stats[i].key, s.stats[i].outcome.msg;
      && m < |s.sending| && s.pool[k].attempts == s.sending[m].builtAt
      && EffectOf(cfg, s, ConsumeError(i)) == NOTHING.(begun := Some(Reread(k, s.pool[k].attempts, Answered(m))))
  {
    hide Init, IsRun, Exec, Inv, EffectOf, AnswersOnce, Tally, TimesRead;
    var s := Exec(cfg, Init(now), run);
    ReachableInv(cfg, now, run);
    ErrorsNameTheirMessage(cfg, s, i);
    BuiltBelow(cfg, s, s.stats[i].outcome.msg);
    AnUnreadEnvelopeHoldsTheTally(cfg, now, run, s.stats[i].key, s.stats[i].outcome.msg);
    ReadBegins(cfg, s, i);
  }

  // ---- Deliveries given up on the error leg ----

  /** k was given up at tally n for an error of message m: the stat is out, or is about
      to be. */
  predicate GivenUp(s: State, k: Key, n: nat, m: nat) {
    GiveUp(k, n, Answered(m)) in s.tasks || Event(k, Failed(n, Answered(m))) in s.stats
  }

  /** The j-th step of the run reads k's tally, n, for message m's error, and there is no
      retry at n. */
  ghost predicate RefusedAt(cfg: Config, s: State, run: seq<Action>, j: nat, k: Key, n: nat, m: nat) {
    && j < |run| && IsRun(cfg, s, run[..j])
    && var here := Exec(cfg, s, run[..j]);
      Reads(here, run[j], k, m) && here.pool[k].attempts == n && !cfg.policy.CanRetry(n)
  }

  predicate GiveUpStep(cfg: Config, s: State, a: Action, e: Effect, k: Key, n: nat, m: nat) {
    && (e.begun == Some(GiveUp(k, n, Answered(m))) ==> Reads(s, a, k, m) && s.pool[k].attempts == n && !cfg.policy.CanRetry(n))
    && (e.published == Some(Event(k, Failed(n, Answered(m)))) ==> GiveUp(k, n, Answered(m)) in s.tasks)
  }

  lemma ActionsStepTheGiveUp(cfg: Config, s: State, a: Action, k: Key, n: nat, m: nat)
    requires Inv(cfg, s) && Enabled(cfg, s, a)
    ensures GiveUpStep(cfg, s, a, EffectOf(cfg, s, a), k, n, m)
  {
    hide RowOK, KeyOK, TallyOK, SourceOK, EnvelopeOK;
    match a
    case PublishVerdict(k', v) => assert TaskOK(cfg, s, Announce(k', v));
    case PublishReport(m', o) => assert TaskOK(cfg, s, Report(m', o));
    case _ =>
  }

  lemma GivenUpAfter(cfg: Config, s: State, a: Action, k: Key, n: nat, m: nat)
    requires Inv(cfg, s) && Enabled(cfg, s, a) && GivenUp(Next(cfg, s, a), k, n, m)
    ensures GivenUp(s, k, n, m) || (Reads(s, a, k, m) && s.pool[k].attempts == n && !cfg.policy.CanRetry(n))
  {
    hide Inv, Enabled, EffectOf, Apply;
    var e := EffectOf(cfg, s, a);
    ActionsStepTheGiveUp(cfg, s, a, k, n, m);
    FinishedIsHeld(cfg, s, a);
    TasksAfter(s, e, GiveUp(k, n, Answered(m)));
    StatsAfter(s, e);
  }

  lemma {:induction false} GivenUpWasRefused(cfg: Config, s: State, run: seq<Action>, k: Key, n: nat, m: nat)
    requires Inv(cfg, s) && IsRun(cfg, s, run) && GivenUp(Exec(cfg, s, run), k, n, m)
    ensures GivenUp(s, k, n, m) || exists j: nat :: RefusedAt(cfg, s, run, j, k, n, m)
    decreases |run|
  {
    hide Inv, Enabled, Next, GivenUp, Reads;
    if |run| > 0 {
      var s' := Next(cfg, s, run[0]);
      StepKeepsInv(cfg, s, run[0]);
      GivenUpWasRefused(cfg, s', run[1..], k, n, m);
      if GivenUp(s', k, n, m) {
        GivenUpAfter(cfg, s, run[0], k, n, m);
        assert run[..0] == [];
        assert GivenUp(s, k, n, m) || RefusedAt(cfg, s, run, 0, k, n, m);
      } else {
        var j: nat :| RefusedAt(cfg, s', run[1..], j, k, n, m);
        assert run[..j + 1][0] == run[0] && run[..j + 1][1..] == run[1..][..j];
        assert RefusedAt(cfg, s, run, j + 1, k, n, m);
      }
    }
  }

  lemma {:induction false} ReadsAdd(cfg: Config, s: State, a: seq<Action>, b: seq<Action>, k: Key, m: nat)
    requires IsRun(cfg, s, a) && IsRun(cfg, Exec(cfg, s, a), b)
    ensures IsRun(cfg, s, a + b)
    ensures TimesRead(cfg, s, a + b, k, m) == TimesRead(cfg, s, a, k, m) + TimesRead(cfg, Exec(cfg, s, a), b, k, m)
    decreases |a|
  {
    hide Enabled, Next, Reads;
    ExecConcat(cfg, s, a, b);
    if |a| == 0 {
      assert a + b == b;
    } else {
      assert (a + b)[0] == a[0] && (a + b)[1..] == a[1..] + b;
      ReadsAdd(cfg, Next(cfg, s, a[0]), a[1..], b, k, m);
    }
  }

  lemma {:induction false} SendingStays(cfg: Config, s: State, run: seq<Action>)
    requires IsRun(cfg, s, run)
    ensures s.sending <= Exec(cfg, s, run).sending
    decreases |run|
  {
    hide Enabled, EffectOf, Apply;
    if |run| > 0 {
      SendingAfter(s, EffectOf(cfg, s, run[0]));
      SendingStays(cfg, Next(cfg, s, run[0]), run[1..]);
    }
  }

  /** What the whole run keeps within bounds, each of its beginnings does. */
  lemma BeginningsKeep(cfg: Config, s: State, run: seq<Action>, j: nat, k: Key, b: nat)
    requires IsRun(cfg, s, run) && j <= |run| && AnswersOnce(cfg, s, run, k)
    ensures IsRun(cfg, s, run[..j]) && AnswersOnce(cfg, s, run[..j], k)
    ensures Marks(run[..j], k) <= Marks(run, k)
    ensures ReclaimedBy(cfg, s, run[..j], k, b) ==> ReclaimedBy(cfg, s, run, k, b)
  {
    hide IsRun, Exec, TimesRead, Marks, Tally;
    RunSplit(cfg, s, run, j);
    assert run == run[..j] + run[j..];
    MarksConcat(run[..j], run[j..], k);
    forall m: nat ensures TimesRead(cfg, s, run[..j], k, m) <= 1 {
      ReadsAdd(cfg, s, run[..j], run[j..], k, m);
    }
    if ReclaimedBy(cfg, s, run[..j], k, b) {
      var i: nat, t: nat :| t <= b && ReclaimedAt(cfg, s, run[..j], i, k, t);
      assert run[..j][..i] == run[..i];
      assert ReclaimedAt(cfg, s, run, i, k, t);
    }
  }

  lemma FirstRead(cfg: Config, s: State, run: seq<Action>, j: nat, k: Key, m: nat)
    requires IsRun(cfg, s, run) && j < |run| && TimesRead(cfg, s, run, k, m) <= 1
    requires IsRun(cfg, s, run[..j]) && Reads(Exec(cfg, s, run[..j]), run[j], k, m)
    ensures TimesRead(cfg, s, run[..j], k, m) == 0
  {
    hide Enabled, Next, Reads, Exec;
    RunSplit(cfg, s, run, j);
    assert run == run[..j] + run[j..];
    ReadsAdd(cfg, s, run[..j], run[j..], k, m);
    assert run[j..][0] == run[j];
  }

  /** How an answered error can end a Delivery as Failed, in every run: a message of it
      was answered twice, it was marked validated twice, or a dispatch claim of it was
      taken back at the tally that message's Envelope was built at or an earlier one. */
  lemma GivenUpOnAnAnswer(cfg: Config, now: int, run: seq<Action>, k: Key, n: nat, m: nat)
    requires IsRun(cfg, Init(now), run) && GivenUp(Exec(cfg, Init(now), run), k, n, m)
    ensures var s := Exec(cfg, Init(now), run);
      && m < |s.sending| && s.sending[m].key == k && s.sending[m].builtAt < n
      && (|| Marks(run, k) >= 2
          || !AnswersOnce(cfg, Init(now), run, k)
          || ReclaimedBy(cfg, Init(now), run, k, s.sending[m].builtAt))
  {
    hide Init, IsRun, Exec, Inv, Tally, GivenUp, TimesRead, AnswersOnce, ReclaimedBy, Reads, RefusedAt;
    InitHolds(cfg, now);
    GivenUpWasRefused(cfg, Init(now), run, k, n, m);
    InitGivesNothingUp(now, k, n, m);
    var j: nat :| RefusedAt(cfg, Init(now), run, j, k, n, m);
    RefusedFinds(cfg, now, run, j, k, n, m);
  }

  lemma InitGivesNothingUp(now: int, k: Key, n: nat, m: nat)
    ensures !GivenUp(Init(now), k, n, m)
  {
  }

  lemma RefusedFinds(cfg: Config, now: int, run: seq<Action>, j: nat, k: Key, n: nat, m: nat)
    requires IsRun(cfg, Init(now), run) && RefusedAt(cfg, Init(now), run, j, k, n, m)
    ensures var s := Exec(cfg, Init(now), run);
      && m < |s.sending| && s.sending[m].key == k && s.sending[m].builtAt < n
      && (Marks(run, k) <= 1 && AnswersOnce(cfg, Init(now), run, k) ==> ReclaimedBy(cfg, Init(now), run, k, s.sending[m].builtAt))
  {
    hide Init, IsRun, Exec, Inv, Tally, TimesRead, ReclaimedBy, Marks;
    var before := run[..j];
    var here := Exec(cfg, Init(now), before);
    ReachableInv(cfg, now, before);
    ErrorsNameTheirMessage(cfg, here, run[j].index);
    BuiltBelow(cfg, here, m);
    RunSplit(cfg, Init(now), run, j);
    SendingStays(cfg, here, run[j..]);
    if Marks(run, k) <= 1 && AnswersOnce(cfg, Init(now), run, k) {
      BeginningsKeep(cfg, Init(now), run, j, k, here.sending[m].builtAt);
      FirstRead(cfg, Init(now), run, j, k, m);
      AnUnreadEnvelopeHoldsTheTally(cfg, now, before, k, m);
    }
  }
}
