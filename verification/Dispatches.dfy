/** How often a Delivery can be dispatched: what each claim is earned by, and what
    becomes of it. */
module Dispatches {
  import opened Prelude
  import opened Pool
  import opened Protocol
  import opened Invariants
  import opened Safety

  /** The Dispatchers holding k since a claim at a tally of at most n. */
  function HeldUpTo(tasks: multiset<Task>, k: Key, n: nat): nat {
    tasks[Dispatch(k, n)] + if n == 0 then 0 else HeldUpTo(tasks, k, n - 1)
  }

  /** The Envelopes of k built at a tally of at most n. */
  function BuiltUpTo(sending: seq<Envelope>, k: Key, n: nat): nat {
    if |sending| == 0 then 0
    else
      var last := sending[|sending| - 1];
      BuiltUpTo(sending[..|sending| - 1], k, n) + if last.key == k && last.builtAt <= n then 1 else 0
  }

  function EnvelopesOf(sending: seq<Envelope>, k: Key): nat {
    if |sending| == 0 then 0
    else EnvelopesOf(sending[..|sending| - 1], k) + if sending[|sending| - 1].key == k then 1 else 0
  }

  /** What a run did to one Delivery: verdicts that marked it validated; claims, and
      failed dispatches, at a tally of at most n; and reschedules of its row, by what
      the verdict behind them followed on. */
  datatype Tale = Tale(marks: nat, claims: nat, failures: nat, returned: nat, answered: nat)

  const UNTOLD := Tale(0, 0, 0, 0, 0)

  function Told(s: State, a: Action, k: Key, n: nat, tale: Tale): Tale {
    match a
    case MarkValidated(k') =>
      if k' == k then tale.(marks := tale.marks + 1) else tale
    case ClaimForDispatch(k') =>
      if k' == k && k in s.pool && s.pool[k].attempts <= n then tale.(claims := tale.claims + 1) else tale
    case FailToDispatch(k', m) =>
      if k' == k && m <= n then tale.(failures := tale.failures + 1) else tale
    case WriteReschedule(k', _, _, src) =>
      if k' != k || k !in s.pool then tale
      else if src.Answered? then tale.(answered := tale.answered + 1)
      else tale.(returned := tale.returned + 1)
    case _ => tale
  }

  function TaleAfter(cfg: Config, s: State, run: seq<Action>, k: Key, n: nat, tale: Tale): Tale
    requires IsRun(cfg, s, run)
    decreases |run|
  {
    if |run| == 0 then tale else TaleAfter(cfg, Next(cfg, s, run[0]), run[1..], k, n, Told(s, run[0], k, n, tale))
  }

  function Tally(s: State, k: Key): nat {
    LedgerOf(s.history, k).Tally()
  }

  function Least(a: nat, b: nat): nat {
    if a <= b then a else b
  }

  /** The accounts of one Delivery up to tally n. A dispatch that is held, failed or
      built was claimed; a claim was earned by a return to scheduled: one bump of the
      tally each, or a verdict. */
  predicate Balanced(s: State, k: Key, n: nat, tale: Tale) {
    && HeldUpTo(s.tasks, k, n) + BuiltUpTo(s.sending, k, n) + tale.failures <= tale.claims
    && tale.claims + (if Claimable(s, k) && s.pool[k].attempts <= n then 1 else 0) <= Least(Tally(s, k), n) + tale.marks
    && tale.claims <= s.history.claims[k]
    && (Tally(s, k) <= n ==> tale.claims == s.history.claims[k])
    && tale.returned + tale.answered == s.history.timely[k] + s.history.stale[k]
  }

  // ---- One step ----

  predicate IsDispatch(t: Option<Task>, k: Key, n: nat) {
    t.Some? && t.value.Dispatch? && t.value.key == k && t.value.attempts <= n
  }

  lemma {:induction false} HeldAfter(tasks: multiset<Task>, gone: Option<Task>, begun: Option<Task>, k: Key, n: nat)
    requires gone.Some? ==> gone.value in tasks
    ensures HeldUpTo(tasks - One(gone) + One(begun), k, n) ==
      HeldUpTo(tasks, k, n) - (if IsDispatch(gone, k, n) then 1 else 0) + (if IsDispatch(begun, k, n) then 1 else 0)
  {
    var after, d := tasks - One(gone) + One(begun), Dispatch(k, n);
    assert after[d] == tasks[d] - (if gone == Some(d) then 1 else 0) + (if begun == Some(d) then 1 else 0);
    if n > 0 {
      HeldAfter(tasks, gone, begun, k, n - 1);
    }
  }

  lemma BuiltAfter(sending: seq<Envelope>, sent: Option<Envelope>, k: Key, n: nat)
    ensures BuiltUpTo(sending + Appended(sent), k, n) ==
      BuiltUpTo(sending, k, n) + if sent.Some? && sent.value.key == k && sent.value.builtAt <= n then 1 else 0
  {
    if sent.Some? {
      assert (sending + [sent.value])[..|sending|] == sending;
    } else {
      assert sending + Appended(sent) == sending;
    }
  }

  /** How one action bears on k's dispatches, claims and tally. */
  predicate DispatchStep(s: State, a: Action, e: Effect, k: Key) {
    && (e.begun.Some? && e.begun.value.Dispatch? && e.begun.value.key == k ==>
          a == ClaimForDispatch(k) && k in s.pool && e.begun.value.attempts == s.pool[k].attempts)
    && (e.sent.Some? && e.sent.value.key == k ==> e.finished == Some(Dispatch(k, e.sent.value.builtAt)))
    && (a.FailToDispatch? && a.key == k ==> e.finished == Some(Dispatch(k, a.attempts)) && e.sent.None?)
    && (e.note == DispatchClaim(k) <==> a == ClaimForDispatch(k))
    && (e.note == TimelyReschedule(k) || e.note == StaleReschedule(k) <==> a.WriteReschedule? && a.key == k && k in s.pool)
    && (e.note == DispatchReclaim(k) <==> a == Reclaim(ForDispatch, k))
  }

  lemma ActionsStepTheDispatch(cfg: Config, s: State, a: Action, k: Key)
    requires Enabled(cfg, s, a)
    ensures DispatchStep(s, a, EffectOf(cfg, s, a), k)
  {
  }

  lemma FinishedIsHeld(cfg: Config, s: State, a: Action)
    requires Enabled(cfg, s, a)
    ensures EffectOf(cfg, s, a).finished.Some? ==> EffectOf(cfg, s, a).finished.value in s.tasks
  {
  }

  /** Whatever is claimable after a step is so by one of the three returns, which
      leave the tally as it was or one larger, or was already, untouched. */
  lemma ClaimableAfter(cfg: Config, s: State, a: Action, k: Key)
    requires Enabled(cfg, s, a) && Claimable(Next(cfg, s, a), k)
    ensures var s' := Next(cfg, s, a);
      || (a == MarkValidated(k) && k in s.pool && s'.pool[k].attempts == s.pool[k].attempts)
      || (a.WriteReschedule? && a.key == k && k in s.pool)
      || a == Reclaim(ForDispatch, k)
      || (Claimable(s, k) && a != ClaimForDispatch(k) && s'.pool[k].attempts == s.pool[k].attempts)
  {
    hide Recorded, One, Appended;
  }

  lemma TallyAfter(s: State, e: Effect, k: Key)
    ensures Tally(Apply(s, e), k) == Tally(s, k)
      + if e.note == TimelyReschedule(k) || e.note == StaleReschedule(k) || e.note == DispatchReclaim(k) then 1 else 0
    ensures Apply(s, e).history.claims[k] == s.history.claims[k] + if e.note == DispatchClaim(k) then 1 else 0
    ensures Apply(s, e).history.timely[k] + Apply(s, e).history.stale[k] == s.history.timely[k] + s.history.stale[k]
      + if e.note == TimelyReschedule(k) || e.note == StaleReschedule(k) then 1 else 0
  {
    hide Recorded;
    LedgerRecorded(s.history, e.note, s.now, k);
  }

  lemma DispatchesBalance(cfg: Config, s: State, a: Action, k: Key, n: nat, tale: Tale)
    requires Enabled(cfg, s, a)
    requires HeldUpTo(s.tasks, k, n) + BuiltUpTo(s.sending, k, n) + tale.failures <= tale.claims
    ensures var s', tale' := Next(cfg, s, a), Told(s, a, k, n, tale);
      HeldUpTo(s'.tasks, k, n) + BuiltUpTo(s'.sending, k, n) + tale'.failures <= tale'.claims
  {
    hide Enabled, EffectOf, HeldUpTo, BuiltUpTo, Recorded, One, Appended;
    var e := EffectOf(cfg, s, a);
    ActionsStepTheDispatch(cfg, s, a, k);
    FinishedIsHeld(cfg, s, a);
    HeldAfter(s.tasks, e.finished, e.begun, k, n);
    BuiltAfter(s.sending, e.sent, k, n);
  }

  lemma StepKeepsBalance(cfg: Config, s: State, a: Action, k: Key, n: nat, tale: Tale)
    requires Inv(cfg, s) && Enabled(cfg, s, a)
    requires Balanced(s, k, n, tale)
    ensures Balanced(Next(cfg, s, a), k, n, Told(s, a, k, n, tale))
  {
    hide Enabled, EffectOf, Apply, Inv, HeldUpTo, BuiltUpTo, Tally;
    var s' := Next(cfg, s, a);
    DispatchesBalance(cfg, s, a, k, n, tale);
    ActionsStepTheDispatch(cfg, s, a, k);
    TallyAfter(s, EffectOf(cfg, s, a), k);
    RowIsItsTally(cfg, s, k);
    StepKeepsInv(cfg, s, a);
    RowIsItsTally(cfg, s', k);
    if a == ClaimForDispatch(k) {
      ClaimNeedsAScheduledRow(cfg, s, k);
    }
    if Claimable(s', k) {
      ClaimableAfter(cfg, s, a, k);
    }
  }

  lemma RowIsItsTally(cfg: Config, s: State, k: Key)
    requires Inv(cfg, s)
    ensures k in s.pool ==> s.pool[k].attempts == Tally(s, k)
  {
    assert k in s.pool ==> RowOK(cfg, s, k);
  }

  lemma {:induction false} RunKeepsBalance(cfg: Config, s: State, run: seq<Action>, k: Key, n: nat, tale: Tale)
    requires Inv(cfg, s) && IsRun(cfg, s, run)
    requires Balanced(s, k, n, tale)
    ensures Balanced(Exec(cfg, s, run), k, n, TaleAfter(cfg, s, run, k, n, tale))
    decreases |run|
  {
    hide Enabled, Next, Inv, Balanced, Told;
    if |run| > 0 {
      StepKeepsInv(cfg, s, run[0]);
      StepKeepsBalance(cfg, s, run[0], k, n, tale);
      RunKeepsBalance(cfg, Next(cfg, s, run[0]), run[1..], k, n, Told(s, run[0], k, n, tale));
    }
  }

  lemma {:induction false} NoneIsHeld(k: Key, n: nat)
    ensures HeldUpTo(multiset{}, k, n) == 0
  {
    if n > 0 {
      NoneIsHeld(k, n - 1);
    }
  }

  lemma NoneIsBuilt(k: Key, n: nat)
    ensures BuiltUpTo([], k, n) == 0
  {
  }

  lemma NoneIn(m: multiset<Key>, k: Key)
    requires m == multiset{}
    ensures m[k] == 0
  {
  }

  lemma TallyOfNothing(s: State, k: Key)
    requires s.history.timely[k] == s.history.stale[k] == s.history.reclaims[k] == 0
    ensures Tally(s, k) == 0
  {
  }

  lemma NoneIsTallied(now: int, k: Key)
    ensures Tally(Init(now), k) == 0 && Init(now).history.claims[k] == 0
    ensures Init(now).history.timely[k] + Init(now).history.stale[k] == 0
  {
    hide Tally;
    var h := Init(now).history;
    NoneIn(h.claims, k);
    NoneIn(h.timely, k);
    NoneIn(h.stale, k);
    NoneIn(h.reclaims, k);
    TallyOfNothing(Init(now), k);
  }

  lemma InitBalances(now: int, k: Key, n: nat)
    ensures Balanced(Init(now), k, n, UNTOLD)
  {
    hide HeldUpTo, BuiltUpTo, Tally;
    NoneIsHeld(k, n);
    NoneIsBuilt(k, n);
    NoneIsTallied(now, k);
  }

  /** The accounts of a whole run. */
  lemma TalesBalance(cfg: Config, now: int, run: seq<Action>, k: Key, n: nat)
    requires IsRun(cfg, Init(now), run)
    ensures Balanced(Exec(cfg, Init(now), run), k, n, TaleAfter(cfg, Init(now), run, k, n, UNTOLD))
  {
    hide IsRun, Exec, Balanced, TaleAfter;
    InitBalances(now, k, n);
    RunKeepsBalance(cfg, Init(now), run, k, n, UNTOLD);
  }

  // ---- Dispatched for ever, returned for ever ----

  /** How often run marked k validated. */
  function Marks(run: seq<Action>, k: Key): nat {
    if |run| == 0 then 0 else Marks(run[1..], k) + if run[0] == MarkValidated(k) then 1 else 0
  }

  lemma {:induction false} MarksConcat(a: seq<Action>, b: seq<Action>, k: Key)
    ensures Marks(a + b, k) == Marks(a, k) + Marks(b, k)
  {
    if |a| == 0 {
      assert a + b == b;
    } else {
      assert (a + b)[0] == a[0] && (a + b)[1..] == a[1..] + b;
      MarksConcat(a[1..], b, k);
    }
  }

  lemma {:induction false} MarksAreTold(cfg: Config, s: State, run: seq<Action>, k: Key, n: nat, tale: Tale)
    requires IsRun(cfg, s, run)
    ensures TaleAfter(cfg, s, run, k, n, tale).marks == tale.marks + Marks(run, k)
    decreases |run|
  {
    hide Enabled, Next;
    if |run| > 0 {
      MarksAreTold(cfg, Next(cfg, s, run[0]), run[1..], k, n, Told(s, run[0], k, n, tale));
    }
  }

  lemma {:induction false} AllAreBuiltUpTo(sending: seq<Envelope>, k: Key) returns (n: nat)
    ensures forall m: nat :: n <= m ==> BuiltUpTo(sending, k, m) == EnvelopesOf(sending, k)
  {
    n := 0;
    if |sending| > 0 {
      var last := sending[|sending| - 1];
      n := AllAreBuiltUpTo(sending[..|sending| - 1], k);
      n := if n <= last.builtAt then last.builtAt else n;
    }
  }

  /** Every run: the Envelopes of a Delivery are no more than its dispatch claims, and
      those no more than its reschedules, reclaims and verdicts. So a Delivery that is
      dispatched for ever is returned to scheduled for ever. */
  lemma DispatchesAreEarned(cfg: Config, now: int, run: seq<Action>, k: Key)
    requires IsRun(cfg, Init(now), run)
    ensures var s := Exec(cfg, Init(now), run);
      var h := s.history;
      EnvelopesOf(s.sending, k) <= h.claims[k] <= h.timely[k] + h.stale[k] + h.reclaims[k] + Marks(run, k)
  {
    hide IsRun, Exec, HeldUpTo, BuiltUpTo, EnvelopesOf;
    var s := Exec(cfg, Init(now), run);
    var n := AllAreBuiltUpTo(s.sending, k);
    n := n + Tally(s, k);
    TalesBalance(cfg, now, run, k, n);
    MarksAreTold(cfg, Init(now), run, k, n, UNTOLD);
  }
}
