/** What the guard buys: in every run a message of the sending stream goes to an MX
    once, up to the guard's own failures. */
module SendOnce {
  import opened Prelude
  import opened Pool
  import opened Protocol
  import SendGuard

  /** The name under which message m is claimed is in the bucket. */
  predicate Guarded(cfg: Config, s: State, m: nat) {
    m < |s.sending| && GuardKey(cfg, s.sending, m) in s.guard
  }

  /** The accounts of one message. Every transaction, or worker about to make one,
      answers to a guard claim won or a guard that could not be asked; and of claims
      won there is one more than were forgotten at most. */
  predicate MessageOK(cfg: Config, s: State, m: nat) {
    var h := s.history;
    && h.won[m] <= h.expired[m] + (if Guarded(cfg, s, m) then 1 else 0)
    && h.transactions[m] + s.tasks[Transmit(m)] <= h.won[m] + h.faults[m]
    && (Guarded(cfg, s, m) ==> h.won[m] + h.faults[m] > 0)
    && (m >= |s.sending| ==> h.won[m] + h.faults[m] + h.expired[m] == 0)
  }

  /** Every name in the bucket is some message's. */
  ghost predicate NamesOK(cfg: Config, s: State) {
    forall name :: name in s.guard ==> exists m :: 0 <= m < |s.sending| && name == GuardKey(cfg, s.sending, m)
  }

  ghost predicate GuardInv(cfg: Config, s: State) {
    NamesOK(cfg, s) && forall m: nat :: MessageOK(cfg, s, m)
  }

  /** How an effect bears on the guard, from the action it comes from. */
  predicate GuardStep(cfg: Config, s: State, e: Effect) {
    match e.note
    case GuardWon(m) =>
      && m < |s.sending| && GuardKey(cfg, s.sending, m) !in s.guard
      && e.guard == Added(GuardKey(cfg, s.sending, m)) && e.begun == Some(Transmit(m)) && e.finished.None? && e.sent.None?
    case GuardFault(m) =>
      && m < |s.sending|
      && (e.guard == Kept || e.guard == Added(GuardKey(cfg, s.sending, m)))
      && e.begun == Some(Transmit(m)) && e.finished.None? && e.sent.None?
    case GuardExpired(m) =>
      && m < |s.sending| && GuardKey(cfg, s.sending, m) in s.guard
      && e.guard == Forgotten(GuardKey(cfg, s.sending, m)) && e.begun.None? && e.finished.None? && e.sent.None?
    case Transaction(m) =>
      && m < |s.sending| && Transmit(m) in s.tasks && e.finished == Some(Transmit(m))
      && e.begun.Some? && !e.begun.value.Transmit? && e.guard == Kept && e.sent.None?
    case _ =>
      && e.guard == Kept
      && (e.begun.Some? ==> !e.begun.value.Transmit?)
  }

  lemma ActionsStepTheGuard(cfg: Config, s: State, a: Action)
    requires Enabled(cfg, s, a)
    ensures GuardStep(cfg, s, EffectOf(cfg, s, a))
  {
  }

  /** A delivery takes its claim as the bucket answers: the name is stored when the bucket
      was reached, or stored it before it was lost, and the message is sent on unless the
      bucket said that the name was there. */
  lemma DeliveriesClaim(cfg: Config, s: State, m: nat, bucket: SendGuard.Bucket)
    requires m < |s.sending|
    ensures Enabled(cfg, s, Deliver(m, bucket))
    ensures var name, s' := GuardKey(cfg, s.sending, m), Next(cfg, s, Deliver(m, bucket));
      && s'.guard == (if bucket.Unreachable? && !bucket.stored then s.guard else s.guard + {name})
      && s'.tasks[Transmit(m)] == s.tasks[Transmit(m)] + if bucket.Reached? && name in s.guard then 0 else 1
  {
    hide GuardKey;
  }

  /** Keys of different messages never collide. */
  lemma KeysAreDistinct(cfg: Config, sending: seq<Envelope>, m: nat, n: nat)
    requires m < |sending| && n < |sending|
    ensures GuardKey(cfg, sending, m) == GuardKey(cfg, sending, n) <==> m == n
  {
    SendGuard.SendKeysAreDistinct(m + 1, cfg.digest(sending[m].key), n + 1, cfg.digest(sending[n].key));
  }

  /** Appending to the stream renames nothing. */
  lemma KeysStay(cfg: Config, sending: seq<Envelope>, sent: Option<Envelope>, m: nat)
    requires m < |sending|
    ensures GuardKey(cfg, sending + Appended(sent), m) == GuardKey(cfg, sending, m)
  {
  }

  lemma NamesKept(cfg: Config, s: State, e: Effect)
    requires NamesOK(cfg, s) && GuardStep(cfg, s, e)
    ensures NamesOK(cfg, Apply(s, e))
  {
    hide Recorded, GuardKey;
    var s' := Apply(s, e);
    forall name | name in s'.guard ensures exists m :: 0 <= m < |s'.sending| && name == GuardKey(cfg, s'.sending, m) {
      var m;
      if name in s.guard {
        m :| 0 <= m < |s.sending| && name == GuardKey(cfg, s.sending, m);
      } else {
        m := e.note.msg;
      }
      KeysStay(cfg, s.sending, e.sent, m);
      assert m < |s'.sending| && name == GuardKey(cfg, s'.sending, m);
    }
  }

  /** Whether message m is guarded after an effect. */
  lemma GuardedNext(cfg: Config, s: State, e: Effect, m: nat)
    requires NamesOK(cfg, s) && GuardStep(cfg, s, e)
    ensures Guarded(cfg, Apply(s, e), m) <==>
      m < |s.sending| && if e.guard.Added? && e.note.msg == m then true else if e.guard.Forgotten? && e.note.msg == m then false else Guarded(cfg, s, m)
  {
    hide Recorded, GuardKey;
    var s' := Apply(s, e);
    if m < |s.sending| {
      KeysStay(cfg, s.sending, e.sent, m);
      if !e.guard.Kept? {
        KeysAreDistinct(cfg, s.sending, m, e.note.msg);
      }
    } else if m < |s'.sending| {
      var name := GuardKey(cfg, s'.sending, m);
      if name in s.guard {
        var n :| 0 <= n < |s.sending| && name == GuardKey(cfg, s.sending, n);
        KeysStay(cfg, s.sending, e.sent, n);
        KeysAreDistinct(cfg, s'.sending, m, n);
      }
    }
  }

  /** What an effect adds to one message's accounts. */
  lemma AccountsNext(s: State, e: Effect, m: nat)
    ensures var h, h' := s.history, Apply(s, e).history;
      && h'.won[m] == h.won[m] + (if e.note == GuardWon(m) then 1 else 0)
      && h'.faults[m] == h.faults[m] + (if e.note == GuardFault(m) then 1 else 0)
      && h'.expired[m] == h.expired[m] + (if e.note == GuardExpired(m) then 1 else 0)
      && h'.transactions[m] == h.transactions[m] + (if e.note == Transaction(m) then 1 else 0)
  {
    hide One, Appended;
  }

  lemma TransmitsNext(s: State, e: Effect, m: nat)
    requires e.finished.Some? ==> e.finished.value in s.tasks
    ensures Apply(s, e).tasks[Transmit(m)] == s.tasks[Transmit(m)]
      - (if e.finished == Some(Transmit(m)) then 1 else 0) + (if e.begun == Some(Transmit(m)) then 1 else 0)
  {
    hide Recorded;
  }

  lemma FinishedWasHeld(cfg: Config, s: State, a: Action)
    requires Enabled(cfg, s, a)
    ensures var e := EffectOf(cfg, s, a); e.finished.Some? ==> e.finished.value in s.tasks
  {
  }

  lemma GuardedMeansStored(cfg: Config, s: State, e: Effect, m: nat)
    ensures Guarded(cfg, s, m) ==> m < |s.sending|
    ensures |s.sending| <= |Apply(s, e).sending|
  {
  }

  lemma MessageKept(cfg: Config, s: State, e: Effect, m: nat)
    requires NamesOK(cfg, s) && GuardStep(cfg, s, e) && MessageOK(cfg, s, m)
    requires e.finished.Some? ==> e.finished.value in s.tasks
    ensures MessageOK(cfg, Apply(s, e), m)
  {
    hide Apply, GuardKey, NamesOK;
    GuardedNext(cfg, s, e, m);
    AccountsNext(s, e, m);
    TransmitsNext(s, e, m);
    GuardedMeansStored(cfg, s, e, m);
  }

  lemma StepKeepsGuardInv(cfg: Config, s: State, a: Action)
    requires GuardInv(cfg, s) && Enabled(cfg, s, a)
    ensures GuardInv(cfg, Next(cfg, s, a))
  {
    hide Enabled, EffectOf, Apply, GuardStep, MessageOK, NamesOK;
    var e := EffectOf(cfg, s, a);
    ActionsStepTheGuard(cfg, s, a);
    FinishedWasHeld(cfg, s, a);
    NamesKept(cfg, s, e);
    forall m: nat ensures MessageOK(cfg, Next(cfg, s, a), m) {
      MessageKept(cfg, s, e, m);
    }
  }

  lemma {:induction false} RunKeepsGuardInv(cfg: Config, s: State, run: seq<Action>)
    requires GuardInv(cfg, s) && IsRun(cfg, s, run)
    ensures GuardInv(cfg, Exec(cfg, s, run))
    decreases |run|
  {
    hide Enabled, Next, GuardInv;
    if |run| > 0 {
      StepKeepsGuardInv(cfg, s, run[0]);
      RunKeepsGuardInv(cfg, Next(cfg, s, run[0]), run[1..]);
    }
  }

  /** SMTP transactions for one stored message are at most one, plus the deliveries
      on which the guard itself failed and the claims it forgot. */
  lemma AtMostOneTransaction(cfg: Config, now: int, run: seq<Action>, m: nat)
    requires IsRun(cfg, Init(now), run)
    ensures var h := Exec(cfg, Init(now), run).history; h.transactions[m] <= 1 + h.faults[m] + h.expired[m]
  {
    hide IsRun, Exec;
    RunKeepsGuardInv(cfg, Init(now), run);
    assert MessageOK(cfg, Exec(cfg, Init(now), run), m);
  }

  /** A re-dispatch is never taken for a redelivery: whatever else was claimed, a
      message that has not been is sent on. */
  lemma OnlyRedeliveriesAreSuppressed(cfg: Config, now: int, run: seq<Action>, m: nat)
    requires IsRun(cfg, Init(now), run)
    requires Enabled(cfg, Exec(cfg, Init(now), run), Deliver(m, SendGuard.Reached))
    ensures var s := Exec(cfg, Init(now), run);
      s.history.won[m] + s.history.faults[m] == 0 ==>
        s.tasks[Transmit(m)] == 0 && Next(cfg, s, Deliver(m, SendGuard.Reached)).tasks[Transmit(m)] == 1
  {
    hide IsRun, Exec, Next;
    RunKeepsGuardInv(cfg, Init(now), run);
    assert MessageOK(cfg, Exec(cfg, Init(now), run), m);
    if !Guarded(cfg, Exec(cfg, Init(now), run), m) {
      UnguardedDeliveryTransmits(cfg, Exec(cfg, Init(now), run), m);
    }
  }

  lemma UnguardedDeliveryTransmits(cfg: Config, s: State, m: nat)
    requires Enabled(cfg, s, Deliver(m, SendGuard.Reached)) && !Guarded(cfg, s, m)
    ensures Next(cfg, s, Deliver(m, SendGuard.Reached)).tasks[Transmit(m)] == s.tasks[Transmit(m)] + 1
  {
  }
}
