/** The workers' own code: what the Dispatcher, the Validator and the SMTPSender
    do with one message or one Delivery, other workers running between any two of
    their effects. Each is a run of the protocol, so Safety and SendOnce hold of it. */
module Workers {
  import opened Prelude
  import opened Pool
  import opened Protocol
  import opened Invariants
  import Retry
  import SendGuard

  lemma GrowsTwice(s: State, t: State, u: State)
    requires Grows(s, t) && Grows(t, u)
    ensures Grows(s, u)
  {
  }

  lemma {:induction false} RunGrows(cfg: Config, s: State, run: seq<Action>)
    requires IsRun(cfg, s, run)
    ensures Grows(s, Exec(cfg, s, run))
    decreases |run|
  {
    hide Enabled, Next;
    if |run| > 0 {
      var s' := Next(cfg, s, run[0]);
      NextGrows(cfg, s, run[0]);
      RunGrows(cfg, s', run[1..]);
      GrowsTwice(s, s', Exec(cfg, s', run[1..]));
    }
  }

  lemma {:induction false} RunSplits(cfg: Config, s: State, a: seq<Action>, b: seq<Action>)
    requires IsRun(cfg, s, a + b)
    ensures IsRun(cfg, s, a) && IsRun(cfg, Exec(cfg, s, a), b)
    ensures Exec(cfg, s, a + b) == Exec(cfg, Exec(cfg, s, a), b)
    decreases |a|
  {
    hide Enabled, Next;
    if |a| == 0 {
      assert a + b == b;
    } else {
      var s1, ab := Next(cfg, s, a[0]), a + b;
      assert ab[0] == a[0] && ab[1..] == a[1..] + b;
      RunSplits(cfg, s1, a[1..], b);
    }
  }

  /** A deployment, and everything that has happened in it. */
  class Deployment {
    const cfg: Config
    const start: int
    var st: State
    ghost var trace: seq<Action>

    ghost predicate Valid()
      reads this
    {
      IsRun(cfg, Init(start), trace) && st == Exec(cfg, Init(start), trace)
    }

    constructor (cfg: Config, start: int)
      ensures Valid() && st == Init(start) && trace == []
    {
      this.cfg, this.start, st, trace := cfg, start, Init(start), [];
    }

    /** One effect of one worker. */
    method Do(a: Action)
      requires Valid() && Enabled(cfg, st, a)
      modifies this
      ensures Valid() && trace == old(trace) + [a]
      ensures st == Next(cfg, old(st), a)
    {
      hide Enabled, Next, IsRun, Exec;
      ExecSnoc(cfg, Init(start), trace, a);
      st := Next(cfg, st, a);
      trace := trace + [a];
    }

    /** Whatever the other workers do meanwhile, leaving the caller its Task. */
    method Interleave(mine: Task)
      requires Valid() && mine in st.tasks
      modifies this
      ensures Valid() && old(trace) <= trace
      ensures mine in st.tasks
    {
    }

    /** The streams and the history never shrink behind a worker's back. */
    twostate lemma Grown()
      requires old(Valid()) && Valid() && old(trace) <= trace
      ensures Grows(old(st), st)
    {
      hide IsRun, Exec;
      var since := trace[|old(trace)|..];
      assert trace == old(trace) + since;
      RunSplits(cfg, Init(start), old(trace), since);
      RunGrows(cfg, old(st), since);
    }

    twostate lemma SendingGrown()
      requires old(Valid()) && Valid() && old(trace) <= trace
      ensures old(st.sending) <= st.sending
    {
      hide IsRun, Exec;
      Grown();
    }
  }

  /** Which of the calls a worker is about to make will fail. */
  datatype Weather = Weather(
    decoded: bool,      // the message parses
    found: bool,        // Postgres answers the consumer's lookup
    built: bool,        // the Envelope can be built
    identified: bool,   // the email ID of an Envelope parses
    published: bool,    // NATS takes the Envelope, or the stat of a send
    readable: bool,     // Postgres answers the lookup of a reschedule
    writable: bool,     // Postgres takes the reschedule
    failedTaken: bool,  // NATS takes the Failed stat
    failedStored: bool, // and stores it
    droppable: bool)    // Postgres takes the DELETE

  /** What became of the Delivery in hand. */
  datatype Ending = Sent | HandedBack | EndedAsFailed | RowGone | GoneMeanwhile | LeftInFlight

  /** retryOrFail, from the verdict on. The row is handed back, or ended and told, or
      was gone already when it was read, or by the time it was written; it is left in
      flight only when Postgres or NATS refused. */
  method RetryOrFailNow(d: Deployment, k: Key, n: nat, src: Source, w: Weather) returns (end: Ending)
    requires d.Valid() && RetryOrFail(d.cfg, k, n, src) in d.st.tasks
    modifies d
    ensures d.Valid() && old(d.trace) <= d.trace
    ensures end.HandedBack? ==> d.cfg.policy.CanRetry(n) && k in d.st.pool && Rescheduling(d.cfg.policy, d.st.pool[k])
    ensures end.RowGone? || end.GoneMeanwhile? ==> d.cfg.policy.CanRetry(n) && k !in d.st.pool
    ensures end.EndedAsFailed? ==>
      && !d.cfg.policy.CanRetry(n) && k !in d.st.pool
      && (Event(k, Failed(n, src)) in d.st.stats || k in d.st.history.lost)
    ensures !end.Sent?
    ensures end.LeftInFlight? ==> if d.cfg.policy.CanRetry(n) then !w.readable || !w.writable else !w.failedTaken || !w.droppable
  {
    hide EffectOf, Apply, IsRun, Exec;
    if d.cfg.policy.CanRetry(n) {
      end := RescheduleNow(d, k, n, src, w);
    } else {
      end := FailNow(d, k, n, src, w);
    }
  }

  /** A row as a reschedule leaves it: scheduled, one attempt more than it was read
      with at least, and due when that reading says, counted from its original time. */
  ghost predicate Rescheduling(p: Retry.Policy, r: Row) {
    r.status.Scheduled? && exists read: nat :: read < r.attempts && BackedOff(p, r, read)
  }

  lemma RereadEffect(cfg: Config, s: State, k: Key, n: nat, src: Source)
    requires Reread(k, n, src) in s.tasks
    ensures Enabled(cfg, s, ReadForReschedule(k, n, src))
    ensures var s' := Next(cfg, s, ReadForReschedule(k, n, src));
      && s'.pool == s.pool
      && (k in s.pool ==> Rewrite(k, n, cfg.policy.NextRetryAt(s.pool[k].originalAt, s.pool[k].attempts), src) in s'.tasks)
  {
  }

  lemma RewriteEffect(cfg: Config, s: State, k: Key, n: nat, at: int, src: Source)
    requires Rewrite(k, n, at, src) in s.tasks
    ensures Enabled(cfg, s, WriteReschedule(k, n, at, src))
    ensures Next(cfg, s, WriteReschedule(k, n, at, src)).pool == OnRow(s.pool, k, (r: Row) => Rescheduled(r, at))
  {
  }

  lemma CrashEffect(cfg: Config, s: State, t: Task)
    requires t in s.tasks
    ensures Enabled(cfg, s, Crash(t))
  {
  }

  lemma FailedEffect(cfg: Config, s: State, k: Key, n: nat, src: Source, stored: bool)
    requires GiveUp(k, n, src) in s.tasks
    ensures Enabled(cfg, s, PublishFailed(k, n, src, stored))
    ensures var s' := Next(cfg, s, PublishFailed(k, n, src, stored));
      && Remove(k) in s'.tasks
      && (if stored then Event(k, Failed(n, src)) in s'.stats else k in s'.history.lost)
  {
    if stored {
      var s' := Next(cfg, s, PublishFailed(k, n, src, stored));
      assert s'.stats[|s.stats|] == Event(k, Failed(n, src));
    }
  }

  lemma RemoveEffect(cfg: Config, s: State, k: Key)
    requires Remove(k) in s.tasks
    ensures Enabled(cfg, s, DropRow(k))
    ensures var s' := Next(cfg, s, DropRow(k)); k !in s'.pool && s'.stats == s.stats && s'.history == s.history
  {
    assert s.stats + Appended<Event>(None) == s.stats;
  }

  lemma RowsAreKnown(cfg: Config, now: int, run: seq<Action>, k: Key)
    requires IsRun(cfg, Init(now), run)
    ensures k in Exec(cfg, Init(now), run).pool ==> k in Exec(cfg, Init(now), run).ever
  {
    hide IsRun, Exec;
    var s := Exec(cfg, Init(now), run);
    ReachableInv(cfg, now, run);
    if k in s.pool {
      assert RowOK(cfg, s, k);
    }
  }

  method RescheduleNow(d: Deployment, k: Key, n: nat, src: Source, w: Weather) returns (end: Ending)
    requires d.Valid() && Reread(k, n, src) in d.st.tasks
    modifies d
    ensures d.Valid() && old(d.trace) <= d.trace
    ensures end.HandedBack? || end.RowGone? || end.GoneMeanwhile? || end.LeftInFlight?
    ensures end.HandedBack? ==> k in d.st.pool && Rescheduling(d.cfg.policy, d.st.pool[k])
    ensures end.RowGone? || end.GoneMeanwhile? ==> k !in d.st.pool
    ensures end.LeftInFlight? ==> !w.readable || !w.writable
  {
    hide Enabled, Next, IsRun, Exec;
    d.Interleave(Reread(k, n, src));
    if !w.readable {
      CrashEffect(d.cfg, d.st, Reread(k, n, src));
      d.Do(Crash(Reread(k, n, src)));
      return LeftInFlight;
    }
    RereadEffect(d.cfg, d.st, k, n, src);
    if k !in d.st.pool {
      d.Do(ReadForReschedule(k, n, src));
      return RowGone;
    }
    ghost var read := d.st.pool[k].attempts;
    var at := d.cfg.policy.NextRetryAt(d.st.pool[k].originalAt, d.st.pool[k].attempts);
    RowsAreKnown(d.cfg, d.start, d.trace, k);
    label found:
    d.Do(ReadForReschedule(k, n, src));
    d.Interleave(Rewrite(k, n, at, src));
    d.Grown@found();
    if !w.writable {
      CrashEffect(d.cfg, d.st, Rewrite(k, n, at, src));
      d.Do(Crash(Rewrite(k, n, at, src)));
      return LeftInFlight;
    }
    RewriteEffect(d.cfg, d.st, k, n, at, src);
    d.Do(WriteReschedule(k, n, at, src));
    if k in d.st.pool {
      Retry.DefaultRetries(d.st.pool[k].originalAt, read, d.cfg.policy.overflow);
      assert read < d.st.pool[k].attempts && BackedOff(d.cfg.policy, d.st.pool[k], read);
      return HandedBack;
    }
    end := GoneMeanwhile;
  }

  /** fail: the sender is told before the row leaves the Pool. */
  method FailNow(d: Deployment, k: Key, n: nat, src: Source, w: Weather) returns (end: Ending)
    requires d.Valid() && GiveUp(k, n, src) in d.st.tasks
    modifies d
    ensures d.Valid() && old(d.trace) <= d.trace
    ensures end.EndedAsFailed? || end.LeftInFlight?
    ensures end.EndedAsFailed? ==>
      k !in d.st.pool && (Event(k, Failed(n, src)) in d.st.stats || k in d.st.history.lost)
    ensures end.LeftInFlight? ==> !w.failedTaken || !w.droppable
  {
    hide Enabled, Next, IsRun, Exec;
    d.Interleave(GiveUp(k, n, src));
    if !w.failedTaken {
      CrashEffect(d.cfg, d.st, GiveUp(k, n, src));
      d.Do(Crash(GiveUp(k, n, src)));
      return LeftInFlight;
    }
    FailedEffect(d.cfg, d.st, k, n, src, w.failedStored);
    d.Do(PublishFailed(k, n, src, w.failedStored));
    label told:
    d.Interleave(Remove(k));
    d.Grown@told();
    if !w.droppable {
      CrashEffect(d.cfg, d.st, Remove(k));
      d.Do(Crash(Remove(k)));
      return LeftInFlight;
    }
    RemoveEffect(d.cfg, d.st, k);
    d.Do(DropRow(k));
    end := EndedAsFailed;
  }

  // ---- The Dispatcher ----

  lemma DispatchEffects(cfg: Config, s: State, k: Key, n: nat)
    requires Dispatch(k, n) in s.tasks
    ensures Enabled(cfg, s, PublishEnvelope(k, n)) && Enabled(cfg, s, FailToDispatch(k, n))
    ensures Next(cfg, s, PublishEnvelope(k, n)).sending == s.sending + [Build(cfg, k, n)]
    ensures RetryOrFail(cfg, k, n, Dispatching) in Next(cfg, s, FailToDispatch(k, n)).tasks
  {
  }

  /** dispatchOne: an Envelope goes out, or the Delivery goes through the retry
      chokepoint. */
  method DispatchOne(d: Deployment, k: Key, n: nat, w: Weather) returns (end: Ending)
    requires d.Valid() && Dispatch(k, n) in d.st.tasks
    modifies d
    ensures d.Valid() && old(d.trace) <= d.trace
    ensures end.Sent? <==> w.built && w.published
    ensures end.RowGone? || end.GoneMeanwhile? ==> d.cfg.policy.CanRetry(n) && k !in d.st.pool
    ensures end.Sent? ==> |d.st.sending| > 0 && d.st.sending[|d.st.sending| - 1] == Envelope(k, n, d.cfg.policy.CanRetry(n))
    ensures end.HandedBack? ==> d.cfg.policy.CanRetry(n) && k in d.st.pool && Rescheduling(d.cfg.policy, d.st.pool[k])
    ensures end.EndedAsFailed? ==>
      && !d.cfg.policy.CanRetry(n) && k !in d.st.pool
      && (Event(k, Failed(n, Dispatching)) in d.st.stats || k in d.st.history.lost)
    ensures end.LeftInFlight? ==> if d.cfg.policy.CanRetry(n) then !w.readable || !w.writable else !w.failedTaken || !w.droppable
  {
    hide Enabled, Next, IsRun, Exec;
    d.Interleave(Dispatch(k, n));
    DispatchEffects(d.cfg, d.st, k, n);
    if !w.built || !w.published {
      d.Do(FailToDispatch(k, n));
      end := RetryOrFailNow(d, k, n, Dispatching, w);
      return;
    }
    d.Do(PublishEnvelope(k, n));
    end := Sent;
  }

  /** How a consumer settles a message. */
  datatype Settlement = Ack | Nak | Term

  lemma ConsumeErrorEffect(cfg: Config, s: State, i: nat)
    requires i < |s.stats| && s.stats[i].outcome.Errored?
    ensures Enabled(cfg, s, ConsumeError(i))
    ensures var k := s.stats[i].key;
      k in s.pool ==> RetryOrFail(cfg, k, s.pool[k].attempts, Answered(s.stats[i].outcome.msg)) in Next(cfg, s, ConsumeError(i)).tasks
  {
  }

  /** A Delivery whose message was refused for now leaves the Pool ended or lost. */
  lemma ErroredLeavesForAReason(cfg: Config, now: int, run: seq<Action>, i: nat)
    requires IsRun(cfg, Init(now), run)
    requires var s := Exec(cfg, Init(now), run); i < |s.stats| && s.stats[i].outcome.Errored? && s.stats[i].key !in s.pool
    ensures var s := Exec(cfg, Init(now), run); Ended(s, s.stats[i].key) || s.stats[i].key in s.history.lost
  {
    hide IsRun, Exec;
    var s := Exec(cfg, Init(now), run);
    ReachableInv(cfg, now, run);
    assert OutcomeOK(cfg, s, s.stats[i].key, s.stats[i].outcome);
    assert EnvelopeOK(cfg, s, s.sending[s.stats[i].outcome.msg]);
    assert KeyOK(cfg, s, s.stats[i].key);
  }

  /** parseErrorsFunc under handleWithAck: the message is acknowledged only once the
      Delivery was handed back or has left the Pool for good, and given up on only when
      its row was gone before it was read. */
  method HandleError(d: Deployment, i: nat, w: Weather) returns (how: Settlement)
    requires d.Valid() && i < |d.st.stats|
    modifies d
    ensures d.Valid() && old(d.trace) <= d.trace
    ensures !w.decoded || !old(d.st.stats[i].outcome.Errored?) || !w.found ==> how.Nak? && d.trace == old(d.trace)
    ensures var k := old(d.st.stats[i].key);
      && (how.Term? ==> k !in d.st.pool)
      && (how.Ack? ==> (k in d.st.pool && Rescheduling(d.cfg.policy, d.st.pool[k])) || (k !in d.st.pool && (Ended(d.st, k) || k in d.st.history.lost)))
      && (how.Nak? && old(d.st.stats[i].outcome.Errored?) ==>
            !w.decoded || !w.found || !w.readable || !w.writable || !w.failedTaken || !w.droppable)
  {
    hide Enabled, Next, IsRun, Exec;
    var e := d.st.stats[i];
    if !w.decoded || !e.outcome.Errored? || !w.found {
      return Nak;
    }
    if e.key !in d.st.pool {
      return Term;
    }
    var n, src := d.st.pool[e.key].attempts, Answered(e.outcome.msg);
    ConsumeErrorEffect(d.cfg, d.st, i);
    label consumed:
    d.Do(ConsumeError(i));
    var end := RetryOrFailNow(d, e.key, n, src, w);
    if end.EndedAsFailed? && Event(e.key, Failed(n, src)) in d.st.stats {
      ghost var j :| 0 <= j < |d.st.stats| && d.st.stats[j] == Event(e.key, Failed(n, src));
      assert Ended(d.st, e.key);
    }
    if end.GoneMeanwhile? {
      d.Grown@consumed();
      ErroredLeavesForAReason(d.cfg, d.start, d.trace, i);
    }
    how := match end case LeftInFlight => Nak case RowGone => Term case _ => Ack;
  }

  lemma ConsumeEndEffect(cfg: Config, s: State, i: nat)
    requires i < |s.stats| && (s.stats[i].outcome.Delivered? || s.stats[i].outcome.Bounced?)
    ensures Enabled(cfg, s, ConsumeEnd(i))
    ensures s.stats[i].key in s.pool ==> Remove(s.stats[i].key) in Next(cfg, s, ConsumeEnd(i)).tasks
  {
  }

  /** parsDeliveredFunc and parsBouncedFunc: the row leaves the Pool. */
  method HandleEnd(d: Deployment, i: nat, w: Weather) returns (how: Settlement)
    requires d.Valid() && i < |d.st.stats| && (d.st.stats[i].outcome.Delivered? || d.st.stats[i].outcome.Bounced?)
    modifies d
    ensures d.Valid() && old(d.trace) <= d.trace
    ensures !w.decoded || !w.found ==> how.Nak? && d.trace == old(d.trace)
    ensures how.Nak? ==> !w.decoded || !w.found || !w.droppable
    ensures !how.Nak? ==> old(d.st.stats[i].key) !in d.st.pool
    ensures how.Term? <==> w.decoded && w.found && old(d.st.stats[i].key !in d.st.pool)
  {
    hide Enabled, Next, IsRun, Exec;
    if !w.decoded || !w.found {
      return Nak;
    }
    var k := d.st.stats[i].key;
    if k !in d.st.pool {
      return Term;
    }
    ConsumeEndEffect(d.cfg, d.st, i);
    d.Do(ConsumeEnd(i));
    d.Interleave(Remove(k));
    if !w.droppable {
      CrashEffect(d.cfg, d.st, Remove(k));
      d.Do(Crash(Remove(k)));
      return Nak;
    }
    RemoveEffect(d.cfg, d.st, k);
    d.Do(DropRow(k));
    how := Ack;
  }

  // ---- The Validator ----

  lemma VerdictEffects(cfg: Config, s: State, k: Key)
    requires Validate(k) in s.tasks
    ensures cfg.passes(k.email) ==>
      Enabled(cfg, s, MarkValidated(k)) && Announce(k, Accepted) in Next(cfg, s, MarkValidated(k)).tasks
    ensures !cfg.passes(k.email) ==>
      Enabled(cfg, s, RejectAndDrop(k)) && Announce(k, Rejected) in Next(cfg, s, RejectAndDrop(k)).tasks
  {
  }

  /** Who is being judged has been scheduled, and a row dropped does not come back. */
  lemma JudgedIsKnown(cfg: Config, now: int, run: seq<Action>, k: Key)
    requires IsRun(cfg, Init(now), run) && Validate(k) in Exec(cfg, Init(now), run).tasks
    ensures k in Exec(cfg, Init(now), run).ever
    ensures !cfg.passes(k.email) ==>
      Enabled(cfg, Exec(cfg, Init(now), run), RejectAndDrop(k))
      && k !in Next(cfg, Exec(cfg, Init(now), run), RejectAndDrop(k)).pool
      && k in Next(cfg, Exec(cfg, Init(now), run), RejectAndDrop(k)).ever
  {
    hide IsRun, Exec;
    ReachableInv(cfg, now, run);
    assert TaskOK(cfg, Exec(cfg, Init(now), run), Validate(k));
  }

  lemma Within(before: seq<Action>, a: Action, trace: seq<Action>, since: nat)
    requires since <= |before| && before + [a] <= trace
    ensures a in trace[since..]
  {
    assert trace[since..][|before| - since] == a;
  }

  lemma AnnounceEffect(cfg: Config, s: State, k: Key, v: Outcome)
    requires Announce(k, v) in s.tasks
    ensures Enabled(cfg, s, PublishVerdict(k, v))
    ensures Next(cfg, s, PublishVerdict(k, v)).stats == s.stats + [Event(k, v)]
  {
  }

  /** handleDelivery: the row moves or leaves first, the verdict is published after;
      when that fails the verdict is dropped with the Task, and a refused Delivery is
      gone untold. */
  method HandleDelivery(d: Deployment, k: Key, w: Weather) returns (told: bool)
    requires d.Valid() && Validate(k) in d.st.tasks
    modifies d
    ensures d.Valid() && old(d.trace) <= d.trace
    ensures told <==> w.writable && w.published
    ensures told ==> |d.st.stats| > 0 && d.st.stats[|d.st.stats| - 1] == Event(k, if d.cfg.passes(k.email) then Accepted else Rejected)
    ensures w.writable ==> (if d.cfg.passes(k.email) then MarkValidated(k) else RejectAndDrop(k)) in d.trace[|old(d.trace)|..]
    ensures w.writable && !d.cfg.passes(k.email) ==> k !in d.st.pool
    ensures w.writable && !w.published ==> Crash(Announce(k, if d.cfg.passes(k.email) then Accepted else Rejected)) in d.trace[|old(d.trace)|..]
  {
    hide Enabled, Next, IsRun, Exec;
    d.Interleave(Validate(k));
    if !w.writable {
      CrashEffect(d.cfg, d.st, Validate(k));
      d.Do(Crash(Validate(k)));
      return false;
    }
    var passes := d.cfg.passes(k.email);
    VerdictEffects(d.cfg, d.st, k);
    JudgedIsKnown(d.cfg, d.start, d.trace, k);
    ghost var before, since := d.trace, |old(d.trace)|;
    d.Do(if passes then MarkValidated(k) else RejectAndDrop(k));
    label judged:
    var verdict := if passes then Accepted else Rejected;
    d.Interleave(Announce(k, verdict));
    d.Grown@judged();
    Within(before, old@judged(d.trace)[|before|], d.trace, since);
    if !w.published {
      CrashEffect(d.cfg, d.st, Announce(k, verdict));
      Within(d.trace, Crash(Announce(k, verdict)), d.trace + [Crash(Announce(k, verdict))], since);
      label lost:
      d.Do(Crash(Announce(k, verdict)));
      d.Grown@lost();
      return false;
    }
    AnnounceEffect(d.cfg, d.st, k, verdict);
    label telling:
    d.Do(PublishVerdict(k, verdict));
    d.Grown@telling();
    told := true;
  }

  // ---- The SMTPSender ----

  lemma DeliverEffect(cfg: Config, s: State, m: nat, bucket: SendGuard.Bucket)
    requires m < |s.sending|
    ensures Enabled(cfg, s, Deliver(m, bucket))
    ensures var s' := Next(cfg, s, Deliver(m, bucket));
      && s'.sending == s.sending
      && (bucket.Unreachable? || GuardKey(cfg, s.sending, m) !in s.guard ==> Transmit(m) in s'.tasks)
      && (bucket.Reached? ==> GuardKey(cfg, s'.sending, m) in s'.guard)
      && s'.history.transactions == s.history.transactions
  {
    hide GuardKey, Apply;
    NothingSent(s, EffectOf(cfg, s, Deliver(m, bucket)));
  }

  /** An effect that sends nothing: what is begun is held, and what is claimed is in
      the bucket. */
  lemma NothingSent(s: State, e: Effect)
    requires e.sent.None? && !e.note.Transaction?
    ensures Apply(s, e).sending == s.sending && Apply(s, e).history.transactions == s.history.transactions
    ensures e.begun.Some? ==> e.begun.value in Apply(s, e).tasks
    ensures forall name :: name in Apply(s, e).guard <==> e.guard == Added(name) || (name in s.guard && e.guard != Forgotten(name))
  {
    assert s.sending + Appended<Envelope>(None) == s.sending;
  }

  lemma TransactEffect(cfg: Config, s: State, m: nat, reply: Reply)
    requires m < |s.sending| && Transmit(m) in s.tasks
    ensures Enabled(cfg, s, Transact(m, reply))
    ensures var s' := Next(cfg, s, Transact(m, reply));
      && s'.sending == s.sending
      && Report(m, OutcomeOf(s.sending[m], m, reply)) in s'.tasks
      && s'.history.transactions == s.history.transactions + multiset{m}
  {
    assert s.sending + Appended<Envelope>(None) == s.sending;
  }

  lemma ReportEffect(cfg: Config, s: State, m: nat, o: Outcome)
    requires m < |s.sending| && Report(m, o) in s.tasks
    ensures Enabled(cfg, s, PublishReport(m, o))
    ensures Next(cfg, s, PublishReport(m, o)).stats == s.stats + [Event(s.sending[m].key, o)]
  {
  }

  /** What an SMTP reply comes to: delivered when the message was taken; bounced when it
      was refused for good, or with no retry left; an error otherwise. */
  predicate Reports(env: Envelope, m: nat, reply: Reply, o: Outcome) {
    && (reply.Taken? ==> o == Delivered(m))
    && (reply.RefusedForGood? ==> o == Bounced(Some(m)))
    && (reply.RefusedForNow? ==> o == if env.shouldRetry then Errored(m) else Bounced(Some(m)))
  }

  lemma RepliesAreReported(env: Envelope, m: nat, reply: Reply)
    ensures Reports(env, m, reply, OutcomeOf(env, m, reply))
  {
  }

  /** The send itself, and handleSendSuccess or handleSendError after it: the reply is in
      the stats history before the message is settled, unless the email ID does not
      parse. Then the message is settled and nobody is told. */
  method SendAndReport(d: Deployment, m: nat, reply: Reply, w: Weather) returns (how: Settlement)
    requires d.Valid() && m < |d.st.sending| && Transmit(m) in d.st.tasks
    modifies d
    ensures d.Valid() && old(d.trace) <= d.trace
    ensures how == if w.identified && !w.published then Nak else Ack
    ensures Transact(m, reply) in d.trace[|old(d.trace)|..]
    ensures !w.identified ==>
      && m < |d.st.sending| && d.trace[|d.trace| - 1].Crash? && d.trace[|d.trace| - 1].task.Report?
      && Reports(d.st.sending[m], m, reply, d.trace[|d.trace| - 1].task.outcome)
    ensures w.identified && w.published ==>
      && m < |d.st.sending| && |d.st.stats| > 0
      && d.st.stats[|d.st.stats| - 1].key == d.st.sending[m].key
      && Reports(d.st.sending[m], m, reply, d.st.stats[|d.st.stats| - 1].outcome)
  {
    hide Enabled, Next, IsRun, Exec, OutcomeOf, Reports;
    label claimed:
    d.Interleave(Transmit(m));
    d.SendingGrown@claimed();
    TransactEffect(d.cfg, d.st, m, reply);
    var outcome := OutcomeOf(d.st.sending[m], m, reply);
    RepliesAreReported(d.st.sending[m], m, reply);
    ghost var before, since, sends := d.trace, |old(d.trace)|, Transact(m, reply);
    d.Do(Transact(m, reply));
    label answered:
    d.Interleave(Report(m, outcome));
    d.SendingGrown@answered();
    assert before + [sends] <= d.trace;
    label told:
    if w.identified && w.published {
      ReportEffect(d.cfg, d.st, m, outcome);
      d.Do(PublishReport(m, outcome));
    } else {
      CrashEffect(d.cfg, d.st, Report(m, outcome));
      d.Do(Crash(Report(m, outcome)));
    }
    d.SendingGrown@told();
    Within(before, sends, d.trace, since);
    how := if w.identified && !w.published then Nak else Ack;
  }

  /** handleMessage: decode, claim, send, report. Without the claim the message is
      settled and nothing is sent. */
  method HandleMessage(d: Deployment, m: nat, bucket: SendGuard.Bucket, reply: Reply, w: Weather) returns (how: Settlement, sent: bool)
    requires d.Valid() && m < |d.st.sending|
    modifies d
    ensures d.Valid() && old(d.trace) <= d.trace
    ensures sent <==> w.decoded && (bucket.Unreachable? || old(GuardKey(d.cfg, d.st.sending, m) !in d.st.guard))
    ensures !w.decoded ==> d.trace == old(d.trace)
    ensures sent <==> Transact(m, reply) in d.trace[|old(d.trace)|..]
    ensures how.Nak? <==> !w.decoded || (sent && w.identified && !w.published)
    ensures !how.Term?
    ensures sent && !w.identified ==>
      && m < |d.st.sending| && d.trace[|d.trace| - 1].Crash? && d.trace[|d.trace| - 1].task.Report?
      && Reports(d.st.sending[m], m, reply, d.trace[|d.trace| - 1].task.outcome)
    ensures sent && how.Ack? && w.identified ==>
      && m < |d.st.sending| && |d.st.stats| > 0
      && d.st.stats[|d.st.stats| - 1].key == d.st.sending[m].key
      && Reports(d.st.sending[m], m, reply, d.st.stats[|d.st.stats| - 1].outcome)
  {
    hide Enabled, Next, IsRun, Exec, Reports;
    if !w.decoded {
      assert d.trace[|old(d.trace)|..] == [];
      return Nak, false;
    }
    DeliverEffect(d.cfg, d.st, m, bucket);
    sent := bucket.Unreachable? || GuardKey(d.cfg, d.st.sending, m) !in d.st.guard;
    d.Do(Deliver(m, bucket));
    if !sent {
      assert d.trace[|old(d.trace)|..] == [Deliver(m, bucket)];
      return Ack, false;
    }
    ghost var claimed := |d.trace|;
    how := SendAndReport(d, m, reply, w);
    assert d.trace[claimed..] == d.trace[|old(d.trace)|..][1..];
  }
}
