/** The Delivery protocol: every worker of a Kannon deployment as a state machine
    over the Pool, the sending stream, the stats stream and the send guard. A
    worker's progress between two effects is a Task; a crash loses the Task, and
    any Task may run at any moment, so a run is an arbitrary interleaving. */
module Protocol {
  import opened Prelude
  import opened Pool
  import Retry
  import SendGuard

  /** What the deployment fixes: the retry policy, the address check, and the
      digest that the guard folds into a key. */
  datatype Config = Config(policy: Retry.Policy, passes: string -> bool, digest: Key -> string)

  /** A message on the sending stream. builtAt is the attempt tally of the
      Delivery it was built from. */
  datatype Envelope = Envelope(key: Key, builtAt: nat, shouldRetry: bool)

  /** Why a Delivery is being handed back: its dispatch failed, or the message
      of that index was answered with a transient error. */
  datatype Source = Dispatching | Answered(msg: nat)

  datatype Outcome =
    | Accepted
    | Rejected
    | Delivered(msg: nat)
    | Bounced(origin: Option<nat>)
    | Errored(msg: nat)
    | Failed(attempts: nat, source: Source)
  {
    /** The outcomes after which a Delivery may leave the Pool. */
    predicate Ends() {
      Delivered? || Bounced? || Failed?
    }
  }

  datatype Event = Event(key: Key, outcome: Outcome)

  datatype Reply = Taken | RefusedForGood | RefusedForNow

  /** What a worker still means to do. */
  datatype Task =
    | Validate(key: Key)
    | Announce(key: Key, verdict: Outcome)
    | Dispatch(key: Key, attempts: nat)
    | Transmit(msg: nat)
    | Report(msg: nat, outcome: Outcome)
    | Reread(key: Key, attempts: nat, source: Source)
    | Rewrite(key: Key, attempts: nat, at: int, source: Source)
    | GiveUp(key: Key, attempts: nat, source: Source)
    | Remove(key: Key)

  /** What happened so far, for stating properties of runs; no step reads it. */
  datatype History = History(
    claims: multiset<Key>,        // dispatch claims
    lastClaim: map<Key, int>,     // instant of the latest claim of either kind
    timely: multiset<Key>,        // reschedules of a row as its verdict saw it
    stale: multiset<Key>,         // reschedules of a row that had moved on
    reclaims: multiset<Key>,      // dispatch reclaims
    lost: set<Key>,               // Failed stats that NATS took and never stored
    won: multiset<nat>,           // guard claims won, per message
    faults: multiset<nat>,        // guard errors, per message
    expired: multiset<nat>,       // guard claims forgotten, per message
    transactions: multiset<nat>)  // SMTP transactions, per message

  datatype State = State(
    now: int,
    pool: map<Key, Row>,
    ever: set<Key>,               // every Delivery ever scheduled
    sending: seq<Envelope>,
    stats: seq<Event>,
    guard: set<string>,
    tasks: multiset<Task>,
    history: History)

  function Init(now: int): State {
    State(now, map[], {}, [], [], {}, multiset{},
          History(multiset{}, map[], multiset{}, multiset{}, multiset{}, {}, multiset{}, multiset{}, multiset{}, multiset{}))
  }

  datatype Action =
    | Tick(now: int)
    | Schedule(key: Key, at: int)
    | ClaimForValidation(key: Key)
    | MarkValidated(key: Key)
    | RejectAndDrop(key: Key)
    | PublishVerdict(key: Key, verdict: Outcome)
    | ClaimForDispatch(key: Key)
    | PublishEnvelope(key: Key, attempts: nat)
    | FailToDispatch(key: Key, attempts: nat)
    | Deliver(msg: nat, bucket: SendGuard.Bucket)
    | Transact(msg: nat, reply: Reply)
    | PublishReport(msg: nat, outcome: Outcome)
    | ConsumeError(index: nat)
    | ConsumeEnd(index: nat)
    | ReadForReschedule(key: Key, attempts: nat, source: Source)
    | WriteReschedule(key: Key, attempts: nat, at: int, source: Source)
    | PublishFailed(key: Key, attempts: nat, source: Source, stored: bool)
    | DropRow(key: Key)
    | BounceArrives(key: Key)
    | Reclaim(kind: InFlight, key: Key)
    | ExpireGuard(msg: nat)
    | Crash(task: Task)

  const DISPATCH_STRAND: int := 1 * Retry.HOUR
  const VALIDATION_STRAND: int := 5 * Retry.MINUTE

  function StrandThreshold(f: InFlight): int {
    if f.ForDispatch? then DISPATCH_STRAND else VALIDATION_STRAND
  }

  /** Stream sequences start at 1. */
  function GuardKey(cfg: Config, sending: seq<Envelope>, msg: nat): string
    requires msg < |sending|
  {
    SendGuard.SendKey(msg + 1, cfg.digest(sending[msg].key))
  }

  /** An Envelope carries the verdict on the tally it was built at. */
  function Build(cfg: Config, key: Key, attempts: nat): Envelope {
    Envelope(key, attempts, cfg.policy.CanRetry(attempts))
  }

  /** The sender's reading of an SMTP reply. */
  function OutcomeOf(env: Envelope, msg: nat, reply: Reply): Outcome {
    if reply.Taken? then Delivered(msg)
    else if !env.shouldRetry || reply.RefusedForGood? then Bounced(Some(msg))
    else Errored(msg)
  }

  /** retryOrFail: one predicate on the Delivery in hand decides. */
  function RetryOrFail(cfg: Config, key: Key, attempts: nat, source: Source): Task {
    if cfg.policy.CanRetry(attempts) then Reread(key, attempts, source) else GiveUp(key, attempts, source)
  }

  predicate Enabled(cfg: Config, s: State, a: Action) {
    match a
    case Tick(now) => s.now <= now
    case Schedule(k, _) => k !in s.ever
    case ClaimForValidation(k) => k in s.pool && s.pool[k].status.ToValidate?
    case MarkValidated(k) => Validate(k) in s.tasks && cfg.passes(k.email)
    case RejectAndDrop(k) => Validate(k) in s.tasks && !cfg.passes(k.email)
    case PublishVerdict(k, v) => Announce(k, v) in s.tasks
    case ClaimForDispatch(k) => k in s.pool && Due(s.pool[k], s.now)
    case PublishEnvelope(k, n) => Dispatch(k, n) in s.tasks
    case FailToDispatch(k, n) => Dispatch(k, n) in s.tasks
    case Deliver(msg, _) => msg < |s.sending|
    case Transact(msg, _) => Transmit(msg) in s.tasks && msg < |s.sending|
    case PublishReport(msg, o) => Report(msg, o) in s.tasks && msg < |s.sending|
    case ConsumeError(i) => i < |s.stats| && s.stats[i].outcome.Errored?
    case ConsumeEnd(i) => i < |s.stats| && (s.stats[i].outcome.Delivered? || s.stats[i].outcome.Bounced?)
    case ReadForReschedule(k, n, src) => Reread(k, n, src) in s.tasks
    case WriteReschedule(k, n, at, src) => Rewrite(k, n, at, src) in s.tasks
    case PublishFailed(k, n, src, _) => GiveUp(k, n, src) in s.tasks
    case DropRow(k) => Remove(k) in s.tasks
    case BounceArrives(_) => true
    case Reclaim(f, k) => !f.Unknown? && k in s.pool && Stranded(s.pool[k], ReclaimTarget(f).value, s.now - StrandThreshold(f))
    case ExpireGuard(msg) => msg < |s.sending| && GuardKey(cfg, s.sending, msg) in s.guard
    case Crash(t) => t in s.tasks
  }

  datatype RowChange = Untouched | Put(key: Key, row: Row) | Deleted(key: Key)

  datatype GuardChange = Kept | Added(name: string) | Forgotten(name: string)

  /** What a step adds to the history. */
  datatype Note =
    | Quiet
    | ValidationClaim(key: Key)
    | DispatchClaim(key: Key)
    | TimelyReschedule(key: Key)
    | StaleReschedule(key: Key)
    | DispatchReclaim(key: Key)
    | LostStat(key: Key)
    | GuardWon(msg: nat)
    | GuardFault(msg: nat)
    | GuardExpired(msg: nat)
    | Transaction(msg: nat)

  /** Everything one action does: which Task it completes and which it leaves,
      the row it writes, and what it appends to the streams. */
  datatype Effect = Effect(
    clock: Option<int>,
    finished: Option<Task>,
    begun: Option<Task>,
    row: RowChange,
    sent: Option<Envelope>,
    published: Option<Event>,
    guard: GuardChange,
    note: Note)

  const NOTHING := Effect(None, None, None, Untouched, None, None, Kept, Quiet)

  /** An UPDATE by key writes the row if there is one. */
  function OnKey(pool: map<Key, Row>, k: Key, u: Row -> Row): RowChange {
    if k in pool then Put(k, u(pool[k])) else Untouched
  }

  function EffectOf(cfg: Config, s: State, a: Action): Effect
    requires Enabled(cfg, s, a)
  {
    match a
    case Tick(now) =>
      NOTHING.(clock := Some(now))
    case Schedule(k, at) =>
      NOTHING.(row := Put(k, NewRow(at)))
    case ClaimForValidation(k) =>
      NOTHING.(begun := Some(Validate(k)), row := Put(k, ClaimedForValidation(s.pool[k], s.now)), note := ValidationClaim(k))
    case MarkValidated(k) =>
      NOTHING.(finished := Some(Validate(k)), begun := Some(Announce(k, Accepted)), row := OnKey(s.pool, k, MarkedScheduled))
    case RejectAndDrop(k) =>
      NOTHING.(finished := Some(Validate(k)), begun := Some(Announce(k, Rejected)), row := Deleted(k))
    case PublishVerdict(k, v) =>
      NOTHING.(finished := Some(Announce(k, v)), published := Some(Event(k, v)))
    case ClaimForDispatch(k) =>
      NOTHING.(begun := Some(Dispatch(k, s.pool[k].attempts)), row := Put(k, ClaimedForDispatch(s.pool[k], s.now)), note := DispatchClaim(k))
    case PublishEnvelope(k, n) =>
      NOTHING.(finished := Some(Dispatch(k, n)), sent := Some(Build(cfg, k, n)))
    case FailToDispatch(k, n) =>
      NOTHING.(finished := Some(Dispatch(k, n)), begun := Some(RetryOrFail(cfg, k, n, Dispatching)))
    case Deliver(msg, bucket) =>
      var name := GuardKey(cfg, s.sending, msg);
      if bucket.Unreachable? then
        NOTHING.(begun := Some(Transmit(msg)), guard := if bucket.stored then Added(name) else Kept, note := GuardFault(msg))
      else if name in s.guard then
        NOTHING
      else
        NOTHING.(begun := Some(Transmit(msg)), guard := Added(name), note := GuardWon(msg))
    case Transact(msg, reply) =>
      NOTHING.(finished := Some(Transmit(msg)), begun := Some(Report(msg, OutcomeOf(s.sending[msg], msg, reply))), note := Transaction(msg))
    case PublishReport(msg, o) =>
      NOTHING.(finished := Some(Report(msg, o)), published := Some(Event(s.sending[msg].key, o)))
    case ConsumeError(i) =>
      var e := s.stats[i];
      if e.key !in s.pool then NOTHING
      else NOTHING.(begun := Some(RetryOrFail(cfg, e.key, s.pool[e.key].attempts, Answered(e.outcome.msg))))
    case ConsumeEnd(i) =>
      if s.stats[i].key !in s.pool then NOTHING else NOTHING.(begun := Some(Remove(s.stats[i].key)))
    case ReadForReschedule(k, n, src) =>
      if k !in s.pool then NOTHING.(finished := Some(Reread(k, n, src)))
      else
        var at := cfg.policy.NextRetryAt(s.pool[k].originalAt, s.pool[k].attempts);
        NOTHING.(finished := Some(Reread(k, n, src)), begun := Some(Rewrite(k, n, at, src)))
    case WriteReschedule(k, n, at, src) =>
      if k !in s.pool then NOTHING.(finished := Some(Rewrite(k, n, at, src)))
      else NOTHING.(finished := Some(Rewrite(k, n, at, src)), row := Put(k, Rescheduled(s.pool[k], at)),
                    note := if s.pool[k].attempts == n then TimelyReschedule(k) else StaleReschedule(k))
    case PublishFailed(k, n, src, stored) =>
      var dropping := NOTHING.(finished := Some(GiveUp(k, n, src)), begun := Some(Remove(k)));
      if stored then dropping.(published := Some(Event(k, Failed(n, src)))) else dropping.(note := LostStat(k))
    case DropRow(k) =>
      NOTHING.(finished := Some(Remove(k)), row := Deleted(k))
    case BounceArrives(k) =>
      NOTHING.(published := Some(Event(k, Bounced(None))))
    case Reclaim(f, k) =>
      NOTHING.(row := Put(k, Reclaimed(s.pool[k], ReclaimTarget(f).value)), note := if f.ForDispatch? then DispatchReclaim(k) else Quiet)
    case ExpireGuard(msg) =>
      NOTHING.(guard := Forgotten(GuardKey(cfg, s.sending, msg)), note := GuardExpired(msg))
    case Crash(t) =>
      NOTHING.(finished := Some(t))
  }

  function Recorded(h: History, note: Note, now: int): History {
    match note
    case Quiet => h
    case ValidationClaim(k) => h.(lastClaim := h.lastClaim[k := now])
    case DispatchClaim(k) => h.(claims := h.claims + multiset{k}, lastClaim := h.lastClaim[k := now])
    case TimelyReschedule(k) => h.(timely := h.timely + multiset{k})
    case StaleReschedule(k) => h.(stale := h.stale + multiset{k})
    case DispatchReclaim(k) => h.(reclaims := h.reclaims + multiset{k})
    case LostStat(k) => h.(lost := h.lost + {k})
    case GuardWon(m) => h.(won := h.won + multiset{m})
    case GuardFault(m) => h.(faults := h.faults + multiset{m})
    case GuardExpired(m) => h.(expired := h.expired + multiset{m})
    case Transaction(m) => h.(transactions := h.transactions + multiset{m})
  }

  function One<T(==)>(o: Option<T>): multiset<T> {
    if o.Some? then multiset{o.value} else multiset{}
  }

  function Appended<T>(o: Option<T>): seq<T> {
    if o.Some? then [o.value] else []
  }

  function Apply(s: State, e: Effect): State {
    State(
      if e.clock.Some? then e.clock.value else s.now,
      match e.row case Untouched => s.pool case Put(k, r) => s.pool[k := r] case Deleted(k) => s.pool - {k},
      if e.row.Put? then s.ever + {e.row.key} else s.ever,
      s.sending + Appended(e.sent),
      s.stats + Appended(e.published),
      match e.guard case Kept => s.guard case Added(g) => s.guard + {g} case Forgotten(g) => s.guard - {g},
      s.tasks - One(e.finished) + One(e.begun),
      Recorded(s.history, e.note, s.now))
  }

  function Next(cfg: Config, s: State, a: Action): State
    requires Enabled(cfg, s, a)
  {
    Apply(s, EffectOf(cfg, s, a))
  }

  /** Every action of the run is possible when its turn comes. */
  predicate IsRun(cfg: Config, s: State, run: seq<Action>)
    decreases |run|
  {
    |run| == 0 || (Enabled(cfg, s, run[0]) && IsRun(cfg, Next(cfg, s, run[0]), run[1..]))
  }

  function Exec(cfg: Config, s: State, run: seq<Action>): State
    requires IsRun(cfg, s, run)
    decreases |run|
  {
    if |run| == 0 then s else Exec(cfg, Next(cfg, s, run[0]), run[1..])
  }

  lemma {:induction false} ExecConcat(cfg: Config, s: State, a: seq<Action>, b: seq<Action>)
    requires IsRun(cfg, s, a) && IsRun(cfg, Exec(cfg, s, a), b)
    ensures IsRun(cfg, s, a + b) && Exec(cfg, s, a + b) == Exec(cfg, Exec(cfg, s, a), b)
    decreases |a|
  {
    hide Enabled, EffectOf, Apply;
    if |a| == 0 {
      assert a + b == b;
    } else {
      var s1, ab := Next(cfg, s, a[0]), a + b;
      ExecConcat(cfg, s1, a[1..], b);
      assert ab[0] == a[0] && ab[1..] == a[1..] + b;
      assert IsRun(cfg, s1, ab[1..]);
    }
  }

  /** A run may be cut anywhere. */
  lemma {:induction false} RunSplit(cfg: Config, s: State, run: seq<Action>, j: nat)
    requires IsRun(cfg, s, run) && j <= |run|
    ensures IsRun(cfg, s, run[..j]) && IsRun(cfg, Exec(cfg, s, run[..j]), run[j..])
    ensures Exec(cfg, s, run) == Exec(cfg, Exec(cfg, s, run[..j]), run[j..])
    decreases j
  {
    hide Enabled, Next;
    if j == 0 {
      assert run[..0] == [] && run[0..] == run;
    } else {
      RunSplit(cfg, Next(cfg, s, run[0]), run[1..], j - 1);
      assert run[..j][0] == run[0] && run[..j][1..] == run[1..][..j - 1] && run[j..] == run[1..][j - 1..];
    }
  }

  /** One more step at the end of a run. */
  lemma ExecSnoc(cfg: Config, s: State, run: seq<Action>, a: Action)
    requires IsRun(cfg, s, run) && Enabled(cfg, Exec(cfg, s, run), a)
    ensures IsRun(cfg, s, run + [a]) && Exec(cfg, s, run + [a]) == Next(cfg, Exec(cfg, s, run), a)
  {
    hide Enabled, Next;
    var end := Exec(cfg, s, run);
    assert [a][1..] == [];
    assert IsRun(cfg, Next(cfg, end, a), [a][1..]);
    ExecConcat(cfg, s, run, [a]);
  }
}
