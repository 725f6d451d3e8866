/** What every step of the Delivery protocol keeps. */
module Invariants {
  import opened Prelude
  import opened Pool
  import opened Protocol

  /** Claimed for dispatch at least once. */
  predicate Dispatched(s: State, k: Key) {
    s.history.claims[k] > 0
  }

  predicate Ended(s: State, k: Key) {
    exists i :: 0 <= i < |s.stats| && s.stats[i].key == k && s.stats[i].outcome.Ends()
  }

  /** An answered message that led here: it was built for k, when its Delivery
      could still be retried, from a tally no later than n. */
  predicate SourceOK(cfg: Config, s: State, k: Key, n: nat, src: Source) {
    src.Answered? ==>
      && src.msg < |s.sending|
      && s.sending[src.msg].key == k
      && s.sending[src.msg].builtAt <= n
      && cfg.policy.CanRetry(s.sending[src.msg].builtAt)
  }

  /** An outcome naming a message names one built for k. */
  predicate OutcomeOK(cfg: Config, s: State, k: Key, o: Outcome) {
    match o
    case Accepted => k in s.ever
    case Rejected => k in s.ever && !cfg.passes(k.email)
    case Delivered(m) => m < |s.sending| && s.sending[m].key == k
    case Bounced(Some(m)) => m < |s.sending| && s.sending[m].key == k
    case Bounced(None) => true
    case Errored(m) => m < |s.sending| && s.sending[m].key == k && s.sending[m].shouldRetry
    case Failed(n, src) => Dispatched(s, k) && !cfg.policy.CanRetry(n) && SourceOK(cfg, s, k, n, src)
  }

  /** n was read off k's row at some time. */
  predicate TallyOK(s: State, k: Key, n: nat) {
    && Dispatched(s, k)
    && (k in s.pool ==> n <= s.pool[k].attempts)
  }

  predicate TaskOK(cfg: Config, s: State, t: Task) {
    match t
    case Validate(k) => k in s.ever
    case Announce(k, v) => !v.Ends() && !v.Errored? && OutcomeOK(cfg, s, k, v)
    case Dispatch(k, n) => TallyOK(s, k, n)
    case Transmit(m) => m < |s.sending|
    case Report(m, o) => m < |s.sending| && OutcomeOK(cfg, s, s.sending[m].key, o) && !o.Failed?
    case Reread(k, n, src) => TallyOK(s, k, n) && cfg.policy.CanRetry(n) && SourceOK(cfg, s, k, n, src)
    case Rewrite(k, n, _, src) => TallyOK(s, k, n) && cfg.policy.CanRetry(n) && SourceOK(cfg, s, k, n, src)
    case GiveUp(k, n, src) => TallyOK(s, k, n) && !cfg.policy.CanRetry(n) && SourceOK(cfg, s, k, n, src)
    case Remove(k) => Ended(s, k) || k in s.history.lost
  }

  predicate EnvelopeOK(cfg: Config, s: State, e: Envelope) {
    TallyOK(s, e.key, e.builtAt) && e.shouldRetry == cfg.policy.CanRetry(e.builtAt)
  }

  /** The history of one key. */
  datatype Ledger = Ledger(claims: nat, timely: nat, stale: nat, reclaims: nat, lastClaim: Option<int>) {
    function Tally(): nat {
      timely + stale + reclaims
    }
  }

  function LedgerOf(h: History, k: Key): Ledger {
    Ledger(h.claims[k], h.timely[k], h.stale[k], h.reclaims[k], if k in h.lastClaim then Some(h.lastClaim[k]) else None)
  }

  /** The notes that bear on one key's claims and tally. */
  predicate CountsKey(n: Note) {
    n.ValidationClaim? || n.DispatchClaim? || n.TimelyReschedule? || n.StaleReschedule? || n.DispatchReclaim?
  }

  function Noted(l: Ledger, note: Note, k: Key, now: int): Ledger {
    if !CountsKey(note) || note.key != k then l
    else match note
      case ValidationClaim(_) => l.(lastClaim := Some(now))
      case DispatchClaim(_) => l.(claims := l.claims + 1, lastClaim := Some(now))
      case TimelyReschedule(_) => l.(timely := l.timely + 1)
      case StaleReschedule(_) => l.(stale := l.stale + 1)
      case DispatchReclaim(_) => l.(reclaims := l.reclaims + 1)
  }

  lemma LedgerRecorded(h: History, note: Note, now: int, k: Key)
    ensures LedgerOf(Recorded(h, note, now), k) == Noted(LedgerOf(h, k), note, k, now)
  {
  }

  /** A row agrees with the history of its key: nothing is dispatched before the
      verdict and nothing past it failed the check; every attempt is one reschedule
      or one reclaim; a claim in force carries its own instant. */
  predicate RowFits(cfg: Config, k: Key, r: Row, l: Ledger) {
    && (r.AwaitsVerdict() ==> l.claims == 0)
    && (r.status.Sending? ==> l.claims > 0)
    && (!r.AwaitsVerdict() ==> cfg.passes(k.email))
    && r.attempts == l.Tally()
    && (r.InFlight() ==> r.claimedAt == l.lastClaim && l.lastClaim.Some?)
  }

  predicate KeyFits(cfg: Config, k: Key, l: Ledger) {
    && (l.claims > 0 ==> cfg.passes(k.email))
    && (l.Tally() > 0 ==> l.claims > 0)
  }

  predicate RowOK(cfg: Config, s: State, k: Key)
    requires k in s.pool
  {
    k in s.ever && RowFits(cfg, k, s.pool[k], LedgerOf(s.history, k))
  }

  predicate KeyOK(cfg: Config, s: State, k: Key) {
    && KeyFits(cfg, k, LedgerOf(s.history, k))
    && (Dispatched(s, k) ==> k in s.ever)
    && (k in s.ever ==> k in s.pool || Ended(s, k) || k in s.history.lost || !cfg.passes(k.email))
  }

  ghost predicate Inv(cfg: Config, s: State) {
    && (forall t :: t in s.tasks ==> TaskOK(cfg, s, t))
    && (forall i :: 0 <= i < |s.sending| ==> EnvelopeOK(cfg, s, s.sending[i]))
    && (forall i :: 0 <= i < |s.stats| ==> OutcomeOK(cfg, s, s.stats[i].key, s.stats[i].outcome))
    && (forall k :: k in s.pool ==> RowOK(cfg, s, k))
    && (forall k :: KeyOK(cfg, s, k))
  }

  /** A row only ever gains attempts, and its original time is fixed. */
  predicate Later(r: Row, r': Row) {
    r.attempts <= r'.attempts && r.originalAt == r'.originalAt
  }

  /** How one state may follow another: the streams and the history only grow, and
      a row that stays keeps or raises its tally. A key never comes back. */
  ghost predicate Grows(s: State, s': State) {
    && s.ever <= s'.ever
    && s.sending <= s'.sending
    && s.stats <= s'.stats
    && s.history.claims <= s'.history.claims
    && s.history.lost <= s'.history.lost
    && (forall k :: k in s'.pool && k in s.ever ==> k in s.pool && Later(s.pool[k], s'.pool[k]))
  }

  /** The key whose row, claims and tallies an effect touches. */
  predicate Concerns(e: Effect, k: Key) {
    || (e.row.Put? && e.row.key == k)
    || (e.row.Deleted? && e.row.key == k)
  }

  /** A row is only written over itself, never with a smaller tally, and only its
      own counters move with it. */
  predicate WritesInPlace(s: State, e: Effect) {
    && (e.row.Put? && e.row.key in s.ever ==> e.row.key in s.pool && Later(s.pool[e.row.key], e.row.row))
    && (CountsKey(e.note) ==> e.row.Put? && e.row.key == e.note.key)
  }

  lemma EffectsWriteInPlace(cfg: Config, s: State, a: Action)
    requires Enabled(cfg, s, a)
    ensures WritesInPlace(s, EffectOf(cfg, s, a))
  {
  }

  lemma HistoryGrows(h: History, note: Note, now: int)
    ensures h.claims <= Recorded(h, note, now).claims && h.lost <= Recorded(h, note, now).lost
  {
  }

  lemma StreamGrows<T>(stream: seq<T>, more: Option<T>)
    ensures stream <= stream + Appended(more)
  {
  }

  lemma EffectGrows(s: State, e: Effect)
    requires WritesInPlace(s, e)
    ensures Grows(s, Apply(s, e))
  {
    hide Recorded, Appended, One;
    HistoryGrows(s.history, e.note, s.now);
    StreamGrows(s.sending, e.sent);
    StreamGrows(s.stats, e.published);
  }

  lemma NextGrows(cfg: Config, s: State, a: Action)
    requires Enabled(cfg, s, a)
    ensures Grows(s, Next(cfg, s, a))
  {
    hide EffectOf, Apply, Grows, WritesInPlace;
    EffectsWriteInPlace(cfg, s, a);
    EffectGrows(s, EffectOf(cfg, s, a));
  }

  lemma EndedStays(s: State, s': State, k: Key)
    requires s.stats <= s'.stats && Ended(s, k)
    ensures Ended(s', k)
  {
    var i :| 0 <= i < |s.stats| && s.stats[i].key == k && s.stats[i].outcome.Ends();
    assert s'.stats[i] == s.stats[i];
  }

  lemma OutcomeStays(cfg: Config, s: State, s': State, k: Key, o: Outcome)
    requires Grows(s, s') && OutcomeOK(cfg, s, k, o)
    ensures OutcomeOK(cfg, s', k, o)
  {
  }

  lemma TallyStays(cfg: Config, s: State, s': State, k: Key, n: nat)
    requires Inv(cfg, s) && Grows(s, s') && TallyOK(s, k, n)
    ensures TallyOK(s', k, n)
  {
    assert KeyOK(cfg, s, k);
  }

  lemma TaskStays(cfg: Config, s: State, s': State, t: Task)
    requires Inv(cfg, s) && Grows(s, s') && TaskOK(cfg, s, t)
    ensures TaskOK(cfg, s', t)
  {
    match t
    case Remove(k) =>
      if Ended(s, k) {
        EndedStays(s, s', k);
      }
    case Announce(k, v) => OutcomeStays(cfg, s, s', k, v);
    case Report(m, o) => OutcomeStays(cfg, s, s', s.sending[m].key, o);
    case Dispatch(k, n) => TallyStays(cfg, s, s', k, n);
    case Reread(k, n, _) => TallyStays(cfg, s, s', k, n);
    case Rewrite(k, n, _, _) => TallyStays(cfg, s, s', k, n);
    case GiveUp(k, n, _) => TallyStays(cfg, s, s', k, n);
    case _ =>
  }

  lemma TasksComeFromTheEffect(s: State, e: Effect, t: Task)
    requires t in Apply(s, e).tasks
    ensures t in s.tasks || e.begun == Some(t)
  {
  }

  lemma EndConsumed(s: State, i: nat)
    requires i < |s.stats| && s.stats[i].outcome.Ends()
    ensures Ended(s, s.stats[i].key)
  {
  }

  lemma ClaimTaskIsOK(cfg: Config, s: State, k: Key)
    requires Enabled(cfg, s, ClaimForDispatch(k))
    ensures TaskOK(cfg, Next(cfg, s, ClaimForDispatch(k)), Dispatch(k, s.pool[k].attempts))
  {
  }

  lemma DropTaskIsOK(cfg: Config, s: State, k: Key, n: nat, src: Source, stored: bool)
    requires Enabled(cfg, s, PublishFailed(k, n, src, stored))
    ensures TaskOK(cfg, Next(cfg, s, PublishFailed(k, n, src, stored)), Remove(k))
  {
    if stored {
      assert Next(cfg, s, PublishFailed(k, n, src, stored)).stats[|s.stats|] == Event(k, Failed(n, src));
    }
  }

  /** An error is published only for an Envelope that could still be retried, so
      whatever the consumer reads off the row, the verdict has a sound source. */
  lemma ErrorLegIsOK(cfg: Config, s: State, s': State, i: nat)
    requires Inv(cfg, s) && Grows(s, s')
    requires i < |s.stats| && s.stats[i].outcome.Errored? && s.stats[i].key in s.pool
    ensures var k := s.stats[i].key;
      TaskOK(cfg, s', RetryOrFail(cfg, k, s.pool[k].attempts, Answered(s.stats[i].outcome.msg)))
  {
    hide RowFits, KeyFits, LedgerOf;
    var k, m := s.stats[i].key, s.stats[i].outcome.msg;
    assert OutcomeOK(cfg, s, k, s.stats[i].outcome);
    assert EnvelopeOK(cfg, s, s.sending[m]);
    TallyStays(cfg, s, s', k, s.pool[k].attempts);
    assert s'.sending[m] == s.sending[m];
  }

  lemma BegunByVerdicts(cfg: Config, s: State, a: Action, t: Task)
    requires Inv(cfg, s) && Enabled(cfg, s, a)
    requires EffectOf(cfg, s, a).begun == Some(t)
    requires Grows(s, Next(cfg, s, a))
    requires a.ClaimForValidation? || a.MarkValidated? || a.RejectAndDrop?
    ensures TaskOK(cfg, Next(cfg, s, a), t)
  {
    hide Apply, RowFits, KeyFits, LedgerOf, EnvelopeOK, Ended, KeyOK;
    if a.ClaimForValidation? {
      assert RowOK(cfg, s, a.key);
    } else {
      assert TaskOK(cfg, s, Validate(a.key));
    }
  }

  lemma BegunByRetries(cfg: Config, s: State, a: Action, t: Task)
    requires Inv(cfg, s) && Enabled(cfg, s, a)
    requires EffectOf(cfg, s, a).begun == Some(t)
    requires Grows(s, Next(cfg, s, a))
    requires a.FailToDispatch? || a.ReadForReschedule? || a.PublishFailed?
    ensures TaskOK(cfg, Next(cfg, s, a), t)
  {
    hide Apply, RowFits, KeyFits, LedgerOf, EnvelopeOK, Ended, KeyOK, TallyOK;
    var s' := Next(cfg, s, a);
    match a
    case FailToDispatch(k, n) =>
      assert TaskOK(cfg, s, Dispatch(k, n));
      TallyStays(cfg, s, s', k, n);
    case ReadForReschedule(k, n, src) =>
      assert TaskOK(cfg, s, Reread(k, n, src));
      TaskStays(cfg, s, s', Reread(k, n, src));
    case PublishFailed(k, n, src, stored) =>
      DropTaskIsOK(cfg, s, k, n, src, stored);
  }

  lemma BegunByDispatches(cfg: Config, s: State, a: Action, t: Task)
    requires Inv(cfg, s) && Enabled(cfg, s, a)
    requires EffectOf(cfg, s, a).begun == Some(t)
    requires Grows(s, Next(cfg, s, a))
    requires !a.ClaimForValidation? && !a.MarkValidated? && !a.RejectAndDrop?
    requires !a.FailToDispatch? && !a.ReadForReschedule? && !a.PublishFailed?
    ensures TaskOK(cfg, Next(cfg, s, a), t)
  {
    hide Apply, RowFits, KeyFits, LedgerOf, EnvelopeOK, Ended, KeyOK, TallyOK, SourceOK;
    var s' := Next(cfg, s, a);
    match a
    case ClaimForDispatch(k) =>
      ClaimTaskIsOK(cfg, s, k);
    case ConsumeError(i) =>
      ErrorLegIsOK(cfg, s, s', i);
    case ConsumeEnd(i) =>
      EndConsumed(s, i);
      EndedStays(s, s', s.stats[i].key);
    case _ =>
  }

  lemma BegunTaskIsOK(cfg: Config, s: State, a: Action, t: Task)
    requires Inv(cfg, s) && Enabled(cfg, s, a)
    requires EffectOf(cfg, s, a).begun == Some(t)
    requires Grows(s, Next(cfg, s, a))
    ensures TaskOK(cfg, Next(cfg, s, a), t)
  {
    hide Inv, Enabled, EffectOf, Grows, TaskOK;
    if a.ClaimForValidation? || a.MarkValidated? || a.RejectAndDrop? {
      BegunByVerdicts(cfg, s, a, t);
    } else if a.FailToDispatch? || a.ReadForReschedule? || a.PublishFailed? {
      BegunByRetries(cfg, s, a, t);
    } else {
      BegunByDispatches(cfg, s, a, t);
    }
  }

  lemma TasksKept(cfg: Config, s: State, a: Action)
    requires Inv(cfg, s) && Enabled(cfg, s, a)
    ensures var s' := Next(cfg, s, a); forall t :: t in s'.tasks ==> TaskOK(cfg, s', t)
  {
    hide Apply, EffectOf, TaskOK, Grows;
    var s' := Next(cfg, s, a);
    NextGrows(cfg, s, a);
    forall t | t in s'.tasks ensures TaskOK(cfg, s', t) {
      TasksComeFromTheEffect(s, EffectOf(cfg, s, a), t);
      if t in s.tasks {
        TaskStays(cfg, s, s', t);
      } else {
        BegunTaskIsOK(cfg, s, a, t);
      }
    }
  }

  lemma SentIsOK(cfg: Config, s: State, a: Action)
    requires Inv(cfg, s) && Enabled(cfg, s, a)
    ensures var e := EffectOf(cfg, s, a); e.sent.Some? ==> EnvelopeOK(cfg, s, e.sent.value)
  {
    if a.PublishEnvelope? {
      assert TaskOK(cfg, s, Dispatch(a.key, a.attempts));
    }
  }

  lemma PublishedIsOK(cfg: Config, s: State, a: Action)
    requires Inv(cfg, s) && Enabled(cfg, s, a)
    ensures var e := EffectOf(cfg, s, a); e.published.Some? ==> OutcomeOK(cfg, s, e.published.value.key, e.published.value.outcome)
  {
    hide KeyOK, RowOK, SourceOK, EnvelopeOK;
    match a
    case PublishVerdict(k, v) => assert TaskOK(cfg, s, Announce(k, v));
    case PublishReport(m, o) => assert TaskOK(cfg, s, Report(m, o));
    case PublishFailed(k, n, src, _) => assert TaskOK(cfg, s, GiveUp(k, n, src));
    case _ =>
  }

  lemma StreamsKept(cfg: Config, s: State, a: Action)
    requires Inv(cfg, s) && Enabled(cfg, s, a)
    ensures var s' := Next(cfg, s, a); forall i :: 0 <= i < |s'.sending| ==> EnvelopeOK(cfg, s', s'.sending[i])
    ensures var s' := Next(cfg, s, a); forall i :: 0 <= i < |s'.stats| ==> OutcomeOK(cfg, s', s'.stats[i].key, s'.stats[i].outcome)
  {
    hide EffectOf, OutcomeOK, TallyOK, Grows, TaskOK, RowOK, KeyOK;
    var e, s' := EffectOf(cfg, s, a), Next(cfg, s, a);
    NextGrows(cfg, s, a);
    SentIsOK(cfg, s, a);
    PublishedIsOK(cfg, s, a);
    forall i | 0 <= i < |s'.sending| ensures EnvelopeOK(cfg, s', s'.sending[i]) {
      assert EnvelopeOK(cfg, s, s'.sending[i]);
      TallyStays(cfg, s, s', s'.sending[i].key, s'.sending[i].builtAt);
    }
    forall i | 0 <= i < |s'.stats| ensures OutcomeOK(cfg, s', s'.stats[i].key, s'.stats[i].outcome) {
      OutcomeStays(cfg, s, s', s'.stats[i].key, s'.stats[i].outcome);
    }
  }

  /** Where a row was written over: an earlier one that fits, whose claims count. */
  lemma WrittenOver(cfg: Config, s: State, a: Action)
    requires Inv(cfg, s) && Enabled(cfg, s, a)
    requires EffectOf(cfg, s, a).row.Put?
    ensures var k := EffectOf(cfg, s, a).row.key;
      && KeyOK(cfg, s, k) && (k in s.pool ==> RowOK(cfg, s, k))
      && (a.WriteReschedule? ==> Dispatched(s, k))
      && (Dispatched(s, k) <==> LedgerOf(s.history, k).claims > 0)
  {
    hide LedgerOf, OutcomeOK, EnvelopeOK, SourceOK, KeyOK, RowOK;
    var k := EffectOf(cfg, s, a).row.key;
    LedgerClaims(s, k);
    if a.WriteReschedule? {
      assert TaskOK(cfg, s, Rewrite(a.key, a.attempts, a.at, a.source));
    }
  }

  lemma WrittenRowFits(cfg: Config, s: State, a: Action)
    requires Inv(cfg, s) && Enabled(cfg, s, a)
    requires EffectOf(cfg, s, a).row.Put?
    ensures var e := EffectOf(cfg, s, a);
      RowFits(cfg, e.row.key, e.row.row, Noted(LedgerOf(s.history, e.row.key), e.note, e.row.key, s.now))
  {
    hide LedgerOf, Inv, Dispatched;
    WrittenOver(cfg, s, a);
  }

  lemma LedgerClaims(s: State, k: Key)
    ensures LedgerOf(s.history, k).claims == s.history.claims[k]
  {
  }

  lemma OtherRowsStay(cfg: Config, s: State, e: Effect, k: Key)
    requires WritesInPlace(s, e)
    requires k in s.pool && RowOK(cfg, s, k) && !Concerns(e, k)
    ensures k in Apply(s, e).pool && RowOK(cfg, Apply(s, e), k)
  {
    hide Recorded, LedgerOf, RowFits;
    LedgerRecorded(s.history, e.note, s.now, k);
  }

  lemma WrittenRowIsOK(cfg: Config, s: State, a: Action)
    requires Inv(cfg, s) && Enabled(cfg, s, a)
    requires EffectOf(cfg, s, a).row.Put?
    ensures RowOK(cfg, Next(cfg, s, a), EffectOf(cfg, s, a).row.key)
  {
    hide Recorded, LedgerOf, RowFits, Inv, EffectOf;
    var e := EffectOf(cfg, s, a);
    WrittenRowFits(cfg, s, a);
    LedgerRecorded(s.history, e.note, s.now, e.row.key);
  }

  lemma RowsKept(cfg: Config, s: State, a: Action)
    requires Inv(cfg, s) && Enabled(cfg, s, a)
    ensures var s' := Next(cfg, s, a); forall k :: k in s'.pool ==> RowOK(cfg, s', k)
  {
    hide EffectOf, RowOK, TaskOK, OutcomeOK, EnvelopeOK, KeyOK, WritesInPlace;
    var e, s' := EffectOf(cfg, s, a), Next(cfg, s, a);
    EffectsWriteInPlace(cfg, s, a);
    forall k | k in s'.pool ensures RowOK(cfg, s', k) {
      if Concerns(e, k) {
        WrittenRowIsOK(cfg, s, a);
      } else {
        OtherRowsStay(cfg, s, e, k);
      }
    }
  }

  /** A row is deleted only for a key that ended, was lost, or failed the check. */
  lemma DeletionsAreEarned(cfg: Config, s: State, a: Action)
    requires Inv(cfg, s) && Enabled(cfg, s, a)
    ensures var e := EffectOf(cfg, s, a);
      e.row.Deleted? ==> Ended(s, e.row.key) || e.row.key in s.history.lost || !cfg.passes(e.row.key.email)
    ensures var e := EffectOf(cfg, s, a); e.row.Deleted? ==> !CountsKey(e.note)
  {
    match a
    case DropRow(k) => assert TaskOK(cfg, s, Remove(k));
    case _ =>
  }

  /** What a write adds to the key's history. */
  lemma WrittenKeyFits(cfg: Config, s: State, a: Action, k: Key)
    requires Inv(cfg, s) && Enabled(cfg, s, a)
    requires Concerns(EffectOf(cfg, s, a), k)
    ensures KeyFits(cfg, k, Noted(LedgerOf(s.history, k), EffectOf(cfg, s, a).note, k, s.now))
  {
    hide LedgerOf, Inv, Dispatched;
    if EffectOf(cfg, s, a).row.Put? {
      WrittenOver(cfg, s, a);
    } else {
      KeyIsOK(cfg, s, k);
    }
  }

  lemma KeyIsOK(cfg: Config, s: State, k: Key)
    requires Inv(cfg, s)
    ensures KeyOK(cfg, s, k)
  {
  }

  lemma ConcernedKeyIsOK(cfg: Config, s: State, a: Action, k: Key)
    requires Inv(cfg, s) && Enabled(cfg, s, a)
    requires Concerns(EffectOf(cfg, s, a), k)
    ensures KeyOK(cfg, Next(cfg, s, a), k)
  {
    hide Recorded, EffectOf, LedgerOf, KeyFits, RowOK, TaskOK, OutcomeOK, EnvelopeOK;
    var e, s' := EffectOf(cfg, s, a), Next(cfg, s, a);
    assert KeyOK(cfg, s, k);
    WrittenKeyFits(cfg, s, a, k);
    LedgerRecorded(s.history, e.note, s.now, k);
    DeletionsAreEarned(cfg, s, a);
    LedgerClaims(s', k);
    LedgerClaims(s, k);
    if Ended(s, k) {
      EndedStays(s, s', k);
    }
    LostStays(s.history, e.note, s.now);
  }

  lemma LostStays(h: History, note: Note, now: int)
    ensures h.lost <= Recorded(h, note, now).lost
  {
  }

  lemma OtherKeysStay(cfg: Config, s: State, e: Effect, k: Key)
    requires WritesInPlace(s, e)
    requires KeyOK(cfg, s, k) && !Concerns(e, k)
    ensures KeyOK(cfg, Apply(s, e), k)
  {
    hide Recorded, LedgerOf, KeyFits;
    LedgerRecorded(s.history, e.note, s.now, k);
    LedgerClaims(Apply(s, e), k);
    LedgerClaims(s, k);
    LostStays(s.history, e.note, s.now);
    if Ended(s, k) {
      EndedStays(s, Apply(s, e), k);
    }
  }

  lemma KeysKept(cfg: Config, s: State, a: Action)
    requires Inv(cfg, s) && Enabled(cfg, s, a)
    ensures forall k :: KeyOK(cfg, Next(cfg, s, a), k)
  {
    hide EffectOf, RowOK, TaskOK, OutcomeOK, EnvelopeOK, KeyOK, WritesInPlace;
    EffectsWriteInPlace(cfg, s, a);
    forall k ensures KeyOK(cfg, Next(cfg, s, a), k) {
      if Concerns(EffectOf(cfg, s, a), k) {
        ConcernedKeyIsOK(cfg, s, a, k);
      } else {
        OtherKeysStay(cfg, s, EffectOf(cfg, s, a), k);
      }
    }
  }

  lemma StepKeepsInv(cfg: Config, s: State, a: Action)
    requires Inv(cfg, s) && Enabled(cfg, s, a)
    ensures Inv(cfg, Next(cfg, s, a))
  {
    hide EffectOf, Apply, RowOK, TaskOK, OutcomeOK, EnvelopeOK, KeyOK;
    TasksKept(cfg, s, a);
    StreamsKept(cfg, s, a);
    RowsKept(cfg, s, a);
    KeysKept(cfg, s, a);
  }

  lemma {:induction false} RunKeepsInv(cfg: Config, s: State, run: seq<Action>)
    requires Inv(cfg, s) && IsRun(cfg, s, run)
    ensures Inv(cfg, Exec(cfg, s, run))
    decreases |run|
  {
    hide Enabled, EffectOf, Apply, Inv;
    if |run| > 0 {
      StepKeepsInv(cfg, s, run[0]);
      RunKeepsInv(cfg, Next(cfg, s, run[0]), run[1..]);
    }
  }

  lemma ReachableInv(cfg: Config, now: int, run: seq<Action>)
    requires IsRun(cfg, Init(now), run)
    ensures Inv(cfg, Exec(cfg, Init(now), run))
  {
    hide IsRun, Exec;
    RunKeepsInv(cfg, Init(now), run);
  }
}
