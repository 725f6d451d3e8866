/** Runs that show the bounds of Budget are needed and exact: what redelivered errors
    and Dispatchers left behind can do. */
module Reschedules {
  import opened Pool
  import opened Protocol
  import opened Dispatches
  import opened Budget
  import opened Scenes
  import Retry

  // ---- One error, read many times before any write ----

  function Copies(t: Task, n: nat): (m: multiset<Task>)
    ensures m[t] == n && forall u :: u != t ==> m[u] == 0
  {
    if n == 0 then multiset{} else Copies(t, n - 1) + multiset{t}
  }

  lemma OneMoreCopy(base: multiset<Task>, t: Task, n: nat)
    ensures base + Copies(t, n + 1) == base + Copies(t, n) + multiset{t}
  {
  }

  lemma {:induction false} ConsumeTimes(cfg: Config, s: State, k: Key, base: multiset<Task>, row: Row, past: Past, n: nat) returns (run: seq<Action>)
    requires Scene(s, k, base, row, past) && |s.stats| > 0 && s.stats[0] == Event(k, Errored(0)) && cfg.policy.CanRetry(past.Tally())
    ensures IsRun(cfg, s, run)
    ensures Scene(Exec(cfg, s, run), k, base + Copies(Reread(k, past.Tally(), Answered(0)), n), row, past) && SameStreams(s, Exec(cfg, s, run))
  {
    hide Enabled, Next, Retry.Policy.CanRetry, Scene, Copies;
    run := [];
    var t := Reread(k, past.Tally(), Answered(0));
    if n == 0 {
      NoCopies(base, t);
    } else {
      run := ConsumeTimes(cfg, s, k, base, row, past, n - 1);
      Consume(cfg, Exec(cfg, s, run), k, base + Copies(t, n - 1), row, past, 0, 0);
      ExecSnoc(cfg, s, run, ConsumeError(0));
      OneMoreCopy(base, t, n - 1);
      run := run + [ConsumeError(0)];
    }
  }

  lemma {:induction false} ReadTimes(cfg: Config, s: State, k: Key, base: multiset<Task>, row: Row, past: Past, tally: nat, n: nat, at: int)
    returns (run: seq<Action>)
    requires at == cfg.policy.NextRetryAt(row.originalAt, row.attempts)
    requires Scene(s, k, base + Copies(Reread(k, tally, Answered(0)), n), row, past)
    ensures IsRun(cfg, s, run)
    ensures Scene(Exec(cfg, s, run), k, base + Copies(Rewrite(k, tally, at, Answered(0)), n), row, past) && SameStreams(s, Exec(cfg, s, run))
    decreases n
  {
    hide Enabled, Next, Retry.Policy.NextRetryAt, Scene, Copies;
    run := [];
    var t, u := Reread(k, tally, Answered(0)), Rewrite(k, tally, at, Answered(0));
    if n == 0 {
      assert base + Copies(t, 0) == base + Copies(u, 0);
    } else {
      var a, rest := ReadForReschedule(k, tally, Answered(0)), base + Copies(t, n - 1);
      OneMoreCopy(base, t, n - 1);
      Read(cfg, s, k, rest, row, past, tally, Answered(0));
      ExecSnoc(cfg, s, [], a);
      assert [] + [a] == [a];
      assert rest + multiset{u} == base + multiset{u} + Copies(t, n - 1);
      run := ReadTimes(cfg, Exec(cfg, s, [a]), k, base + multiset{u}, row, past, tally, n - 1, at);
      assert base + multiset{u} + Copies(u, n - 1) == base + Copies(u, n);
      ExecConcat(cfg, s, [a], run);
      run := [a] + run;
    }
  }

  lemma NoCopies(base: multiset<Task>, t: Task)
    ensures base + Copies(t, 0) == base
  {
  }

  lemma SameTwice(s: State, s': State, s'': State)
    ensures SameStreams(s, s') && SameStreams(s', s'') ==> SameStreams(s, s'')
    ensures SameStreams(s, s)
  {
  }

  /** What n writes of verdicts that all read tally 0 come to: only the first can be
      timely. */
  function WrittenTimes(past: Past, n: nat): Past {
    if n == 0 then past
    else if past.Tally() == 0 then past.(timely := past.timely + 1, stale := past.stale + n - 1)
    else past.(stale := past.stale + n)
  }

  lemma NoneWritten(past: Past)
    ensures WrittenTimes(past, 0) == past
  {
  }

  lemma OneMoreWritten(past: Past, n: nat)
    requires n > 0
    ensures WrittenTimes(past, n) == WrittenTimes(past.Written(0), n - 1)
  {
  }

  lemma {:induction false} WriteTimes(cfg: Config, s: State, k: Key, base: multiset<Task>, row: Row, n: nat, at: int, past: Past)
    returns (run: seq<Action>, row': Row)
    requires Scene(s, k, base + Copies(Rewrite(k, 0, at, Answered(0)), n), row, past)
    ensures IsRun(cfg, s, run)
    ensures Scene(Exec(cfg, s, run), k, base, row', WrittenTimes(past, n)) && SameStreams(s, Exec(cfg, s, run))
    decreases n
  {
    hide Enabled, Next, Scene, Copies, SameStreams, Rescheduled, WrittenTimes, Past.Written;
    run, row' := [], row;
    var t := Rewrite(k, 0, at, Answered(0));
    if n == 0 {
      NoCopies(base, t);
      NoneWritten(past);
      SameTwice(s, s, s);
    } else {
      var a := WriteReschedule(k, 0, at, Answered(0));
      OneMoreCopy(base, t, n - 1);
      OneMoreWritten(past, n);
      Write(cfg, s, k, base + Copies(t, n - 1), row, past, 0, at, Answered(0));
      ExecSnoc(cfg, s, [], a);
      assert [] + [a] == [a];
      run, row' := WriteTimes(cfg, Exec(cfg, s, [a]), k, base, Rescheduled(row, at), n - 1, at, past.Written(0));
      ExecConcat(cfg, s, [a], run);
      SameTwice(s, Exec(cfg, s, [a]), Exec(cfg, Exec(cfg, s, [a]), run));
      run := [a] + run;
    }
  }

  /** Where verdicts overlap nothing bounds the reschedules: for every n there is a run
      without a single reclaim in which one error, redelivered and read n times before
      the first write, reschedules its Delivery n times, all but the first stale. */
  lemma OverlappingVerdictsAreUnbounded(cfg: Config, k: Key, n: nat) returns (run: seq<Action>)
    requires cfg.passes(k.email) && cfg.policy.CanRetry(0) && n > 0
    ensures IsRun(cfg, Init(0), run)
    ensures var s := Exec(cfg, Init(0), run);
      var h := s.history;
      && h.timely[k] == 1 && h.stale[k] == n - 1 && h.reclaims[k] == 0
      && |s.sending| == 1 && k in s.pool && s.pool[k].attempts == n
  {
    hide Enabled, Next, Plays;
    var base := multiset{Announce(k, Accepted)};
    var row, next;
    run, row := Admit(cfg, k);
    var s := Exec(cfg, Init(0), run);
    next := SendAndRefuse(cfg, s, k, base, row, Past(0, 0, 0));
    row := ClaimedForDispatch(row, s.now);
    ExecConcat(cfg, Init(0), run, next);
    run := run + next;
    next := ConsumeTimes(cfg, Exec(cfg, Init(0), run), k, base, row, Past(0, 0, 0), n);
    ExecConcat(cfg, Init(0), run, next);
    run := run + next;
    var at := cfg.policy.NextRetryAt(row.originalAt, row.attempts);
    next := ReadTimes(cfg, Exec(cfg, Init(0), run), k, base, row, Past(0, 0, 0), 0, n, at);
    ExecConcat(cfg, Init(0), run, next);
    run := run + next;
    next, row := WriteTimes(cfg, Exec(cfg, Init(0), run), k, base, row, n, at, Past(0, 0, 0));
    ExecConcat(cfg, Init(0), run, next);
    run := run + next;
  }

  // ---- Dispatchers left behind ----

  /** One Dispatcher for each tally from 1 to n. */
  function LeftBehind(k: Key, n: nat): (m: multiset<Task>)
    ensures forall t :: t in m ==> t.Dispatch?
  {
    if n == 0 then multiset{} else LeftBehind(k, n - 1) + multiset{Dispatch(k, n)}
  }

  lemma NoneLeft(base: multiset<Task>, k: Key)
    ensures base + LeftBehind(k, 0) == base
  {
  }

  lemma OneMoreLeft(base: multiset<Task>, k: Key, n: nat)
    requires n > 0
    ensures base + LeftBehind(k, n) == base + LeftBehind(k, n - 1) + multiset{Dispatch(k, n)}
  {
  }

  lemma HeldAreNoVerdicts(k: Key, n: nat)
    ensures NoVerdicts(multiset{Announce(k, Accepted)} + LeftBehind(k, n), k)
  {
    hide LeftBehind;
  }

  /** Each redelivery of the one error, up to n times, finds the row claimed anew and
      schedules it again, leaving that claim's Dispatcher behind. */
  lemma {:induction false} ClaimAndAnswerTimes(cfg: Config, s: State, k: Key, row: Row, n: nat) returns (run: seq<Action>, row': Row)
    requires cfg.policy == Retry.DefaultPolicy(cfg.policy.overflow) && n <= LAST
    requires Scene(s, k, multiset{Announce(k, Accepted)}, row, Past(1, 0, 0)) && Due(row, s.now)
    requires |s.stats| > 0 && s.stats[0] == Event(k, Errored(0))
    ensures IsRun(cfg, s, run) && Alone(cfg, s, run, k) && Marks(run, k) == 0
    ensures var s' := Exec(cfg, s, run);
      && Scene(s', k, multiset{Announce(k, Accepted)} + LeftBehind(k, n), row', Past(n + 1, 0, 0))
      && SameStreams(s, s') && Due(row', s'.now)
  {
    hide Enabled, Next, Alone, Scene, Retry.DefaultPolicy, Retry.Policy.CanRetry, LeftBehind, NoVerdicts;
    var base := multiset{Announce(k, Accepted)};
    if n == 0 {
      run, row' := [], row;
      NothingPlays(cfg, s, k);
      NoneLeft(base, k);
    } else {
      run, row' := ClaimAndAnswerTimes(cfg, s, k, row, n - 1);
      var held := base + LeftBehind(k, n - 1);
      var here := Exec(cfg, s, run);
      ClaimOnce(cfg, here, k, held, row', Past(n, 0, 0));
      run := Joined(cfg, s, run, [ClaimForDispatch(k)], k);
      row' := ClaimedForDispatch(row', here.now);
      OneMoreLeft(base, k, n);
      HeldAreNoVerdicts(k, n);
      FirstTen(cfg, n);
      var next;
      next, row' := Answer(cfg, Exec(cfg, s, run), k, base + LeftBehind(k, n), row', Past(n, 0, 0), 0, 0);
      run := Joined(cfg, s, run, next, k);
    }
  }

  lemma Joined(cfg: Config, s: State, a: seq<Action>, b: seq<Action>, k: Key) returns (run: seq<Action>)
    requires IsRun(cfg, s, a) && IsRun(cfg, Exec(cfg, s, a), b)
    requires Alone(cfg, s, a, k) && Alone(cfg, Exec(cfg, s, a), b, k)
    ensures run == a + b && IsRun(cfg, s, run) && Exec(cfg, s, run) == Exec(cfg, Exec(cfg, s, a), b)
    ensures Alone(cfg, s, run, k) && Marks(run, k) == Marks(a, k) + Marks(b, k)
  {
    hide IsRun, Exec, Alone, Marks;
    run := a + b;
    ExecConcat(cfg, s, a, b);
    AloneConcat(cfg, s, a, b, k);
    MarksConcat(a, b, k);
  }

  /** The Dispatchers left behind fail in turn, each at the tally it claimed. */
  lemma {:induction false} ReturnTimes(cfg: Config, s: State, k: Key, row: Row, n: nat, stale: nat) returns (run: seq<Action>, row': Row)
    requires cfg.policy == Retry.DefaultPolicy(cfg.policy.overflow) && n <= LAST
    requires Scene(s, k, multiset{Announce(k, Accepted)} + LeftBehind(k, n), row, Past(LAST + 1, stale, 0))
    ensures IsRun(cfg, s, run) && Alone(cfg, s, run, k) && Marks(run, k) == 0
    ensures Scene(Exec(cfg, s, run), k, multiset{Announce(k, Accepted)}, row', Past(LAST + 1, stale + n, 0))
    ensures SameStreams(s, Exec(cfg, s, run))
    decreases n
  {
    hide Enabled, Next, Alone, Scene, Retry.DefaultPolicy, Retry.Policy.CanRetry, LeftBehind, NoVerdicts;
    var base := multiset{Announce(k, Accepted)};
    NoneLeft(base, k);
    if n == 0 {
      run, row' := [], row;
      NothingPlays(cfg, s, k);
    } else {
      var held := base + LeftBehind(k, n - 1);
      OneMoreLeft(base, k, n);
      HeldAreNoVerdicts(k, n - 1);
      FirstTen(cfg, n);
      var first, rest;
      first, row' := Return(cfg, s, k, held, row, Past(LAST + 1, stale, 0), n);
      rest, row' := ReturnTimes(cfg, Exec(cfg, s, first), k, row', n - 1, stale + 1);
      run := Joined(cfg, s, first, rest, k);
    }
  }

  /** Nineteen is exact: a Delivery marked validated once, never reclaimed, its verdicts
      standing alone, gets ten timely reschedules and nine stale ones. */
  lemma NineteenReschedules(cfg: Config, k: Key) returns (run: seq<Action>)
    requires cfg.policy == Retry.DefaultPolicy(cfg.policy.overflow) && cfg.passes(k.email)
    ensures IsRun(cfg, Init(0), run) && Alone(cfg, Init(0), run, k) && Marks(run, k) == 1
    ensures var h := Exec(cfg, Init(0), run).history; h.timely[k] == 10 && h.stale[k] == 9 && h.reclaims[k] == 0
  {
    hide Enabled, Next, Alone, Retry.DefaultPolicy, Retry.Policy.CanRetry, Marks;
    var base := multiset{Announce(k, Accepted)};
    var row, next;
    run, row := Admit(cfg, k);
    FirstTen(cfg, 0);
    var s := Exec(cfg, Init(0), run);
    next := SendAndRefuse(cfg, s, k, base, row, Past(0, 0, 0));
    row := ClaimedForDispatch(row, s.now);
    run := Joined(cfg, Init(0), run, next, k);
    next, row := Answer(cfg, Exec(cfg, Init(0), run), k, base, row, Past(0, 0, 0), 0, 0);
    run := Joined(cfg, Init(0), run, next, k);
    next, row := ClaimAndAnswerTimes(cfg, Exec(cfg, Init(0), run), k, row, LAST);
    run := Joined(cfg, Init(0), run, next, k);
    next, row := ReturnTimes(cfg, Exec(cfg, Init(0), run), k, row, LAST, 0);
    run := Joined(cfg, Init(0), run, next, k);
  }
}
