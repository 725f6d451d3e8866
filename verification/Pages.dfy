/** A statement that moves a page of rows at once is a run of the protocol's
    single-row steps, so every property of runs covers the pages too. */
module Pages {
  import opened Prelude
  import opened Pool
  import opened Protocol

  function ClaimEach(ks: seq<Key>): seq<Action> {
    if |ks| == 0 then [] else [ClaimForDispatch(ks[0])] + ClaimEach(ks[1..])
  }

  function ReclaimEach(f: InFlight, ks: seq<Key>): seq<Action> {
    if |ks| == 0 then [] else [Reclaim(f, ks[0])] + ReclaimEach(f, ks[1..])
  }

  ghost predicate NoRepeats(ks: seq<Key>) {
    forall i, j :: 0 <= i < j < |ks| ==> ks[i] != ks[j]
  }

  function Listed(ks: seq<Key>): set<Key> {
    set k | k in ks
  }

  lemma UpdatedFirst(rows: map<Key, Row>, ks: seq<Key>, u: Row -> Row)
    requires |ks| > 0 && NoRepeats(ks) && ks[0] in rows
    ensures Updated(rows[ks[0] := u(rows[ks[0]])], Listed(ks[1..]), u) == Updated(rows, Listed(ks), u)
  {
    assert ks == [ks[0]] + ks[1..];
    assert ks[0] !in ks[1..];
  }

  lemma OneClaim(cfg: Config, s: State, k: Key)
    requires k in s.pool && Due(s.pool[k], s.now)
    ensures Enabled(cfg, s, ClaimForDispatch(k))
    ensures var s' := Next(cfg, s, ClaimForDispatch(k));
      && s'.pool == s.pool[k := ClaimedForDispatch(s.pool[k], s.now)] && s'.now == s.now
      && s'.sending == s.sending && s'.stats == s.stats
  {
    assert s.sending + Appended<Envelope>(None) == s.sending;
    assert s.stats + Appended<Event>(None) == s.stats;
  }

  /** PrepareForSend's page, row by row. */
  lemma {:induction false} ClaimPageIsARun(cfg: Config, s: State, ks: seq<Key>)
    requires NoRepeats(ks) && forall i :: 0 <= i < |ks| ==> ks[i] in s.pool && Due(s.pool[ks[i]], s.now)
    ensures IsRun(cfg, s, ClaimEach(ks))
    ensures var s' := Exec(cfg, s, ClaimEach(ks));
      && s'.pool == Updated(s.pool, Listed(ks), (r: Row) => ClaimedForDispatch(r, s.now)) && s'.now == s.now
      && s'.sending == s.sending && s'.stats == s.stats
    decreases |ks|
  {
    hide Enabled, Next, ClaimedForDispatch;
    if |ks| == 0 {
      assert s.pool == Updated(s.pool, Listed(ks), (r: Row) => ClaimedForDispatch(r, s.now));
    } else {
      OneClaim(cfg, s, ks[0]);
      var s' := Next(cfg, s, ClaimForDispatch(ks[0]));
      assert ClaimEach(ks)[0] == ClaimForDispatch(ks[0]) && ClaimEach(ks)[1..] == ClaimEach(ks[1..]);
      forall i | 0 <= i < |ks[1..]| ensures ks[1..][i] in s'.pool && Due(s'.pool[ks[1..][i]], s'.now) {
        assert ks[1..][i] == ks[i + 1] != ks[0];
      }
      ClaimPageIsARun(cfg, s', ks[1..]);
      UpdatedFirst(s.pool, ks, (r: Row) => ClaimedForDispatch(r, s.now));
    }
  }

  lemma OneReclaim(cfg: Config, s: State, f: InFlight, k: Key)
    requires !f.Unknown?
    requires k in s.pool && Stranded(s.pool[k], ReclaimTarget(f).value, s.now - StrandThreshold(f))
    ensures Enabled(cfg, s, Reclaim(f, k))
    ensures var s' := Next(cfg, s, Reclaim(f, k));
      && s'.pool == s.pool[k := Reclaimed(s.pool[k], ReclaimTarget(f).value)] && s'.now == s.now
      && s'.sending == s.sending && s'.stats == s.stats
  {
    assert s.sending + Appended<Envelope>(None) == s.sending;
    assert s.stats + Appended<Event>(None) == s.stats;
  }

  /** ReclaimStranded's page, row by row: it publishes nothing. */
  lemma {:induction false} ReclaimPageIsARun(cfg: Config, s: State, f: InFlight, ks: seq<Key>)
    requires !f.Unknown? && NoRepeats(ks)
    requires forall i :: 0 <= i < |ks| ==> ks[i] in s.pool && Stranded(s.pool[ks[i]], ReclaimTarget(f).value, s.now - StrandThreshold(f))
    ensures IsRun(cfg, s, ReclaimEach(f, ks))
    ensures var s' := Exec(cfg, s, ReclaimEach(f, ks));
      && s'.pool == Updated(s.pool, Listed(ks), (r: Row) => Reclaimed(r, ReclaimTarget(f).value)) && s'.now == s.now
      && s'.sending == s.sending && s'.stats == s.stats
    decreases |ks|
  {
    hide Enabled, Next, Reclaimed;
    if |ks| == 0 {
      assert s.pool == Updated(s.pool, Listed(ks), (r: Row) => Reclaimed(r, ReclaimTarget(f).value));
    } else {
      OneReclaim(cfg, s, f, ks[0]);
      var s' := Next(cfg, s, Reclaim(f, ks[0]));
      assert ReclaimEach(f, ks)[0] == Reclaim(f, ks[0]) && ReclaimEach(f, ks)[1..] == ReclaimEach(f, ks[1..]);
      forall i | 0 <= i < |ks[1..]|
        ensures ks[1..][i] in s'.pool && Stranded(s'.pool[ks[1..][i]], ReclaimTarget(f).value, s'.now - StrandThreshold(f))
      {
        assert ks[1..][i] == ks[i + 1] != ks[0];
      }
      ReclaimPageIsARun(cfg, s', f, ks[1..]);
      UpdatedFirst(s.pool, ks, (r: Row) => Reclaimed(r, ReclaimTarget(f).value));
    }
  }
}
