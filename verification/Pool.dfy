/** The Pool: the table of in-flight Deliveries, and the statements that move
    a row through it. Each statement is atomic, so each is one method here. */
module Pool {
  import opened Prelude
  import Retry

  /** A Delivery's storage key, unique in the table. */
  datatype Key = Key(batchId: string, email: string)

  datatype Status = ToValidate | Validating | Scheduled | Sending

  datatype Row = Row(status: Status, attempts: nat, scheduledAt: int, originalAt: int, claimedAt: Option<int>) {
    /** Not yet past the Validator. */
    predicate AwaitsVerdict() {
      status.ToValidate? || status.Validating?
    }

    predicate InFlight() {
      status.Validating? || status.Sending?
    }
  }

  /** A row as a statement returned it, held by a worker. */
  datatype Delivery = Delivery(key: Key, row: Row)

  /** The operation a worker claimed a Delivery for. */
  datatype InFlight = ForDispatch | ForValidation | Unknown(code: nat)

  /** What undoes a claim: the status it put the row in, the one to restore, and
      whether that counts as an attempt. */
  datatype Target = Target(from: Status, to: Status, bump: bool)

  function ReclaimTarget(f: InFlight): Option<Target> {
    match f
    case ForDispatch => Some(Target(Sending, Scheduled, true))
    case ForValidation => Some(Target(Validating, ToValidate, false))
    case Unknown(_) => None
  }

  // What each statement makes of one row.

  function NewRow(at: int): Row {
    Row(ToValidate, 0, at, at, None)
  }

  function ClaimedForDispatch(r: Row, now: int): Row {
    r.(status := Sending, claimedAt := Some(now))
  }

  function ClaimedForValidation(r: Row, now: int): Row {
    r.(status := Validating, claimedAt := Some(now))
  }

  /** Neither of these two looks at the status it overwrites, or clears the claim. */
  function MarkedScheduled(r: Row): Row {
    r.(status := Scheduled)
  }

  function Rescheduled(r: Row, at: int): Row {
    r.(status := Scheduled, scheduledAt := at, attempts := r.attempts + 1)
  }

  function Reclaimed(r: Row, t: Target): Row {
    r.(status := t.to, claimedAt := None, attempts := r.attempts + if t.bump then 1 else 0)
  }

  /** The row is due when a reading of n attempts says: under the defaults, and while
      that is exact, two minutes doubled n times after its original time, or five. */
  ghost predicate BackedOff(p: Retry.Policy, r: Row, n: nat) {
    && r.scheduledAt == r.originalAt + p.backoff.Delay(n, p.overflow)
    && (p == Retry.DefaultPolicy(p.overflow) && n <= 26 ==> r.scheduledAt == r.originalAt + Retry.IntendedDelay(n))
  }

  // Which rows each statement selects.

  predicate Due(r: Row, now: int) {
    r.status.Scheduled? && r.scheduledAt <= now
  }

  predicate Stranded(r: Row, t: Target, cutoff: int) {
    r.status == t.from && r.claimedAt.Some? && r.claimedAt.value < cutoff
  }

  /** A reclaim gives a claimed row back exactly as it was claimed, but for the
      claim and, for a dispatch claim, one send attempt. */
  lemma ReclaimUndoesTheClaim(r: Row, now: int)
    ensures r.status.Scheduled? ==>
      Reclaimed(ClaimedForDispatch(r, now), ReclaimTarget(ForDispatch).value) == r.(claimedAt := None, attempts := r.attempts + 1)
    ensures r.status.ToValidate? ==>
      Reclaimed(ClaimedForValidation(r, now), ReclaimTarget(ForValidation).value) == r.(claimedAt := None)
  {
  }

  function Updated(rows: map<Key, Row>, ks: set<Key>, u: Row -> Row): map<Key, Row> {
    map k | k in rows :: if k in ks then u(rows[k]) else rows[k]
  }

  /** UPDATE ... WHERE email = $1 AND message_id = $2: no row, no effect. */
  function OnRow(rows: map<Key, Row>, k: Key, u: Row -> Row): map<Key, Row> {
    if k in rows then rows[k := u(rows[k])] else rows
  }

  function KeysOf(ds: seq<Delivery>): set<Key> {
    set d | d in ds :: d.key
  }

  /** One page: candidates only, none twice, and short of the limit only when
      the candidates ran out. */
  ghost predicate IsPage(ds: seq<Delivery>, limit: nat, candidates: set<Key>) {
    && |ds| <= limit
    && (forall i :: 0 <= i < |ds| ==> ds[i].key in candidates)
    && (forall i, j :: 0 <= i < j < |ds| ==> ds[i].key != ds[j].key)
    && (|ds| < limit ==> candidates <= KeysOf(ds))
  }

  lemma {:induction false} PageSize(ds: seq<Delivery>)
    requires forall i, j :: 0 <= i < j < |ds| ==> ds[i].key != ds[j].key
    ensures |KeysOf(ds)| == |ds|
  {
    if |ds| > 0 {
      var init, last := ds[..|ds| - 1], ds[|ds| - 1];
      PageSize(init);
      assert last.key !in KeysOf(init);
      assert ds == init + [last];
      assert KeysOf(ds) == KeysOf(init) + {last.key};
    }
  }

  lemma UpdateTwice(rows: map<Key, Row>, ks: set<Key>, ls: set<Key>, u: Row -> Row)
    requires ks !! ls
    ensures Updated(Updated(rows, ks, u), ls, u) == Updated(rows, ks + ls, u)
  {
  }

  /** No key is there already and none is listed twice. */
  ghost predicate Insertable(rows: map<Key, Row>, ks: seq<Key>) {
    && (forall i :: 0 <= i < |ks| ==> ks[i] !in rows)
    && (forall i, j :: 0 <= i < j < |ks| ==> ks[i] != ks[j])
  }

  class Table {
    var rows: map<Key, Row>

    constructor ()
      ensures rows == map[]
    {
      rows := map[];
    }

    /** Inserts a row per Delivery. The unique index on the key makes it all or none. */
    method Schedule(ks: seq<Key>, at: int) returns (ok: bool)
      modifies this
      ensures ok <==> Insertable(old(rows), ks)
      ensures !ok ==> rows == old(rows)
      ensures ok ==> rows == old(rows) + map k | k in ks :: NewRow(at)
      ensures ok ==> forall k :: k in ks ==> rows[k] == Row(ToValidate, 0, at, at, None)
    {
      var added := map[];
      for i := 0 to |ks|
        invariant Insertable(rows, ks[..i])
        invariant added == map k | k in ks[..i] :: NewRow(at)
        invariant rows == old(rows)
      {
        assert ks[..i + 1] == ks[..i] + [ks[i]];
        if ks[i] in rows || ks[i] in added {
          return false;
        }
        added := added[ks[i] := NewRow(at)];
      }
      assert ks[..|ks|] == ks;
      rows := rows + added;
      return true;
    }

    /** UPDATE ... FROM (SELECT ... FOR UPDATE SKIP LOCKED LIMIT n) RETURNING: applies
        u to up to limit of the candidates, in no order the statement promises. */
    method UpdatePage(candidates: set<Key>, limit: nat, u: Row -> Row) returns (page: seq<Delivery>)
      requires candidates <= rows.Keys
      modifies this
      ensures IsPage(page, limit, candidates)
      ensures rows == Updated(old(rows), KeysOf(page), u)
      ensures forall d :: d in page ==> d.key in rows && d.row == rows[d.key]
    {
      page := [];
      var left := candidates;
      assert KeysOf(page) == {};
      while |page| < limit && left != {}
        invariant left == candidates - KeysOf(page) && KeysOf(page) <= candidates
        invariant |page| <= limit
        invariant forall i, j :: 0 <= i < j < |page| ==> page[i].key != page[j].key
        invariant rows == Updated(old(rows), KeysOf(page), u)
        invariant forall d :: d in page ==> d.key in rows && d.row == rows[d.key]
        decreases left
      {
        var k :| k in left;
        var d := Delivery(k, u(rows[k]));
        assert KeysOf(page + [d]) == KeysOf(page) + {k};
        assert k !in KeysOf(page);
        page := page + [d];
        rows := rows[k := d.row];
        left := left - {k};
      }
      forall i | 0 <= i < |page| ensures page[i].key in candidates {
        assert page[i] in page;
      }
    }

    /** Claims up to limit due rows that no other statement holds locked. */
    method PrepareForSend(limit: nat, now: int, locked: set<Key>) returns (page: seq<Delivery>)
      modifies this
      ensures IsPage(page, limit, (set k | k in old(rows) && Due(old(rows)[k], now)) - locked)
      ensures rows == Updated(old(rows), KeysOf(page), (r: Row) => ClaimedForDispatch(r, now))
      ensures forall k :: k in KeysOf(page) ==>
        && k in old(rows) && old(rows)[k].status.Scheduled? && old(rows)[k].scheduledAt <= now
        && rows[k] == old(rows)[k].(status := Sending, claimedAt := Some(now))
      ensures |page| < limit ==>
        forall k :: k in old(rows) && k !in locked && k !in KeysOf(page) ==> !old(rows)[k].status.Scheduled? || old(rows)[k].scheduledAt > now
      ensures forall d :: d in page ==> d.key in rows && d.row == rows[d.key]
    {
      page := UpdatePage((set k | k in rows && Due(rows[k], now)) - locked, limit, (r: Row) => ClaimedForDispatch(r, now));
    }

    method PrepareForValidate(limit: nat, now: int, locked: set<Key>) returns (page: seq<Delivery>)
      modifies this
      ensures IsPage(page, limit, (set k | k in old(rows) && old(rows)[k].status.ToValidate?) - locked)
      ensures rows == Updated(old(rows), KeysOf(page), (r: Row) => ClaimedForValidation(r, now))
      ensures forall k :: k in KeysOf(page) ==> rows[k] == old(rows)[k].(status := Validating, claimedAt := Some(now))
      ensures forall d :: d in page ==> d.key in rows && d.row == rows[d.key]
    {
      page := UpdatePage((set k | k in rows && rows[k].status.ToValidate?) - locked, limit, (r: Row) => ClaimedForValidation(r, now));
    }

    /** Hands rows claimed for f longer ago than olderThan back to where they were
        claimed from. Refuses a kind of claim it does not know. */
    method ReclaimStranded(f: InFlight, olderThan: int, limit: nat, now: int, locked: set<Key>) returns (res: Result<seq<Delivery>, string>)
      modifies this
      ensures res.Err? <==> f.Unknown?
      ensures res.Err? ==> rows == old(rows)
      ensures res.Ok? ==> var t := ReclaimTarget(f).value;
        && IsPage(res.value, limit, StrandedKeys(old(rows), t, now - olderThan) - locked)
        && rows == Updated(old(rows), KeysOf(res.value), (r: Row) => Reclaimed(r, t))
        && (forall d :: d in res.value ==> d.key in rows && d.row == rows[d.key])
      ensures res.Ok? ==> forall k :: k in KeysOf(res.value) ==>
        && k in old(rows) && old(rows)[k].claimedAt.Some? && old(rows)[k].claimedAt.value < now - olderThan
        && old(rows)[k].status == (if f.ForDispatch? then Sending else Validating)
        && rows[k] == (if f.ForDispatch? then old(rows)[k].(status := Scheduled, claimedAt := None, attempts := old(rows)[k].attempts + 1)
                       else old(rows)[k].(status := ToValidate, claimedAt := None))
      ensures res.Ok? && |res.value| < limit ==>
        forall k :: k in old(rows) && k !in locked && k !in KeysOf(res.value) ==>
          || old(rows)[k].status != (if f.ForDispatch? then Sending else Validating)
          || old(rows)[k].claimedAt.None? || old(rows)[k].claimedAt.value >= now - olderThan
    {
      match ReclaimTarget(f)
      case None =>
        res := Err("cannot reclaim: unknown in-flight claim");
      case Some(t) =>
        var page := UpdatePage(StrandedKeys(rows, t, now - olderThan) - locked, limit, (r: Row) => Reclaimed(r, t));
        res := Ok(page);
    }

    method SetScheduled(k: Key)
      modifies this
      ensures rows == OnRow(old(rows), k, (r: Row) => MarkedScheduled(r))
      ensures rows == if k in old(rows) then old(rows)[k := old(rows)[k].(status := Scheduled)] else old(rows)
    {
      if k in rows {
        rows := rows[k := MarkedScheduled(rows[k])];
      }
    }

    method ReschedulePool(k: Key, at: int)
      modifies this
      ensures rows == OnRow(old(rows), k, (r: Row) => Rescheduled(r, at))
    {
      if k in rows {
        rows := rows[k := Rescheduled(rows[k], at)];
      }
    }

    method Get(k: Key) returns (found: Option<Delivery>)
      ensures found == if k in rows then Some(Delivery(k, rows[k])) else None
    {
      found := if k in rows then Some(Delivery(k, rows[k])) else None;
    }

    /** Reads the row, then rolls it forward by the delay its own tally earns. */
    method Reschedule(k: Key, policy: Retry.Policy) returns (found: bool)
      modifies this
      ensures found <==> k in old(rows)
      ensures !found ==> rows == old(rows)
      ensures found ==>
        var was := old(rows)[k];
        && k in rows && rows == old(rows)[k := was.(status := Scheduled, attempts := was.attempts + 1, scheduledAt := rows[k].scheduledAt)]
        && BackedOff(policy, rows[k], was.attempts)
    {
      var d := Get(k);
      if d.None? {
        return false;
      }
      Retry.DefaultRetries(d.value.row.originalAt, d.value.row.attempts, policy.overflow);
      ReschedulePool(k, policy.NextRetryAt(d.value.row.originalAt, d.value.row.attempts));
      return true;
    }

    method Clean(k: Key)
      modifies this
      ensures rows == old(rows) - {k}
    {
      rows := rows - {k};
    }
  }

  function StrandedKeys(rows: map<Key, Row>, t: Target, cutoff: int): set<Key> {
    set k | k in rows && Stranded(rows[k], t, cutoff)
  }
}
