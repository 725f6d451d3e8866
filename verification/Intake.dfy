/** Intake of a Batch: each Recipient is accepted onto the Pool or refused with one
    reason, and what is accepted is frozen within its Domain's ceiling. */
module Intake {
  import opened Prelude
  import opened Tracking
  import opened Templates
  import DomainNames
  import Pool

  /** One row of the request. Its Policy is an error when it named a Mode unknown
      here. */
  datatype Recipient = Recipient(email: string, fields: Fields, tracking: Result<Policy, string>)

  datatype Reason = InvalidEmail | TrackingAboveCeiling | UnsupportedTrackingMode | UnsubscribeURLUnresolved

  datatype Rejection = Rejection(email: string, reason: Reason)

  datatype Delivery = Delivery(batchID: string, email: string, fields: Fields, domain: string, scheduledTime: int, tracking: Policy)

  /** What one call of the API fixes for every Recipient of its Batch. */
  datatype Batch = Batch(id: string, domain: string, ceiling: Policy, states: Policy, urlTemplate: string, scheduledTime: int)

  /** The Unicode notion of space, and the expression engine on names that are not
      plain. */
  datatype Library = Library(space: char -> bool, other: Engine)

  predicate HasAddress(lib: Library, email: string) {
    DomainNames.Trim(lib.space, email) != ""
  }

  /** delivery.New: the Policy is stored in normal form. */
  function NewDelivery(b: Batch, r: Recipient, policy: Policy): Result<Delivery, string> {
    if b.id == "" then Err("batch ID is required")
    else if r.email == "" then Err("email is required")
    else if b.domain == "" then Err("domain is required")
    else Ok(Delivery(b.id, r.email, r.fields, b.domain, b.scheduledTime, Normalized(policy)))
  }

  function ResolveRecipientTracking(b: Batch, r: Recipient): Result<Policy, Reason> {
    match r.tracking
    case Err(_) => Err(UnsupportedTrackingMode)
    case Ok(stated) =>
      if CeilingViolations(b.ceiling, stated) != [] then Err(TrackingAboveCeiling)
      else Ok(Resolve(b.ceiling, b.states, stated))
  }

  /** The template is resolved by the Recipient's fields, in this run's order. */
  predicate URLResolves(lib: Library, b: Batch, r: Recipient, order: seq<string>) {
    b.urlTemplate == "" || !HasUnresolvedPlaceholders(Substituted(lib.other, b.urlTemplate, Effective(r.email, r.fields), order))
  }

  /** The first ground on which r is refused, or its Delivery. */
  function Judged(lib: Library, b: Batch, r: Recipient, order: seq<string>): Result<Delivery, Reason> {
    if !HasAddress(lib, r.email) then Err(InvalidEmail)
    else
      match ResolveRecipientTracking(b, r)
      case Err(reason) => Err(reason)
      case Ok(policy) =>
        if !URLResolves(lib, b, r, order) then Err(UnsubscribeURLUnresolved)
        else
          match NewDelivery(b, r, policy)
          case Err(_) => Err(InvalidEmail)
          case Ok(d) => Ok(d)
  }

  type Verdicts = seq<Result<Delivery, Reason>>

  function Accepted(vs: Verdicts): seq<Delivery> {
    if |vs| == 0 then []
    else Accepted(vs[..|vs| - 1]) + if vs[|vs| - 1].Ok? then [vs[|vs| - 1].value] else []
  }

  function Refused(rs: seq<Recipient>, vs: Verdicts): seq<Rejection>
    requires |rs| == |vs|
  {
    if |vs| == 0 then []
    else Refused(rs[..|rs| - 1], vs[..|vs| - 1]) + if vs[|vs| - 1].Err? then [Rejection(rs[|rs| - 1].email, vs[|vs| - 1].error)] else []
  }

  function KeysOf(ds: seq<Delivery>): seq<Pool.Key> {
    seq(|ds|, i requires 0 <= i < |ds| => Pool.Key(ds[i].batchID, ds[i].email))
  }

  lemma SomeOrder(fields: Fields) returns (order: seq<string>)
    ensures IsOrderOf(order, fields)
    decreases fields.Keys
  {
    if fields.Keys == {} {
      order := [];
    } else {
      var k :| k in fields;
      var rest := SomeOrder(fields - {k});
      order := rest + [k];
    }
  }

  /** The verdicts of one run, each over an order of its Recipient's fields. */
  ghost predicate AreVerdicts(lib: Library, b: Batch, rs: seq<Recipient>, orders: seq<seq<string>>, vs: Verdicts) {
    && |orders| == |vs| == |rs|
    && forall i :: 0 <= i < |rs| ==> IsOrderOf(orders[i], Effective(rs[i].email, rs[i].fields)) && vs[i] == Judged(lib, b, rs[i], orders[i])
  }

  /** The two lists intake fills. */
  class Taken {
    var deliveries: seq<Delivery>
    var rejected: seq<Rejection>

    constructor ()
      ensures deliveries == [] && rejected == []
    {
      deliveries, rejected := [], [];
    }

    method Reject(email: string, reason: Reason)
      modifies this
      ensures deliveries == old(deliveries)
      ensures rejected == old(rejected) + [Rejection(email, reason)]
    {
      rejected := rejected + [Rejection(email, reason)];
    }

    /** One Recipient, ground by ground. */
    method Take(lib: Library, b: Batch, r: Recipient) returns (ghost order: seq<string>)
      modifies this
      ensures IsOrderOf(order, Effective(r.email, r.fields))
      ensures var v := Judged(lib, b, r, order);
        && deliveries == old(deliveries) + (if v.Ok? then [v.value] else [])
        && rejected == old(rejected) + (if v.Err? then [Rejection(r.email, v.error)] else [])
    {
      order := SomeOrder(Effective(r.email, r.fields));
      if !HasAddress(lib, r.email) {
        Reject(r.email, InvalidEmail);
        return;
      }
      if r.tracking.Err? {
        Reject(r.email, UnsupportedTrackingMode);
        return;
      }
      var violations := FindCeilingViolations(b.ceiling, r.tracking.value);
      if |violations| > 0 {
        Reject(r.email, TrackingAboveCeiling);
        return;
      }
      if b.urlTemplate != "" {
        var fields := EffectiveFields(r.email, r.fields);
        var resolved;
        resolved, order := ReplaceCustomFieldsInURL(lib.other, b.urlTemplate, fields);
        if HasUnresolvedPlaceholders(resolved) {
          Reject(r.email, UnsubscribeURLUnresolved);
          return;
        }
      }
      var d := NewDelivery(b, r, Resolve(b.ceiling, b.states, r.tracking.value));
      if d.Err? {
        Reject(r.email, InvalidEmail);
        return;
      }
      deliveries := deliveries + [d.value];
    }
  }

  lemma OneMoreVerdict(rs: seq<Recipient>, vs: Verdicts, r: Recipient, v: Result<Delivery, Reason>)
    requires |rs| == |vs|
    ensures Accepted(vs + [v]) == Accepted(vs) + if v.Ok? then [v.value] else []
    ensures Refused(rs + [r], vs + [v]) == Refused(rs, vs) + if v.Err? then [Rejection(r.email, v.error)] else []
  {
    assert (vs + [v])[..|vs|] == vs && (rs + [r])[..|rs|] == rs;
  }

  /** Judges every Recipient in turn. */
  method TakeAll(lib: Library, b: Batch, rs: seq<Recipient>)
    returns (taken: Taken, ghost orders: seq<seq<string>>, ghost vs: Verdicts)
    ensures fresh(taken)
    ensures AreVerdicts(lib, b, rs, orders, vs)
    ensures taken.deliveries == Accepted(vs) && taken.rejected == Refused(rs, vs)
  {
    hide Judged, IsOrderOf, Effective, Accepted, Refused;
    taken := new Taken();
    orders, vs := [], [];
    NoVerdicts();
    for i := 0 to |rs|
      invariant fresh(taken)
      invariant AreVerdicts(lib, b, rs[..i], orders, vs)
      invariant taken.deliveries == Accepted(vs) && taken.rejected == Refused(rs[..i], vs)
    {
      ghost var order := taken.Take(lib, b, rs[i]);
      ghost var v := Judged(lib, b, rs[i], order);
      OneMoreVerdict(rs[..i], vs, rs[i], v);
      assert rs[..i + 1] == rs[..i] + [rs[i]];
      orders, vs := orders + [order], vs + [v];
    }
    assert rs[..|rs|] == rs;
  }

  lemma NoVerdicts()
    ensures Accepted([]) == [] && Refused([], []) == []
  {
  }

  /** Schedules what was accepted: all of it, or none when the table will not have
      it. A Batch of which nothing is left is not an error. */
  method ScheduleBatch(lib: Library, b: Batch, rs: seq<Recipient>, table: Pool.Table)
    returns (taken: Taken, ok: bool, ghost orders: seq<seq<string>>, ghost vs: Verdicts)
    modifies table
    ensures AreVerdicts(lib, b, rs, orders, vs)
    ensures taken.deliveries == Accepted(vs) && taken.rejected == Refused(rs, vs)
    ensures ok <==> Pool.Insertable(old(table.rows), KeysOf(Accepted(vs)))
    ensures table.rows == if ok then old(table.rows) + map k | k in KeysOf(Accepted(vs)) :: Pool.NewRow(b.scheduledTime) else old(table.rows)
  {
    hide AreVerdicts, Accepted, Refused;
    taken, orders, vs := TakeAll(lib, b, rs);
    ok := true;
    if |taken.deliveries| > 0 {
      ok := table.Schedule(KeysOf(taken.deliveries), b.scheduledTime);
    }
  }

  // ---- A partition, in order ----

  /** The counts add up, and the i-th Recipient is where its verdict puts it: among
      the accepted after those accepted before it, or among the refused after those
      refused before it, with the one reason. */
  lemma {:induction false} IntakePartitions(rs: seq<Recipient>, vs: Verdicts, i: nat)
    requires |rs| == |vs| && i < |rs|
    ensures |Accepted(vs)| + |Refused(rs, vs)| == |rs|
    ensures var k := |Accepted(vs[..i])|;
      && k <= i
      && (vs[i].Ok? ==> k < |Accepted(vs)| && Accepted(vs)[k] == vs[i].value)
      && (vs[i].Err? ==> i - k < |Refused(rs, vs)| && Refused(rs, vs)[i - k] == Rejection(rs[i].email, vs[i].error))
  {
    var rs', vs' := rs[..|rs| - 1], vs[..|vs| - 1];
    CountsAddUp(rs, vs);
    if i < |rs'| {
      IntakePartitions(rs', vs', i);
      assert vs'[..i] == vs[..i];
    } else {
      CountsAddUp(rs', vs');
    }
  }

  lemma {:induction false} CountsAddUp(rs: seq<Recipient>, vs: Verdicts)
    requires |rs| == |vs|
    ensures |Accepted(vs)| + |Refused(rs, vs)| == |rs|
  {
    if |vs| > 0 {
      CountsAddUp(rs[..|rs| - 1], vs[..|vs| - 1]);
    }
  }

  // ---- What is refused, and why ----

  lemma AddressedMeans(lib: Library, email: string)
    ensures HasAddress(lib, email) <==> exists i :: 0 <= i < |email| && !lib.space(email[i])
  {
    hide DomainNames.Trim;
    var before, after := DomainNames.TrimIs(lib.space, email);
    DomainNames.PaddedOrEmpty(lib.space, email, before, DomainNames.Trim(lib.space, email), after);
  }

  /** A statement of the Recipient's that collects more than the Domain's ceiling. */
  predicate Exceeds(b: Batch, stated: Policy, axis: Axis) {
    States(On(stated, axis)) && States(On(b.ceiling, axis)) && CollectedRank(On(stated, axis)) > CollectedRank(On(b.ceiling, axis))
  }

  /** The one reason a Recipient is refused for is the first that holds: an address of
      spaces only; a Mode unknown here; a Mode beyond the ceiling on some axis; an
      unsubscribe URL left with a placeholder; and a Batch without an identifier or a
      Domain, told as an address too. */
  lemma RefusedFor(lib: Library, b: Batch, r: Recipient, order: seq<string>)
    ensures var v, addressed, readable := Judged(lib, b, r, order), exists i :: 0 <= i < |r.email| && !lib.space(r.email[i]), r.tracking.Ok?;
      var exceeds := readable && (Exceeds(b, r.tracking.value, Opens) || Exceeds(b, r.tracking.value, Links));
      var unresolved := b.urlTemplate != "" && ResolvedURL(lib.other, b.urlTemplate, Effective(r.email, r.fields), order).None?;
      && (v == Err(UnsupportedTrackingMode) <==> addressed && !readable)
      && (v == Err(TrackingAboveCeiling) <==> addressed && readable && exceeds)
      && (v == Err(UnsubscribeURLUnresolved) <==> addressed && readable && !exceeds && unresolved)
      && (v == Err(InvalidEmail) <==> !addressed || (readable && !exceeds && !unresolved && (b.id == "" || b.domain == "")))
  {
    hide Rank, Substituted, HasUnresolvedPlaceholders, HasAddress, Normalized, Resolve, CollectedRank;
    AddressedMeans(lib, r.email);
    if r.tracking.Ok? {
      assert CeilingViolations(b.ceiling, r.tracking.value) != [] <==> Exceeds(b, r.tracking.value, Opens) || Exceeds(b, r.tracking.value, Links);
    }
  }

  // ---- What is accepted ----

  /** The Policy frozen on an accepted Delivery: per axis the least of the three
      stated, stated and readable itself, in normal form, and under the Domain's
      ceiling. Where the Batch is silent it is what the Recipient stated. */
  lemma AcceptedPolicy(lib: Library, b: Batch, r: Recipient, order: seq<string>, axis: Axis)
    requires Judged(lib, b, r, order).Ok?
    ensures r.tracking.Ok?
    ensures var p, mine := Judged(lib, b, r, order).value.tracking, On(r.tracking.value, axis);
      && IsLeastStated(On(p, axis), [On(b.ceiling, axis), On(b.states, axis), mine])
      && States(On(p, axis)) && Rank(On(p, axis)).Some?
      && Normalized(p) == p
      && CeilingViolations(b.ceiling, p) == []
      && (States(mine) && !States(On(b.states, axis)) ==> On(p, axis) == Collected(mine))
  {
    hide Rank, MostRestrictive, HasAddress, URLResolves, CeilingViolations;
    var stated := r.tracking.value;
    var p := Resolve(b.ceiling, b.states, stated);
    ResolvedPolicy(b.ceiling, b.states, stated, axis);
    ResolvedIsUnderTheCeiling(b.ceiling, b.states, stated);
    assert Judged(lib, b, r, order).value.tracking == p;
    var d, m, s := On(b.ceiling, axis), On(b.states, axis), On(stated, axis);
    assert On(p, axis) == MostRestrictive([d, m, s]);
    LeastIsStated([d, m, s]);
    if States(s) && !States(m) {
      ViolationsAreWhatTheCascadeWouldClamp(b.ceiling, stated, axis);
      assert On(Resolve(b.ceiling, stated, SILENT), axis) == MostRestrictive([d, s, UNSPECIFIED]);
      SilenceAnywhere(d, s, m);
    }
  }

  lemma SilenceAnywhere(d: Mode, s: Mode, m: Mode)
    requires !States(m)
    ensures MostRestrictive([d, s, UNSPECIFIED]) == MostRestrictive([d, m, s])
  {
    hide Rank, MostRestrictive;
    var x, y := [d, s, UNSPECIFIED], [d, m, s];
    assert x[0] == y[0] && x[1] == y[2];
    LeastIsStated(y);
    MostRestrictiveIsLeastStated(x, MostRestrictive(y));
  }

  // ---- What the Builder makes of it ----

  /** From intake to the Builder: over a flat template, a Delivery accepted in one run
      gets its header in every later one, whatever orders the two iterate in, and a
      Recipient refused for its URL would have had none. */
  lemma AcceptedGetsItsHeader(lib: Library, b: Batch, r: Recipient, ps: seq<Piece>, intake: seq<string>, builder: seq<string>)
    requires b.urlTemplate == Render(ps) && IsFlat(ps) && forall k :: k in r.fields ==> IsPlain(k)
    requires IsOrderOf(intake, Effective(r.email, r.fields)) && IsOrderOf(builder, Effective(r.email, r.fields))
    ensures var v := Judged(lib, b, r, intake);
      && (v.Ok? ==> v.value.email == r.email && v.value.fields == r.fields)
      && (v.Ok? && b.urlTemplate != "" ==>
            ResolvedURL(lib.other, b.urlTemplate, Effective(v.value.email, v.value.fields), builder)
            == Some(Render(Fill(ps, Effective(r.email, r.fields)))))
      && (v == Err(UnsubscribeURLUnresolved) ==> ResolvedURL(lib.other, b.urlTemplate, Effective(r.email, r.fields), builder).None?)
  {
    hide Substituted, HasUnresolvedPlaceholders, Effective, Render, Fill, IsOrderOf, IsFlat, IsPlain, HasAddress, ResolveRecipientTracking;
    IntakeAgreesWithTheBuilder(lib.other, ps, r.email, r.fields, intake, builder);
    TrackingReasons(b, r);
  }

  lemma TrackingReasons(b: Batch, r: Recipient)
    ensures ResolveRecipientTracking(b, r).Err? ==> ResolveRecipientTracking(b, r).error != UnsubscribeURLUnresolved
  {
  }

  // ---- When the table takes it ----

  /** Under a fresh Batch, what was accepted can be scheduled exactly when no address
      was accepted twice; otherwise the index refuses every one of them. */
  lemma ScheduledUnlessAnAddressRepeats(rows: map<Pool.Key, Pool.Row>, b: Batch, ds: seq<Delivery>)
    requires forall d :: d in ds ==> d.batchID == b.id
    requires forall k :: k in rows ==> k.batchId != b.id
    ensures Pool.Insertable(rows, KeysOf(ds)) <==> forall i, j :: 0 <= i < j < |ds| ==> ds[i].email != ds[j].email
  {
    var ks := KeysOf(ds);
    assert forall i :: 0 <= i < |ds| ==> ds[i] in ds && ks[i] == Pool.Key(b.id, ds[i].email);
    if Pool.Insertable(rows, ks) {
      forall i, j | 0 <= i < j < |ds| ensures ds[i].email != ds[j].email {
        assert ks[i] != ks[j];
      }
    }
  }

  lemma {:induction false} AcceptedAreOfTheBatch(lib: Library, b: Batch, rs: seq<Recipient>, orders: seq<seq<string>>, vs: Verdicts, d: Delivery)
    requires AreVerdicts(lib, b, rs, orders, vs) && d in Accepted(vs)
    ensures d.batchID == b.id && d.domain == b.domain && d.scheduledTime == b.scheduledTime
    ensures exists i :: 0 <= i < |rs| && vs[i] == Ok(d) && d.email == rs[i].email && d.fields == rs[i].fields && HasAddress(lib, d.email)
  {
    hide Resolve, CeilingViolations, HasAddress, URLResolves, IsOrderOf, Normalized;
    var last := |vs| - 1;
    if d in Accepted(vs[..last]) {
      AcceptedAreOfTheBatch(lib, b, rs[..last], orders[..last], vs[..last], d);
      var i :| 0 <= i < last && vs[..last][i] == Ok(d) && d.email == rs[..last][i].email && d.fields == rs[..last][i].fields && HasAddress(lib, d.email);
      assert vs[i] == Ok(d);
    } else {
      assert vs[last] == Judged(lib, b, rs[last], orders[last]) == Ok(d);
    }
  }
}
