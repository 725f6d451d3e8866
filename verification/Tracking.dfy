/** Tracking Modes as points of a scale, three levels of statements about them, and
    the one Policy those come to. */
module Tracking {
  import opened Prelude

  /** A Mode is its text. The empty text states nothing; any text off the scale is a
      statement this build cannot read. */
  type Mode = string

  const UNSPECIFIED: Mode := ""
  const OFF: Mode := "off"
  const ANONYMOUS: Mode := "anonymous"
  const PSEUDONYMOUS: Mode := "pseudonymous"
  const IDENTIFIED: Mode := "identified"
  const FULL: Mode := "full"

  /** The position on the scale, less to more collection. */
  function Rank(m: Mode): Option<nat> {
    if m == OFF then Some(0)
    else if m == ANONYMOUS then Some(1)
    else if m == PSEUDONYMOUS then Some(2)
    else if m == IDENTIFIED then Some(3)
    else if m == FULL then Some(4)
    else None
  }

  predicate States(m: Mode) {
    m != UNSPECIFIED
  }

  /** What is acted on for m: a statement that cannot be read collects nothing. */
  function Collected(m: Mode): (c: Mode)
    ensures Rank(c).Some?
  {
    if Rank(m).Some? then m else OFF
  }

  function CollectedRank(m: Mode): nat {
    Rank(Collected(m)).value
  }

  /** Silence reaches every rung. */
  predicate Reaches(m: Mode, rung: Mode)
    requires Rank(rung).Some?
  {
    !States(m) || CollectedRank(m) >= Rank(rung).value
  }

  predicate IdentifiesRecipient(m: Mode) {
    Reaches(m, IDENTIFIED)
  }

  predicate IsolatesRecipient(m: Mode) {
    Reaches(m, PSEUDONYMOUS)
  }

  /** What the Modes tell: silence restrains nothing, and what cannot be read tells
      nothing. */
  lemma ModesThatTell(m: Mode)
    ensures IdentifiesRecipient(m) <==> m in {UNSPECIFIED, IDENTIFIED, FULL}
    ensures IsolatesRecipient(m) <==> m in {UNSPECIFIED, PSEUDONYMOUS, IDENTIFIED, FULL}
    ensures Collected(m) == if m in {ANONYMOUS, PSEUDONYMOUS, IDENTIFIED, FULL} then m else OFF
    ensures CollectedRank(OFF) < CollectedRank(ANONYMOUS) < CollectedRank(PSEUDONYMOUS) < CollectedRank(IDENTIFIED) < CollectedRank(FULL)
  {
  }

  datatype Policy = Policy(opens: Mode, links: Mode)

  const SILENT := Policy(UNSPECIFIED, UNSPECIFIED)

  datatype Axis = Opens | Links

  function On(p: Policy, axis: Axis): Mode {
    match axis
    case Opens => p.opens
    case Links => p.links
  }

  // ---- The cascade ----

  predicate AnyStates(modes: seq<Mode>) {
    exists i :: 0 <= i < |modes| && States(modes[i])
  }

  function MostRestrictive(modes: seq<Mode>): (r: Mode)
    ensures Rank(r).Some?
  {
    if |modes| == 0 then OFF
    else
      var before, m := modes[..|modes| - 1], modes[|modes| - 1];
      var out := MostRestrictive(before);
      if !States(m) then out
      else if !AnyStates(before) || CollectedRank(m) < Rank(out).value then Collected(m)
      else out
  }

  lemma AnyStatesSnoc(modes: seq<Mode>, m: Mode)
    ensures AnyStates(modes + [m]) <==> AnyStates(modes) || States(m)
  {
    assert (modes + [m])[|modes|] == m;
    if j :| 0 <= j < |modes| && States(modes[j]) {
      assert States((modes + [m])[j]);
    }
  }

  /** The scan of the stated Modes, keeping the lowest seen. */
  method FindMostRestrictive(modes: seq<Mode>) returns (out: Mode)
    ensures out == MostRestrictive(modes)
  {
    out := OFF;
    var outRank, found := 0, false;
    for i := 0 to |modes|
      invariant out == MostRestrictive(modes[..i])
      invariant found <==> AnyStates(modes[..i])
      invariant Rank(out) == Some(outRank)
    {
      var m := modes[i];
      assert modes[..i + 1][..i] == modes[..i];
      AnyStatesSnoc(modes[..i], m);
      assert modes[..i + 1] == modes[..i] + [m];
      if !States(m) {
        continue;
      }
      var mode, rank := Collected(m), CollectedRank(m);
      if !found || rank < outRank {
        out, outRank, found := mode, rank, true;
      }
    }
    assert modes[..|modes|] == modes;
  }

  function Resolve(domain: Policy, batch: Policy, recipient: Policy): Policy {
    Policy(
      MostRestrictive([domain.opens, batch.opens, recipient.opens]),
      MostRestrictive([domain.links, batch.links, recipient.links])
    )
  }

  function Normalized(p: Policy): Policy {
    Resolve(p, SILENT, SILENT)
  }

  /** r is what a list of statements comes to: nothing, if none states anything, or
      the least collected by any that does. Ranks being distinct, this is one Mode. */
  ghost predicate IsLeastStated(r: Mode, modes: seq<Mode>) {
    if AnyStates(modes) then
      && (exists i :: 0 <= i < |modes| && States(modes[i]) && Collected(modes[i]) == r)
      && forall i :: 0 <= i < |modes| && States(modes[i]) ==> CollectedRank(r) <= CollectedRank(modes[i])
    else r == OFF
  }

  lemma RanksAreDistinct(m: Mode, m': Mode)
    requires Rank(m).Some? && Rank(m) == Rank(m')
    ensures m == m'
  {
  }

  lemma {:induction false} MostRestrictiveIsLeastStated(modes: seq<Mode>, r: Mode)
    ensures r == MostRestrictive(modes) <==> IsLeastStated(r, modes)
  {
    hide MostRestrictive, Rank, Collected;
    LeastIsStated(modes);
    var least := MostRestrictive(modes);
    if IsLeastStated(r, modes) && AnyStates(modes) {
      var i :| 0 <= i < |modes| && States(modes[i]) && Collected(modes[i]) == r;
      var j :| 0 <= j < |modes| && States(modes[j]) && Collected(modes[j]) == least;
      ReadableIsStated(r);
      ReadableIsStated(least);
      RanksAreDistinct(r, least);
    }
  }

  lemma {:induction false} LeastIsStated(modes: seq<Mode>)
    ensures IsLeastStated(MostRestrictive(modes), modes)
  {
    hide Rank;
    if |modes| > 0 {
      var before, m := modes[..|modes| - 1], modes[|modes| - 1];
      LeastIsStated(before);
      assert modes == before + [m];
      assert States(m) ==> AnyStates(modes);
      if j :| 0 <= j < |before| && States(before[j]) && Collected(before[j]) == MostRestrictive(before) {
        assert States(modes[j]) && Collected(modes[j]) == MostRestrictive(before);
      }
    }
  }

  /** The Policy frozen on a Delivery, per axis: always stated and readable; at most
      what each level that speaks collects, and exactly what one of them does; off
      when none speaks; and already in normal form. */
  lemma ResolvedPolicy(domain: Policy, batch: Policy, recipient: Policy, axis: Axis)
    ensures var r, stated := On(Resolve(domain, batch, recipient), axis), [On(domain, axis), On(batch, axis), On(recipient, axis)];
      && States(r) && Rank(r).Some?
      && (forall m :: m in stated && States(m) ==> Rank(r).value <= CollectedRank(m))
      && (r == OFF || exists m :: m in stated && States(m) && Collected(m) == r)
      && ((forall m :: m in stated ==> !States(m)) ==> r == OFF)
    ensures var r := Resolve(domain, batch, recipient); Normalized(r) == r
  {
    hide Rank;
    var stated := [On(domain, axis), On(batch, axis), On(recipient, axis)];
    LeastIsStated(stated);
    assert MostRestrictive(stated) == On(Resolve(domain, batch, recipient), axis);
    NormalForm(Resolve(domain, batch, recipient));
    ReadableIsStated(MostRestrictive(stated));
    if AnyStates(stated) {
      var i :| 0 <= i < |stated| && States(stated[i]) && Collected(stated[i]) == MostRestrictive(stated);
      assert stated[i] in stated;
    }
  }

  lemma ReadableIsStated(m: Mode)
    ensures Rank(m).Some? ==> States(m) && Collected(m) == m
  {
  }

  lemma OneStatement(m: Mode)
    ensures MostRestrictive([m, UNSPECIFIED, UNSPECIFIED]) == if States(m) then Collected(m) else OFF
  {
    hide Rank;
    var modes := [m, UNSPECIFIED, UNSPECIFIED];
    if States(m) {
      assert States(modes[0]);
      assert forall i :: 0 <= i < |modes| && States(modes[i]) ==> i == 0;
      MostRestrictiveIsLeastStated(modes, Collected(m));
      ReadableIsStated(Collected(m));
    } else {
      MostRestrictiveIsLeastStated(modes, OFF);
    }
  }

  /** Normalizing keeps exactly the Policies whose two Modes are readable. */
  lemma NormalForm(p: Policy)
    ensures Normalized(p) == p <==> Rank(p.opens).Some? && Rank(p.links).Some?
    ensures Normalized(Normalized(p)) == Normalized(p)
  {
    hide Rank;
    OneStatement(p.opens);
    OneStatement(p.links);
    OneStatement(Normalized(p).opens);
    OneStatement(Normalized(p).links);
    ReadableIsStated(p.opens);
    ReadableIsStated(p.links);
    ReadableIsStated(Normalized(p).opens);
    ReadableIsStated(Normalized(p).links);
  }

  lemma LeastOfThree(d: Mode, b: Mode, r: Mode)
    ensures var rank := CollectedRank(MostRestrictive([d, b, r]));
      && (States(d) ==> rank <= CollectedRank(d))
      && (States(b) ==> rank <= CollectedRank(b))
      && (States(r) ==> rank <= CollectedRank(r))
      && ((States(d) && rank == CollectedRank(d)) || (States(b) && rank == CollectedRank(b)) || (States(r) && rank == CollectedRank(r))
          || (!States(d) && !States(b) && !States(r) && rank == 0))
  {
    hide Rank, MostRestrictive;
    var modes := [d, b, r];
    LeastIsStated(modes);
    OffIsTheFloor();
    ReadableIsStated(MostRestrictive(modes));
    assert modes[0] == d && modes[1] == b && modes[2] == r;
    if !AnyStates(modes) {
      assert !States(modes[0]) && !States(modes[1]) && !States(modes[2]);
    }
  }

  /** A statement at the lowest level never widens what the levels above come to,
      except where they are all silent and it asks for something. */
  lemma WhenALowerLevelWidens(domain: Policy, batch: Policy, recipient: Policy, axis: Axis)
    ensures var above, all := On(Resolve(domain, batch, SILENT), axis), On(Resolve(domain, batch, recipient), axis);
      CollectedRank(all) <= CollectedRank(above) <==>
        States(On(domain, axis)) || States(On(batch, axis)) || CollectedRank(On(recipient, axis)) == 0
  {
    hide Rank, MostRestrictive, CollectedRank;
    var d, b, r := On(domain, axis), On(batch, axis), On(recipient, axis);
    LeastOfThree(d, b, UNSPECIFIED);
    LeastOfThree(d, b, r);
    OffIsTheFloor();
  }

  lemma OffIsTheFloor()
    ensures Rank(OFF) == Some(0) && CollectedRank(UNSPECIFIED) == 0
  {
  }

  // ---- The ceiling ----

  datatype Violation = Violation(axis: Axis, ceiling: Mode, stated: Mode)

  function AxisViolation(axis: Axis, ceiling: Mode, stated: Mode): Option<Violation> {
    if !States(stated) || !States(ceiling) then None
    else if CollectedRank(stated) <= CollectedRank(ceiling) then None
    else Some(Violation(axis, ceiling, stated))
  }

  /** What is stated beyond the level above, opens first. */
  method FindCeilingViolations(ceiling: Policy, stated: Policy) returns (violations: seq<Violation>)
    ensures violations == CeilingViolations(ceiling, stated)
    ensures |violations| > 1 ==> |violations| == 2 && violations[0].axis.Opens? && violations[1].axis.Links?
  {
    violations := [];
    var v := AxisViolation(Opens, ceiling.opens, stated.opens);
    if v.Some? {
      violations := violations + [v.value];
    }
    v := AxisViolation(Links, ceiling.links, stated.links);
    if v.Some? {
      violations := violations + [v.value];
    }
  }

  function CeilingViolations(ceiling: Policy, stated: Policy): seq<Violation> {
    var opens, links := AxisViolation(Opens, ceiling.opens, stated.opens), AxisViolation(Links, ceiling.links, stated.links);
    (if opens.Some? then [opens.value] else []) + (if links.Some? then [links.value] else [])
  }

  /** The check and the cascade agree: an axis is reported, with both Modes as they
      were written, exactly when resolving under that ceiling would give the level
      that states it less than it stated. */
  lemma ViolationsAreWhatTheCascadeWouldClamp(ceiling: Policy, stated: Policy, axis: Axis)
    ensures Violation(axis, On(ceiling, axis), On(stated, axis)) in CeilingViolations(ceiling, stated) <==>
      States(On(stated, axis)) && On(Resolve(ceiling, stated, SILENT), axis) != Collected(On(stated, axis))
    ensures forall v :: v in CeilingViolations(ceiling, stated) ==> v == Violation(v.axis, On(ceiling, v.axis), On(stated, v.axis))
  {
    hide Rank;
    var c, s := On(ceiling, axis), On(stated, axis);
    assert On(Resolve(ceiling, stated, SILENT), axis) == MostRestrictive([c, s, UNSPECIFIED]);
    assert Violation(axis, c, s) in CeilingViolations(ceiling, stated) <==> AxisViolation(axis, c, s).Some?;
    var both := [c, s, UNSPECIFIED];
    if States(s) {
      assert States(both[1]);
      MostRestrictiveIsLeastStated(both, Collected(s));
      ReadableIsStated(Collected(s));
      if States(c) {
        assert States(both[0]);
      }
    }
  }

  /** What is frozen on a Delivery never exceeds its Domain's ceiling. */
  lemma ResolvedIsUnderTheCeiling(domain: Policy, batch: Policy, recipient: Policy)
    ensures CeilingViolations(domain, Resolve(domain, batch, recipient)) == []
  {
    hide Rank, Resolve;
    var r := Resolve(domain, batch, recipient);
    ResolvedPolicy(domain, batch, recipient, Opens);
    ResolvedPolicy(domain, batch, recipient, Links);
    ReadableIsStated(r.opens);
    ReadableIsStated(r.links);
  }
}
