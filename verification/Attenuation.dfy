/** Narrowing a Principal to concrete Resources: authority can only shrink. */
module Attenuation {
  import opened Prelude
  import opened Authz

  /** g may be narrowed to r: its Role is known, it already reaches r, and the Role
      fits that kind of path. */
  predicate Narrows(cat: Catalogue, g: Grant, r: Resource) {
    g.role in cat && g.anchor.Covers(r) && cat[g.role].scope.AdmitsNarrowingTo(AnchorOf(r).Kind())
  }

  /** Each Resource once, where it is first asked. */
  function Asked(rs: seq<Resource>): seq<Resource> {
    if |rs| == 0 then []
    else
      var before, r := Asked(rs[..|rs| - 1]), rs[|rs| - 1];
      if r in before then before else before + [r]
  }

  /** The Roles narrowed to r, each once, in the order of the Grants. */
  function Taken(cat: Catalogue, gs: seq<Grant>, r: Resource): seq<string> {
    if |gs| == 0 then []
    else
      var before, g := Taken(cat, gs[..|gs| - 1], r), gs[|gs| - 1];
      if g.role in before || !Narrows(cat, g, r) then before else before + [g.role]
  }

  function GrantsAt(roles: seq<string>, r: Resource): seq<Grant> {
    seq(|roles|, i requires 0 <= i < |roles| => Grant(roles[i], AnchorOf(r)))
  }

  function Narrowed(cat: Catalogue, gs: seq<Grant>, asked: seq<Resource>): seq<Grant> {
    if |asked| == 0 then []
    else Narrowed(cat, gs, asked[..|asked| - 1]) + GrantsAt(Taken(cat, gs, asked[|asked| - 1]), asked[|asked| - 1])
  }

  function Dropped(cat: Catalogue, gs: seq<Grant>, asked: seq<Resource>): seq<Resource> {
    if |asked| == 0 then []
    else
      var before, r := Dropped(cat, gs, asked[..|asked| - 1]), asked[|asked| - 1];
      if |Taken(cat, gs, r)| == 0 then before + [r] else before
  }

  function Attenuated(cat: Catalogue, p: Principal, rs: seq<Resource>): Principal {
    p.(grants := Narrowed(cat, p.grants, Asked(rs)))
  }

  method Attenuate(cat: Catalogue, p: Principal, rs: seq<Resource>) returns (narrowed: Principal, dropped: seq<Resource>)
    ensures narrowed == Attenuated(cat, p, rs)
    ensures narrowed.id == p.id && narrowed.attribution == p.attribution
    ensures dropped == Dropped(cat, p.grants, Asked(rs))
  {
    var grants: seq<Grant> := [];
    dropped := [];
    var asked: seq<Resource> := [];
    for i := 0 to |rs|
      invariant asked == Asked(rs[..i])
      invariant grants == Narrowed(cat, p.grants, asked)
      invariant dropped == Dropped(cat, p.grants, asked)
    {
      var r := rs[i];
      assert rs[..i + 1][..i] == rs[..i];
      if r in asked {
        continue;
      }
      var taken: seq<string> := [];
      var at: seq<Grant> := [];
      for j := 0 to |p.grants|
        invariant taken == Taken(cat, p.grants[..j], r)
        invariant at == GrantsAt(taken, r)
      {
        var g := p.grants[j];
        assert p.grants[..j + 1][..j] == p.grants[..j];
        if g.role in taken || g.role !in cat || !g.anchor.Covers(r) || !cat[g.role].scope.AdmitsNarrowingTo(AnchorOf(r).Kind()) {
          continue;
        }
        taken := taken + [g.role];
        at := at + [Grant(g.role, AnchorOf(r))];
      }
      assert p.grants[..|p.grants|] == p.grants;
      assert (asked + [r])[..|asked|] == asked;
      asked := asked + [r];
      grants := grants + at;
      if |taken| == 0 {
        dropped := dropped + [r];
      }
    }
    assert rs[..|rs|] == rs;
    narrowed := p.(grants := grants);
  }

  // ---- Normal form ----

  lemma {:induction false} AskedIsTheSet(rs: seq<Resource>)
    ensures forall r :: r in Asked(rs) <==> r in rs
    ensures forall i, j :: 0 <= i < j < |Asked(rs)| ==> Asked(rs)[i] != Asked(rs)[j]
  {
    if |rs| > 0 {
      AskedIsTheSet(rs[..|rs| - 1]);
      assert rs == rs[..|rs| - 1] + [rs[|rs| - 1]];
    }
  }

  lemma {:induction false} TakenIsTheSet(cat: Catalogue, gs: seq<Grant>, r: Resource)
    ensures forall role :: role in Taken(cat, gs, r) <==> exists g :: g in gs && g.role == role && Narrows(cat, g, r)
    ensures forall i, j :: 0 <= i < j < |Taken(cat, gs, r)| ==> Taken(cat, gs, r)[i] != Taken(cat, gs, r)[j]
  {
    hide Narrows;
    if |gs| > 0 {
      var before, last := gs[..|gs| - 1], gs[|gs| - 1];
      TakenIsTheSet(cat, before, r);
      assert gs == before + [last];
      forall role ensures role in Taken(cat, gs, r) <==> exists g :: g in gs && g.role == role && Narrows(cat, g, r) {
        if role in Taken(cat, before, r) {
          var g :| g in before && g.role == role && Narrows(cat, g, r);
          assert g in gs;
        }
      }
    }
  }

  /** The narrowed Grants, stated without an order: each asked Resource paired with
      the Role of each Grant that narrows to it. */
  ghost predicate IsNarrowedGrant(cat: Catalogue, gs: seq<Grant>, rs: seq<Resource>, n: Grant) {
    exists r, g :: r in rs && g in gs && Narrows(cat, g, r) && n == Grant(g.role, AnchorOf(r))
  }

  lemma GrantsAtAre(roles: seq<string>, r: Resource, n: Grant)
    ensures n in GrantsAt(roles, r) <==> n.anchor == AnchorOf(r) && n.role in roles
  {
    if n.anchor == AnchorOf(r) && n.role in roles {
      var i :| 0 <= i < |roles| && roles[i] == n.role;
      assert GrantsAt(roles, r)[i] == n;
    }
  }

  lemma {:induction false} NarrowedIsTheSet(cat: Catalogue, gs: seq<Grant>, asked: seq<Resource>, n: Grant)
    ensures n in Narrowed(cat, gs, asked) <==> IsNarrowedGrant(cat, gs, asked, n)
  {
    hide Narrows, Taken;
    if |asked| > 0 {
      var before, last := asked[..|asked| - 1], asked[|asked| - 1];
      NarrowedIsTheSet(cat, gs, before, n);
      TakenIsTheSet(cat, gs, last);
      GrantsAtAre(Taken(cat, gs, last), last, n);
      assert asked == before + [last];
      if n in GrantsAt(Taken(cat, gs, last), last) {
        var g :| g in gs && g.role == n.role && Narrows(cat, g, last);
        assert IsNarrowedGrant(cat, gs, asked, n);
      }
      if IsNarrowedGrant(cat, gs, asked, n) {
        var r, g :| r in asked && g in gs && Narrows(cat, g, r) && n == Grant(g.role, AnchorOf(r));
        if r in before {
          assert IsNarrowedGrant(cat, gs, before, n);
        }
      }
    }
  }

  /** No Grant is issued twice. */
  lemma {:induction false} NarrowedHasNoRepeats(cat: Catalogue, gs: seq<Grant>, asked: seq<Resource>)
    requires forall i, j :: 0 <= i < j < |asked| ==> asked[i] != asked[j]
    ensures forall i, j :: 0 <= i < j < |Narrowed(cat, gs, asked)| ==> Narrowed(cat, gs, asked)[i] != Narrowed(cat, gs, asked)[j]
  {
    if |asked| > 0 {
      var before, last := asked[..|asked| - 1], asked[|asked| - 1];
      var ns, at := Narrowed(cat, gs, before), GrantsAt(Taken(cat, gs, last), last);
      NarrowedHasNoRepeats(cat, gs, before);
      TakenIsTheSet(cat, gs, last);
      forall n | n in ns && n in at ensures false {
        NarrowedIsTheSet(cat, gs, before, n);
        GrantsAtAre(Taken(cat, gs, last), last, n);
        var r, g :| r in before && g in gs && Narrows(cat, g, r) && n == Grant(g.role, AnchorOf(r));
        AnchorsAreDistinct(r, last);
      }
      forall i, j | 0 <= i < j < |ns + at| ensures (ns + at)[i] != (ns + at)[j] {
        if i < |ns| <= j {
          assert (ns + at)[i] in ns && (ns + at)[j] in at;
        }
      }
    }
  }

  lemma {:induction false} DroppedIsTheSet(cat: Catalogue, gs: seq<Grant>, asked: seq<Resource>, r: Resource)
    ensures r in Dropped(cat, gs, asked) <==> r in asked && forall g :: g in gs ==> !Narrows(cat, g, r)
  {
    hide Narrows, Taken;
    if |asked| > 0 {
      var before, last := asked[..|asked| - 1], asked[|asked| - 1];
      DroppedIsTheSet(cat, gs, before, r);
      TakenIsTheSet(cat, gs, last);
      assert asked == before + [last];
      if forall g :: g in gs ==> !Narrows(cat, g, last) {
        if |Taken(cat, gs, last)| > 0 {
          assert Taken(cat, gs, last)[0] in Taken(cat, gs, last);
        }
      } else {
        var g :| g in gs && Narrows(cat, g, last);
        assert g.role in Taken(cat, gs, last);
      }
    }
  }

  /** Duplicates and order of what is asked and of what is held are irrelevant: the
      same sets yield the same Grants, each once, and drop the same Resources. */
  lemma NormalForm(cat: Catalogue, p: Principal, p': Principal, rs: seq<Resource>, rs': seq<Resource>)
    requires forall r :: r in rs <==> r in rs'
    requires forall g :: g in p.grants <==> g in p'.grants
    ensures forall n :: n in Attenuated(cat, p, rs).grants <==> n in Attenuated(cat, p', rs').grants
    ensures forall r :: r in Dropped(cat, p.grants, Asked(rs)) <==> r in Dropped(cat, p'.grants, Asked(rs'))
    ensures var ns := Attenuated(cat, p, rs).grants; forall i, j :: 0 <= i < j < |ns| ==> ns[i] != ns[j]
    ensures forall r :: r in Dropped(cat, p.grants, Asked(rs)) <==> r in rs && forall g :: g in p.grants ==> !Narrows(cat, g, r)
  {
    hide Narrows, Narrowed, Dropped;
    AskedIsTheSet(rs);
    AskedIsTheSet(rs');
    NarrowedHasNoRepeats(cat, p.grants, Asked(rs));
    forall n ensures n in Attenuated(cat, p, rs).grants <==> n in Attenuated(cat, p', rs').grants {
      NarrowedIsTheSet(cat, p.grants, Asked(rs), n);
      NarrowedIsTheSet(cat, p'.grants, Asked(rs'), n);
      SameNarrowed(cat, p.grants, p'.grants, Asked(rs), Asked(rs'), n);
    }
    forall r
      ensures r in Dropped(cat, p.grants, Asked(rs)) <==> r in Dropped(cat, p'.grants, Asked(rs'))
      ensures r in Dropped(cat, p.grants, Asked(rs)) <==> r in rs && forall g :: g in p.grants ==> !Narrows(cat, g, r)
    {
      DroppedIsTheSet(cat, p.grants, Asked(rs), r);
      DroppedIsTheSet(cat, p'.grants, Asked(rs'), r);
    }
  }

  lemma SameNarrowed(cat: Catalogue, gs: seq<Grant>, gs': seq<Grant>, rs: seq<Resource>, rs': seq<Resource>, n: Grant)
    requires forall r :: r in rs <==> r in rs'
    requires forall g :: g in gs <==> g in gs'
    ensures IsNarrowedGrant(cat, gs, rs, n) <==> IsNarrowedGrant(cat, gs', rs', n)
  {
  }

  // ---- Attenuating twice ----

  /** What is dropped is listed in the order it was first asked. */
  lemma {:induction false} DroppedInOrder(cat: Catalogue, gs: seq<Grant>, asked: seq<Resource>, i: nat, j: nat)
    returns (p: nat, q: nat)
    requires i < j < |Dropped(cat, gs, asked)|
    ensures p < q < |asked| && asked[p] == Dropped(cat, gs, asked)[i] && asked[q] == Dropped(cat, gs, asked)[j]
  {
    hide Taken;
    var before := asked[..|asked| - 1];
    if j < |Dropped(cat, gs, before)| {
      p, q := DroppedInOrder(cat, gs, before, i, j);
    } else {
      q := |asked| - 1;
      DroppedIsTheSet(cat, gs, before, Dropped(cat, gs, before)[i]);
      p :| 0 <= p < |before| && before[p] == Dropped(cat, gs, before)[i];
    }
  }

  /** Each Resource is asked where it is first. */
  lemma {:induction false} AskedInOrder(rs: seq<Resource>, i: nat, j: nat)
    returns (p: nat, q: nat)
    requires i < j < |Asked(rs)|
    ensures p < q < |rs| && rs[p] == Asked(rs)[i] && rs[q] == Asked(rs)[j] && rs[q] !in rs[..q]
  {
    var before := rs[..|rs| - 1];
    AskedIsTheSet(before);
    if j < |Asked(before)| {
      p, q := AskedInOrder(before, i, j);
      assert rs[..q] == before[..q];
    } else {
      q := |rs| - 1;
      assert Asked(before)[i] in before;
      p :| 0 <= p < |before| && before[p] == Asked(before)[i];
    }
  }

  /** Narrowing to r what was narrowed to the same list is possible exactly when it
      was possible at first. */
  lemma NarrowsAgain(cat: Catalogue, gs: seq<Grant>, rs: seq<Resource>, r: Resource, role: string)
    requires r in rs
    ensures (exists n :: IsNarrowedGrant(cat, gs, rs, n) && n.role == role && Narrows(cat, n, r))
       <==> (exists g :: g in gs && g.role == role && Narrows(cat, g, r))
  {
    if g :| g in gs && g.role == role && Narrows(cat, g, r) {
      var n := Grant(role, AnchorOf(r));
      ReachOfAPath(r, [], r);
      assert r.segments + [] == r.segments;
      assert IsNarrowedGrant(cat, gs, rs, n) && Narrows(cat, n, r);
    }
    if n :| IsNarrowedGrant(cat, gs, rs, n) && n.role == role && Narrows(cat, n, r) {
      var r', g :| r' in rs && g in gs && Narrows(cat, g, r') && n == Grant(g.role, AnchorOf(r'));
      ReachOfAPath(r', [], r);
      assert r'.segments + [] == r'.segments;
      CoversBeneath(g.anchor, r', r);
      assert Narrows(cat, g, r);
    }
  }

  lemma {:induction false} SameDropped(cat: Catalogue, gs: seq<Grant>, gs': seq<Grant>, asked: seq<Resource>)
    requires forall r :: r in asked ==> (|Taken(cat, gs, r)| == 0 <==> |Taken(cat, gs', r)| == 0)
    ensures Dropped(cat, gs, asked) == Dropped(cat, gs', asked)
  {
    hide Taken;
    if |asked| > 0 {
      assert asked == asked[..|asked| - 1] + [asked[|asked| - 1]];
      SameDropped(cat, gs, gs', asked[..|asked| - 1]);
    }
  }

  /** Asking twice for the same list changes neither the set of Grants nor the list
      of what was dropped. */
  lemma AttenuatingTwiceChangesNothing(cat: Catalogue, p: Principal, rs: seq<Resource>)
    ensures var once := Attenuated(cat, p, rs);
      && (forall n :: n in Attenuated(cat, once, rs).grants <==> n in once.grants)
      && Dropped(cat, once.grants, Asked(rs)) == Dropped(cat, p.grants, Asked(rs))
  {
    hide Narrows, Narrowed, Taken, Dropped;
    var asked := Asked(rs);
    var once := Attenuated(cat, p, rs);
    forall n ensures n in once.grants <==> IsNarrowedGrant(cat, p.grants, asked, n) {
      NarrowedIsTheSet(cat, p.grants, asked, n);
    }
    forall n ensures n in Attenuated(cat, once, rs).grants <==> n in once.grants {
      NarrowedIsTheSet(cat, once.grants, asked, n);
      if IsNarrowedGrant(cat, once.grants, asked, n) {
        var r, g :| r in asked && g in once.grants && Narrows(cat, g, r) && n == Grant(g.role, AnchorOf(r));
        NarrowsAgain(cat, p.grants, asked, r, n.role);
        assert IsNarrowedGrant(cat, p.grants, asked, g);
        var g' :| g' in p.grants && g'.role == n.role && Narrows(cat, g', r);
        assert IsNarrowedGrant(cat, p.grants, asked, n);
      }
      if IsNarrowedGrant(cat, p.grants, asked, n) {
        var r, g :| r in asked && g in p.grants && Narrows(cat, g, r) && n == Grant(g.role, AnchorOf(r));
        NarrowsAgain(cat, p.grants, asked, r, n.role);
        var n' :| IsNarrowedGrant(cat, p.grants, asked, n') && n'.role == n.role && Narrows(cat, n', r);
        assert n' in once.grants;
        assert IsNarrowedGrant(cat, once.grants, asked, n);
      }
    }
    forall r | r in asked ensures |Taken(cat, once.grants, r)| == 0 <==> |Taken(cat, p.grants, r)| == 0 {
      TakenIsTheSet(cat, once.grants, r);
      TakenIsTheSet(cat, p.grants, r);
      if |Taken(cat, once.grants, r)| > 0 {
        var role := Taken(cat, once.grants, r)[0];
        assert role in Taken(cat, once.grants, r);
        var n :| n in once.grants && n.role == role && Narrows(cat, n, r);
        NarrowsAgain(cat, p.grants, asked, r, role);
        assert role in Taken(cat, p.grants, r);
      }
      if |Taken(cat, p.grants, r)| > 0 {
        var role := Taken(cat, p.grants, r)[0];
        assert role in Taken(cat, p.grants, r);
        NarrowsAgain(cat, p.grants, asked, r, role);
        var n :| IsNarrowedGrant(cat, p.grants, asked, n) && n.role == role && Narrows(cat, n, r);
        assert n in once.grants;
        assert role in Taken(cat, once.grants, r);
      }
    }
    SameDropped(cat, once.grants, p.grants, asked);
  }
}
