/** The order of narrowed Grants: exactly which lists of Resources a second pass over
    the same list leaves as they were. */
module Ordering {
  import opened Prelude
  import opened Authz
  import opened Attenuation
  import opened Tenancy

  /** No Resource lies beneath one asked earlier; malformed ones, which nothing
      reaches, aside. */
  predicate KeepsOrder(rs: seq<Resource>) {
    forall i, j :: 0 <= i < j < |Asked(rs)| && Asked(rs)[i].IsWellFormed() && Asked(rs)[j].IsWellFormed() ==>
      !AtOrBeneath(Asked(rs)[j], Asked(rs)[i])
  }

  /** A second pass over rs changes nothing of the list p was narrowed to. */
  predicate IsKept(cat: Catalogue, p: Principal, rs: seq<Resource>) {
    Attenuated(cat, Attenuated(cat, p, rs), rs).grants == Attenuated(cat, p, rs).grants
  }

  // ---- What is taken from a list in parts ----

  lemma TakenSnoc(cat: Catalogue, gs: seq<Grant>, g: Grant, r: Resource)
    ensures Taken(cat, gs + [g], r) ==
      (if g.role in Taken(cat, gs, r) || !Narrows(cat, g, r) then Taken(cat, gs, r) else Taken(cat, gs, r) + [g.role])
  {
    assert (gs + [g])[..|gs|] == gs;
  }

  lemma {:induction false} TakesNone(cat: Catalogue, gs: seq<Grant>, r: Resource)
    requires forall g :: g in gs ==> !Narrows(cat, g, r)
    ensures Taken(cat, gs, r) == []
  {
    hide Narrows;
    if |gs| > 0 {
      assert gs == gs[..|gs| - 1] + [gs[|gs| - 1]];
      TakesNone(cat, gs[..|gs| - 1], r);
    }
  }

  lemma {:induction false} TakesNoMore(cat: Catalogue, a: seq<Grant>, b: seq<Grant>, r: Resource)
    requires forall g :: g in b && Narrows(cat, g, r) ==> g.role in Taken(cat, a, r)
    ensures Taken(cat, a + b, r) == Taken(cat, a, r)
    decreases |b|
  {
    hide Narrows, Taken;
    if |b| == 0 {
      assert a + b == a;
    } else {
      var before, last := b[..|b| - 1], b[|b| - 1];
      assert b == before + [last] && a + b == a + before + [last];
      TakesNoMore(cat, a, before, r);
      TakenSnoc(cat, a + before, last, r);
    }
  }

  lemma {:induction false} TakesFirst(cat: Catalogue, a: seq<Grant>, b: seq<Grant>, r: Resource)
    ensures Taken(cat, a, r) <= Taken(cat, a + b, r)
    decreases |b|
  {
    hide Narrows, Taken;
    if |b| == 0 {
      assert a + b == a;
    } else {
      var before, last := b[..|b| - 1], b[|b| - 1];
      assert a + b == a + before + [last];
      TakesFirst(cat, a, before, r);
      TakenSnoc(cat, a + before, last, r);
    }
  }

  lemma {:induction false} TakesTheBlock(cat: Catalogue, a: seq<Grant>, roles: seq<string>, r: Resource)
    requires Taken(cat, a, r) == []
    requires forall i, j :: 0 <= i < j < |roles| ==> roles[i] != roles[j]
    requires forall role :: role in roles ==> Narrows(cat, Grant(role, AnchorOf(r)), r)
    ensures Taken(cat, a + GrantsAt(roles, r), r) == roles
    decreases |roles|
  {
    hide Narrows, Taken;
    if |roles| == 0 {
      assert a + GrantsAt(roles, r) == a;
    } else {
      var before, last := roles[..|roles| - 1], roles[|roles| - 1];
      assert roles == before + [last];
      assert GrantsAt(roles, r) == GrantsAt(before, r) + [Grant(last, AnchorOf(r))];
      assert a + GrantsAt(roles, r) == a + GrantsAt(before, r) + [Grant(last, AnchorOf(r))];
      TakesTheBlock(cat, a, before, r);
      TakenSnoc(cat, a + GrantsAt(before, r), Grant(last, AnchorOf(r)), r);
    }
  }

  lemma {:induction false} NarrowedConcat(cat: Catalogue, gs: seq<Grant>, a: seq<Resource>, b: seq<Resource>)
    ensures Narrowed(cat, gs, a + b) == Narrowed(cat, gs, a) + Narrowed(cat, gs, b)
    decreases |b|
  {
    hide Taken, GrantsAt;
    if |b| == 0 {
      assert a + b == a;
    } else {
      assert (a + b)[..|a + b| - 1] == a + b[..|b| - 1];
      NarrowedConcat(cat, gs, a, b[..|b| - 1]);
    }
  }

  /** The list around the Grants at its j-th Resource. */
  lemma NarrowedAround(cat: Catalogue, gs: seq<Grant>, asked: seq<Resource>, j: nat)
    requires j < |asked|
    ensures Narrowed(cat, gs, asked) ==
      Narrowed(cat, gs, asked[..j]) + GrantsAt(Taken(cat, gs, asked[j]), asked[j]) + Narrowed(cat, gs, asked[j + 1..])
  {
    hide Taken, GrantsAt;
    assert asked == asked[..j] + [asked[j]] + asked[j + 1..];
    NarrowedConcat(cat, gs, asked[..j] + [asked[j]], asked[j + 1..]);
    assert (asked[..j] + [asked[j]])[..j] == asked[..j];
  }

  lemma {:induction false} SameTakenSameNarrowed(cat: Catalogue, gs: seq<Grant>, gs': seq<Grant>, asked: seq<Resource>)
    requires forall r :: r in asked ==> Taken(cat, gs, r) == Taken(cat, gs', r)
    ensures Narrowed(cat, gs, asked) == Narrowed(cat, gs', asked)
  {
    hide Taken, GrantsAt;
    if |asked| > 0 {
      assert asked == asked[..|asked| - 1] + [asked[|asked| - 1]];
      SameTakenSameNarrowed(cat, gs, gs', asked[..|asked| - 1]);
    }
  }

  lemma NarrowedToTwo(cat: Catalogue, gs: seq<Grant>, r: Resource, r': Resource)
    ensures Narrowed(cat, gs, [r, r']) == GrantsAt(Taken(cat, gs, r), r) + GrantsAt(Taken(cat, gs, r'), r')
  {
    assert [r, r'][..1] == [r] && [r][..0] == [];
    assert Narrowed(cat, gs, [r]) == GrantsAt(Taken(cat, gs, r), r);
  }

  lemma OneAndTwo(role: string, other: string, r: Resource, r': Resource)
    ensures GrantsAt([role], r) == [Grant(role, AnchorOf(r))]
    ensures GrantsAt([other, role], r') == [Grant(other, AnchorOf(r')), Grant(role, AnchorOf(r'))]
  {
  }

  lemma BothAreAsked(r: Resource, r': Resource)
    requires r != r'
    ensures Asked([r, r']) == [r, r']
  {
    assert [r, r'][..1] == [r] && [r][..0] == [];
    assert Asked([r]) == [r];
  }

  lemma TakenByTwo(cat: Catalogue, g: Grant, h: Grant, r: Resource)
    requires g.role != h.role
    ensures Taken(cat, [g, h], r) ==
      (if Narrows(cat, g, r) then [g.role] else []) + (if Narrows(cat, h, r) then [h.role] else [])
  {
    hide Narrows;
    TakenSnoc(cat, [], g, r);
    TakenSnoc(cat, [g], h, r);
    assert [] + [g] == [g] && [g] + [h] == [g, h];
  }

  // ---- Lists that are kept ----

  /** A narrowed Grant narrows to r only from a well-formed Resource above it. */
  lemma NarrowsFromAbove(cat: Catalogue, gs: seq<Grant>, rs: seq<Resource>, h: Grant, r: Resource) returns (r': Resource, g: Grant)
    requires h in Narrowed(cat, gs, rs) && Narrows(cat, h, r)
    ensures r' in rs && r'.IsWellFormed() && r.IsWellFormed() && AtOrBeneath(r, r')
    ensures g in gs && g.role == h.role && Narrows(cat, g, r') && Narrows(cat, g, r)
  {
    hide Narrowed, AnchorOf;
    NarrowedIsTheSet(cat, gs, rs, h);
    r', g :| r' in rs && g in gs && Narrows(cat, g, r') && h == Grant(g.role, AnchorOf(r'));
    ReachOfAPath(r', [], r);
    assert r'.segments + [] == r'.segments;
    CoversBeneath(g.anchor, r', r);
  }

  lemma TakenAgain(cat: Catalogue, gs: seq<Grant>, asked: seq<Resource>, j: nat)
    requires j < |asked|
    requires forall r :: r in asked[..j] && r.IsWellFormed() && asked[j].IsWellFormed() ==> !AtOrBeneath(asked[j], r)
    ensures Taken(cat, Narrowed(cat, gs, asked), asked[j]) == Taken(cat, gs, asked[j])
  {
    hide Narrows, Taken, Narrowed, GrantsAt, AnchorOf;
    var r := asked[j];
    var a, b := Narrowed(cat, gs, asked[..j]), Narrowed(cat, gs, asked[j + 1..]);
    var roles := Taken(cat, gs, r);
    NarrowedAround(cat, gs, asked, j);
    forall h | h in a ensures !Narrows(cat, h, r) {
      if Narrows(cat, h, r) {
        var r', g := NarrowsFromAbove(cat, gs, asked[..j], h, r);
      }
    }
    TakesNone(cat, a, r);
    TakenIsTheSet(cat, gs, r);
    forall role | role in roles ensures Narrows(cat, Grant(role, AnchorOf(r)), r) {
      var g :| g in gs && g.role == role && Narrows(cat, g, r);
      NarrowsItself(cat, g, r);
    }
    TakesTheBlock(cat, a, roles, r);
    forall h | h in b && Narrows(cat, h, r) ensures h.role in roles {
      var r', g := NarrowsFromAbove(cat, gs, asked[j + 1..], h, r);
    }
    TakesNoMore(cat, a + GrantsAt(roles, r), b, r);
  }

  lemma NarrowsItself(cat: Catalogue, g: Grant, r: Resource)
    requires Narrows(cat, g, r)
    ensures Narrows(cat, Grant(g.role, AnchorOf(r)), r)
  {
    ReachOfAPath(r, [], r);
    assert r.segments + [] == r.segments;
  }

  lemma SecondPassKeepsTheList(cat: Catalogue, p: Principal, rs: seq<Resource>)
    requires KeepsOrder(rs)
    ensures Attenuated(cat, Attenuated(cat, p, rs), rs) == Attenuated(cat, p, rs)
  {
    hide Taken, Narrowed, Asked;
    var asked := Asked(rs);
    var once := Narrowed(cat, p.grants, asked);
    forall r | r in asked ensures Taken(cat, once, r) == Taken(cat, p.grants, r) {
      var j :| 0 <= j < |asked| && asked[j] == r;
      forall r' | r' in asked[..j] && r'.IsWellFormed() && r.IsWellFormed() ensures !AtOrBeneath(r, r') {
        var i :| 0 <= i < j && asked[i] == r';
      }
      TakenAgain(cat, p.grants, asked, j);
    }
    SameTakenSameNarrowed(cat, once, p.grants, asked);
  }

  // ---- Lists that are not ----

  /** The Grants of a list that sit on one Anchor, in its order. */
  function OnAnchor(gs: seq<Grant>, anchor: Anchor): seq<Grant> {
    if |gs| == 0 then []
    else OnAnchor(gs[..|gs| - 1], anchor) + if gs[|gs| - 1].anchor == anchor then [gs[|gs| - 1]] else []
  }

  lemma {:induction false} OnAnchorConcat(a: seq<Grant>, b: seq<Grant>, anchor: Anchor)
    ensures OnAnchor(a + b, anchor) == OnAnchor(a, anchor) + OnAnchor(b, anchor)
    decreases |b|
  {
    if |b| == 0 {
      assert a + b == a;
    } else {
      assert (a + b)[..|a + b| - 1] == a + b[..|b| - 1];
      OnAnchorConcat(a, b[..|b| - 1], anchor);
    }
  }

  lemma {:induction false} OnAnchorUniform(gs: seq<Grant>, at: Anchor, anchor: Anchor)
    requires forall g :: g in gs ==> g.anchor == at
    ensures OnAnchor(gs, anchor) == if at == anchor then gs else []
  {
    if |gs| > 0 {
      assert gs == gs[..|gs| - 1] + [gs[|gs| - 1]];
      OnAnchorUniform(gs[..|gs| - 1], at, anchor);
    }
  }

  /** What a narrowed list holds at one of its Resources. */
  lemma {:induction false} NarrowedAt(cat: Catalogue, gs: seq<Grant>, asked: seq<Resource>, r: Resource)
    requires forall i, j :: 0 <= i < j < |asked| ==> asked[i] != asked[j]
    ensures OnAnchor(Narrowed(cat, gs, asked), AnchorOf(r)) == if r in asked then GrantsAt(Taken(cat, gs, r), r) else []
  {
    hide Taken, AnchorOf, GrantsAt, OnAnchor;
    if |asked| == 0 {
      OnAnchorUniform([], AnchorOf(r), AnchorOf(r));
    } else {
      var before, last := asked[..|asked| - 1], asked[|asked| - 1];
      var block := GrantsAt(Taken(cat, gs, last), last);
      NarrowedAt(cat, gs, before, r);
      OnAnchorConcat(Narrowed(cat, gs, before), block, AnchorOf(r));
      forall g | g in block ensures g.anchor == AnchorOf(last) {
        GrantsAtAre(Taken(cat, gs, last), last, g);
      }
      OnAnchorUniform(block, AnchorOf(last), AnchorOf(r));
      AnchorsAreDistinct(last, r);
      assert asked == before + [last];
      assert last == r ==> r !in before;
    }
  }

  lemma SameBlocksSameRoles(roles: seq<string>, roles': seq<string>, r: Resource)
    requires GrantsAt(roles, r) == GrantsAt(roles', r)
    ensures roles == roles'
  {
    assert |roles| == |GrantsAt(roles, r)| == |roles'|;
    forall i | 0 <= i < |roles| ensures roles[i] == roles'[i] {
      assert GrantsAt(roles, r)[i].role == GrantsAt(roles', r)[i].role;
    }
  }

  /** A Role that comes first at y but reaches nothing above it loses its place to one
      that reaches a Resource above y asked earlier. */
  lemma Reorders(cat: Catalogue, p: Principal, rs: seq<Resource>, i: nat, j: nat, first: string, other: string)
    requires i < j < |Asked(rs)|
    requires var x, y := Asked(rs)[i], Asked(rs)[j];
      && x.IsWellFormed() && y.IsWellFormed() && AtOrBeneath(y, x)
      && |Taken(cat, p.grants, y)| > 0 && Taken(cat, p.grants, y)[0] == first && other in Taken(cat, p.grants, x)
      && other in cat && cat[other].scope.AnyScope?
      && forall r: Resource :: r.IsWellFormed() && AtOrBeneath(y, r) && r != y ==> first !in Taken(cat, p.grants, r)
    ensures !IsKept(cat, p, rs)
  {
    hide Narrows, Taken, Narrowed, Asked, GrantsAt, AnchorOf, OnAnchor;
    AskedIsTheSet(rs);
    var asked, gs := Asked(rs), p.grants;
    var x, y, once := asked[i], asked[j], Narrowed(cat, gs, asked);
    var a := Narrowed(cat, gs, asked[..j]);
    NarrowedAround(cat, gs, asked, j);
    assert once == a + (GrantsAt(Taken(cat, gs, y), y) + Narrowed(cat, gs, asked[j + 1..]));
    TakesFirst(cat, a, GrantsAt(Taken(cat, gs, y), y) + Narrowed(cat, gs, asked[j + 1..]), y);
    TakenIsTheSet(cat, a, y);
    OtherIsThere(cat, gs, asked[..j], x, y, other);
    assert x == asked[..j][i];
    forall h | h in a && Narrows(cat, h, y) ensures h.role != first {
      var r, g := NarrowsFromAbove(cat, gs, asked[..j], h, y);
      TakenIsTheSet(cat, gs, r);
      var m :| 0 <= m < j && asked[m] == r;
    }
    assert Taken(cat, a, y)[0] in Taken(cat, a, y);
    NarrowedAt(cat, gs, asked, y);
    NarrowedAt(cat, once, asked, y);
    if Narrowed(cat, once, asked) == once {
      SameBlocksSameRoles(Taken(cat, once, y), Taken(cat, gs, y), y);
    }
  }

  lemma OtherIsThere(cat: Catalogue, gs: seq<Grant>, rs: seq<Resource>, x: Resource, y: Resource, other: string)
    requires x in rs && x.IsWellFormed() && y.IsWellFormed() && AtOrBeneath(y, x)
    requires other in Taken(cat, gs, x) && other in cat && cat[other].scope.AnyScope?
    ensures other in Taken(cat, Narrowed(cat, gs, rs), y)
  {
    hide Taken, Narrowed, AnchorOf;
    TakenIsTheSet(cat, gs, x);
    var g :| g in gs && g.role == other && Narrows(cat, g, x);
    var h := Grant(other, AnchorOf(x));
    assert IsNarrowedGrant(cat, gs, rs, h);
    NarrowedIsTheSet(cat, gs, rs, h);
    ReachOfAPath(x, [], y);
    assert x.segments + [] == x.segments;
    TakenIsTheSet(cat, Narrowed(cat, gs, rs), y);
  }

  const OWNER := "owner"

  /** Two Roles that fit anywhere. */
  const AGNOSTIC: Catalogue := map[ADMIN := Role(AnyScope, []), OWNER := Role(AnyScope, [])]

  lemma TwoRoles()
    ensures ADMIN != OWNER && ADMIN in AGNOSTIC && OWNER in AGNOSTIC
    ensures AGNOSTIC[ADMIN].scope.AnyScope? && AGNOSTIC[OWNER].scope.AnyScope?
  {
    assert ADMIN[0] == 'a' && OWNER[0] == 'o';
  }

  /** Two Grants of those Roles: what is taken of them where. */
  lemma TakenOfTwo(g: Grant, h: Grant, r: Resource)
    requires g.role == ADMIN && h.role == OWNER
    ensures Taken(AGNOSTIC, [g, h], r) == (if g.anchor.Covers(r) then [ADMIN] else []) + (if h.anchor.Covers(r) then [OWNER] else [])
  {
    TwoRoles();
    TakenByTwo(AGNOSTIC, g, h, r);
  }

  lemma Broken(rs: seq<Resource>) returns (i: nat, j: nat)
    requires !KeepsOrder(rs)
    ensures i < j < |Asked(rs)| && Asked(rs)[i] != Asked(rs)[j] && Asked(rs)[i] in rs && Asked(rs)[j] in rs
    ensures Asked(rs)[i].IsWellFormed() && Asked(rs)[j].IsWellFormed() && AtOrBeneath(Asked(rs)[j], Asked(rs)[i])
  {
    hide Asked;
    AskedIsTheSet(rs);
    i, j :| 0 <= i < j < |Asked(rs)| && Asked(rs)[i].IsWellFormed() && Asked(rs)[j].IsWellFormed() && AtOrBeneath(Asked(rs)[j], Asked(rs)[i]);
  }

  lemma PathCovers(r: Resource, x: Resource)
    ensures AnchorOf(r).Covers(x) <==> r.IsWellFormed() && x.IsWellFormed() && AtOrBeneath(x, r)
  {
    ReachOfAPath(r, [], x);
    assert r.segments + [] == r.segments;
  }

  /** Any other list reorders some Principal whose Grants narrowing admits. */
  lemma ABrokenListReorders(rs: seq<Resource>) returns (p: Principal)
    requires !KeepsOrder(rs)
    ensures IsIssuedTo(AGNOSTIC, p)
    ensures !IsKept(AGNOSTIC, p, rs)
  {
    hide Asked, IsKept, Taken, Attenuated, AnchorOf;
    var i, j := Broken(rs);
    var x, y := Asked(rs)[i], Asked(rs)[j];
    var g, h := Grant(ADMIN, AnchorOf(y)), Grant(OWNER, AnchorOf(x));
    p := Principal("", [g, h], "");
    TwoRoles();
    PathCovers(y, x);
    PathCovers(y, y);
    PathCovers(x, x);
    PathCovers(x, y);
    TakenOfTwo(g, h, y);
    TakenOfTwo(g, h, x);
    forall r: Resource | r.IsWellFormed() && AtOrBeneath(y, r) && r != y ensures ADMIN !in Taken(AGNOSTIC, p.grants, r) {
      PathCovers(y, r);
      TakenOfTwo(g, h, r);
    }
    Reorders(AGNOSTIC, p, rs, i, j, ADMIN, OWNER);
  }

  /** The list of Grants, and not only their set, survives a second pass, for every
      catalogue and every Principal, if and only if nothing is asked beneath what was
      asked before. */
  lemma ListsAreKeptExactly(rs: seq<Resource>)
    ensures KeepsOrder(rs) <==> forall cat, p: Principal :: IsIssuedTo(cat, p) ==> IsKept(cat, p, rs)
  {
    hide KeepsOrder, Attenuated;
    if KeepsOrder(rs) {
      forall cat, p: Principal ensures IsKept(cat, p, rs) {
        SecondPassKeepsTheList(cat, p, rs);
      }
    } else {
      var p := ABrokenListReorders(rs);
    }
  }

  /** Every Resource the system names lies in the tree of Domains. */
  predicate InTheTree(rs: seq<Resource>) {
    forall r :: r in rs && r.IsWellFormed() ==> r.segments[0] == DOMAINS
  }

  /** And there the Principal is one in use: two issued Grants, on a Domain and on the
      root, narrowed once before. */
  lemma ABrokenListReordersInUse(rs: seq<Resource>) returns (issued: Principal, list: seq<Resource>)
    requires !KeepsOrder(rs) && InTheTree(rs)
    ensures forall g :: g in issued.grants ==> NewGrant(AGNOSTIC, g.role, g.anchor) == Ok(g)
    ensures !IsKept(AGNOSTIC, Attenuated(AGNOSTIC, issued, list), rs)
  {
    hide Asked, IsKept, Taken, Attenuated, AnchorOf, NewGrant, Anchor.Covers;
    var i, j := Broken(rs);
    var x, y, top := Asked(rs)[i], Asked(rs)[j], Resource([DOMAINS]);
    assert x.segments <= y.segments && x.segments[0] == DOMAINS;
    var d := y.segments[1];
    assert d in y.segments;
    var g, h := Grant(ADMIN, DomainAnchor(d)), Grant(OWNER, RootAnchor());
    issued, list := Principal("", [g, h], ""), [y, top];
    BothAreIssued(d, y, top);
    var p := Attenuated(AGNOSTIC, issued, list);
    NarrowedToDomainAndTop(issued, g, h, y, top);
    forall r: Resource | r.IsWellFormed() && AtOrBeneath(y, r)
      ensures Taken(AGNOSTIC, p.grants, r) == if r == y then [ADMIN, OWNER] else [OWNER]
    {
      assert r.segments[0] == DOMAINS;
      PathCovers(y, r);
      PathCovers(top, r);
      TakenOfThree(Grant(ADMIN, AnchorOf(y)), Grant(OWNER, AnchorOf(y)), Grant(OWNER, AnchorOf(top)), r);
    }
    Reorders(AGNOSTIC, p, rs, i, j, ADMIN, OWNER);
  }

  lemma BothAreIssued(d: string, y: Resource, top: Resource)
    requires d != "" && y.IsWellFormed() && [DOMAINS, d] <= y.segments && top == Resource([DOMAINS])
    ensures var g, h := Grant(ADMIN, DomainAnchor(d)), Grant(OWNER, RootAnchor());
      && NewGrant(AGNOSTIC, ADMIN, DomainAnchor(d)) == Ok(g) && NewGrant(AGNOSTIC, OWNER, RootAnchor()) == Ok(h)
      && g.anchor.Covers(y) && h.anchor.Covers(y) && !g.anchor.Covers(top) && h.anchor.Covers(top) && y != top
  {
    TwoRoles();
    GrantableAnchors(d, y, y);
    GrantableAnchors(d, y, top);
  }

  lemma TakenOfThree(a: Grant, b: Grant, c: Grant, r: Resource)
    requires a.role == ADMIN && b.role == OWNER && c.role == OWNER
    ensures Taken(AGNOSTIC, [a, b, c], r) ==
      (if a.anchor.Covers(r) then [ADMIN] else []) + (if b.anchor.Covers(r) || c.anchor.Covers(r) then [OWNER] else [])
  {
    hide Taken;
    TwoRoles();
    TakenOfTwo(a, b, r);
    TakenSnoc(AGNOSTIC, [a, b], c, r);
    assert [a, b] + [c] == [a, b, c];
  }

  lemma NarrowedToDomainAndTop(issued: Principal, g: Grant, h: Grant, y: Resource, top: Resource)
    requires issued.grants == [g, h] && g.role == ADMIN && h.role == OWNER && y != top
    requires g.anchor.Covers(y) && h.anchor.Covers(y) && !g.anchor.Covers(top) && h.anchor.Covers(top)
    ensures Attenuated(AGNOSTIC, issued, [y, top]).grants ==
      [Grant(ADMIN, AnchorOf(y)), Grant(OWNER, AnchorOf(y)), Grant(OWNER, AnchorOf(top))]
  {
    hide Taken, Narrowed, AnchorOf, GrantsAt;
    BothAreAsked(y, top);
    TakenOfTwo(g, h, y);
    TakenOfTwo(g, h, top);
    NarrowedToTwo(AGNOSTIC, [g, h], y, top);
    OneAndTwo(OWNER, ADMIN, top, y);
    assert [ADMIN] + [OWNER] == [ADMIN, OWNER] && [] + [OWNER] == [OWNER];
  }

  /** So in the tree of Domains, over everything that issuing and any narrowing can
      yield, the same condition decides. */
  lemma ListsAreKeptExactlyInUse(rs: seq<Resource>)
    requires InTheTree(rs)
    ensures KeepsOrder(rs) <==>
      forall cat, issued: Principal, chain ::
        (forall g :: g in issued.grants ==> NewGrant(cat, g.role, g.anchor) == Ok(g)) ==> IsKept(cat, AttenuatedBy(cat, issued, chain), rs)
  {
    hide KeepsOrder, Attenuated, NewGrant;
    if KeepsOrder(rs) {
      forall cat, issued: Principal, chain ensures IsKept(cat, AttenuatedBy(cat, issued, chain), rs) {
        SecondPassKeepsTheList(cat, AttenuatedBy(cat, issued, chain), rs);
      }
    } else {
      var issued, list := ABrokenListReordersInUse(rs);
      assert [list][..0] == [];
      assert AttenuatedBy(AGNOSTIC, issued, []) == issued;
      assert AttenuatedBy(AGNOSTIC, issued, [list]) == Attenuated(AGNOSTIC, issued, list);
      assert !IsKept(AGNOSTIC, AttenuatedBy(AGNOSTIC, issued, [list]), rs);
    }
  }

  // ---- The catalogue as seeded ----

  const TOP := Resource([DOMAINS])

  predicate IsDomain(r: Resource) {
    |r.segments| == 2 && r.segments[0] == DOMAINS && r.segments[1] != ""
  }

  /** No Domain is asked after all of them together. */
  predicate KeepsSeededOrder(rs: seq<Resource>) {
    forall i, j :: 0 <= i < j < |Asked(rs)| && Asked(rs)[i] == TOP ==> !IsDomain(Asked(rs)[j])
  }

  /** Of the seeded Roles one fits a Domain alone. */
  lemma SeededRolesTaken(gs: seq<Grant>, r: Resource)
    ensures |Taken(CATALOGUE, gs, r)| <= 1 || IsDomain(r)
  {
    hide Taken, Narrows;
    var roles := Taken(CATALOGUE, gs, r);
    TakenIsTheSet(CATALOGUE, gs, r);
    if |roles| > 1 {
      var a, b := roles[0], roles[1];
      assert a in roles && b in roles;
      SeededRoleNarrows(gs, r, a);
      SeededRoleNarrows(gs, r, b);
    }
  }

  lemma SeededRoleNarrows(gs: seq<Grant>, r: Resource, role: string)
    requires exists g :: g in gs && g.role == role && Narrows(CATALOGUE, g, r)
    ensures role == ADMIN || (role == SENDER && IsDomain(r))
  {
    hide AnchorOf, Anchor.Covers;
    GrantableAnchors("", r, r);
  }

  lemma AtMostOneTakenAgain(cat: Catalogue, gs: seq<Grant>, asked: seq<Resource>, r: Resource)
    requires r in asked && |Taken(cat, gs, r)| <= 1
    ensures Taken(cat, Narrowed(cat, gs, asked), r) == Taken(cat, gs, r)
  {
    hide Taken, Narrows, Narrowed;
    var once := Narrowed(cat, gs, asked);
    var roles, again := Taken(cat, gs, r), Taken(cat, once, r);
    TakenIsTheSet(cat, gs, r);
    TakenIsTheSet(cat, once, r);
    forall role ensures role in again <==> role in roles {
      NarrowsAgain(cat, gs, asked, r, role);
      forall n ensures n in once <==> IsNarrowedGrant(cat, gs, asked, n) {
        NarrowedIsTheSet(cat, gs, asked, n);
      }
    }
    SameOne(again, roles);
  }

  lemma SameOne(a: seq<string>, b: seq<string>)
    requires |b| <= 1 && (forall x :: x in a <==> x in b)
    requires forall i, j :: 0 <= i < j < |a| ==> a[i] != a[j]
    ensures a == b
  {
    if |a| > 1 {
      TheOnlyOne(a[0], a[1], b);
    }
    assert b != [] ==> b[0] in b;
    assert a != [] ==> a[0] in b;
    assert |a| == |b|;
  }

  lemma TheOnlyOne(x: string, y: string, b: seq<string>)
    requires |b| <= 1 && x in b && y in b
    ensures x == y
  {
  }

  lemma SeededOrderIsKept(p: Principal, rs: seq<Resource>)
    requires KeepsSeededOrder(rs)
    ensures IsKept(CATALOGUE, p, rs)
  {
    hide Taken, Narrowed, Asked;
    var asked := Asked(rs);
    AskedIsTheSet(rs);
    var once := Narrowed(CATALOGUE, p.grants, asked);
    forall r | r in asked ensures Taken(CATALOGUE, once, r) == Taken(CATALOGUE, p.grants, r) {
      var j :| 0 <= j < |asked| && asked[j] == r;
      SeededRolesTaken(p.grants, r);
      if |Taken(CATALOGUE, p.grants, r)| <= 1 {
        AtMostOneTakenAgain(CATALOGUE, p.grants, asked, r);
      } else {
        forall r' | r' in asked[..j] && r'.IsWellFormed() ensures !AtOrBeneath(r, r') {
          var i :| 0 <= i < j && asked[i] == r';
          if AtOrBeneath(r, r') {
            AboveADomain(r, r');
          }
        }
        TakenAgain(CATALOGUE, p.grants, asked, j);
      }
    }
    SameTakenSameNarrowed(CATALOGUE, once, p.grants, asked);
  }

  lemma AboveADomain(r: Resource, r': Resource)
    requires IsDomain(r) && r'.IsWellFormed() && AtOrBeneath(r, r')
    ensures r' == TOP || r' == r
  {
    if |r'.segments| == 1 {
      assert r'.segments == [DOMAINS];
    } else {
      assert r'.segments == r.segments;
    }
  }

  /** What a sender of one Domain and an admin of everything take where. */
  lemma SenderAndAdmin(d: string, y: Resource)
    requires d != "" && y == Resource([DOMAINS, d])
    ensures var g, h := Grant(SENDER, DomainAnchor(d)), Grant(ADMIN, RootAnchor());
      && NewGrant(CATALOGUE, SENDER, DomainAnchor(d)) == Ok(g) && NewGrant(CATALOGUE, ADMIN, RootAnchor()) == Ok(h)
      && Taken(CATALOGUE, [g, h], TOP) == [ADMIN] && Taken(CATALOGUE, [g, h], y) == [SENDER, ADMIN]
  {
    hide AnchorOf, Taken, Anchor.Covers;
    var g, h := Grant(SENDER, DomainAnchor(d)), Grant(ADMIN, RootAnchor());
    GrantableAnchors(d, y, y);
    GrantableAnchors(d, TOP, TOP);
    RolesDiffer();
    DomainNarrows(g, h, TOP, y);
    TakenByTwo(CATALOGUE, g, h, TOP);
    TakenByTwo(CATALOGUE, g, h, y);
    assert [] + [ADMIN] == [ADMIN] && [SENDER] + [ADMIN] == [SENDER, ADMIN];
  }

  lemma RolesDiffer()
    ensures ADMIN != SENDER && ADMIN in CATALOGUE && SENDER in CATALOGUE
    ensures CATALOGUE[ADMIN].scope.AnyScope? && CATALOGUE[SENDER].scope.DomainScope?
  {
    assert |ADMIN| < |SENDER|;
  }

  lemma DomainNarrows(g: Grant, h: Grant, top: Resource, y: Resource)
    requires g.role == SENDER && h.role == ADMIN && h.anchor.Covers(top) && h.anchor.Covers(y)
    requires g.anchor.Covers(y) && !g.anchor.Covers(top) && AnchorOf(y).Kind().IsGrantable()
    ensures !Narrows(CATALOGUE, g, top) && Narrows(CATALOGUE, g, y) && Narrows(CATALOGUE, h, top) && Narrows(CATALOGUE, h, y)
  {
    hide Anchor.Covers;
    RolesDiffer();
  }

  lemma ABrokenSeededListReorders(rs: seq<Resource>) returns (issued: Principal)
    requires !KeepsSeededOrder(rs)
    ensures forall g :: g in issued.grants ==> NewGrant(CATALOGUE, g.role, g.anchor) == Ok(g)
    ensures !IsKept(CATALOGUE, issued, rs)
  {
    hide Asked, IsKept, Taken, AnchorOf, NewGrant;
    AskedIsTheSet(rs);
    var i, j :| 0 <= i < j < |Asked(rs)| && Asked(rs)[i] == TOP && IsDomain(Asked(rs)[j]);
    var y := Asked(rs)[j];
    var d := y.segments[1];
    assert y == Resource([DOMAINS, d]);
    assert TOP.segments <= y.segments;
    issued := Principal("", [Grant(SENDER, DomainAnchor(d)), Grant(ADMIN, RootAnchor())], "");
    SenderAndAdmin(d, y);
    RolesDiffer();
    forall r: Resource | r.IsWellFormed() && AtOrBeneath(y, r) && r != y ensures SENDER !in Taken(CATALOGUE, issued.grants, r) {
      AboveADomain(y, r);
    }
    Reorders(CATALOGUE, issued, rs, i, j, SENDER, ADMIN);
  }

  /** For the catalogue as seeded less is enough: over everything that issuing and any
      narrowing can yield, a second pass keeps the list if and only if no Domain is asked
      after all of them together. */
  lemma SeededListsAreKeptExactly(rs: seq<Resource>)
    ensures KeepsSeededOrder(rs) <==>
      forall issued: Principal, chain ::
        (forall g :: g in issued.grants ==> NewGrant(CATALOGUE, g.role, g.anchor) == Ok(g))
          ==> IsKept(CATALOGUE, AttenuatedBy(CATALOGUE, issued, chain), rs)
  {
    hide KeepsSeededOrder, Attenuated, NewGrant, IsKept;
    if KeepsSeededOrder(rs) {
      forall issued: Principal, chain ensures IsKept(CATALOGUE, AttenuatedBy(CATALOGUE, issued, chain), rs) {
        SeededOrderIsKept(AttenuatedBy(CATALOGUE, issued, chain), rs);
      }
    } else {
      var issued := ABrokenSeededListReorders(rs);
      assert AttenuatedBy(CATALOGUE, issued, []) == issued;
      assert !IsKept(CATALOGUE, AttenuatedBy(CATALOGUE, issued, []), rs);
    }
  }
}
