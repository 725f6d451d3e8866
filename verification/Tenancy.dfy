/** What narrowing can never do: widen, or leave the Domain it began in. */
module Tenancy {
  import opened Prelude
  import opened Authz
  import opened Attenuation
  import opened DomainNames

  /** Every Grant came from NewGrant, or from narrowing one that did. */
  predicate IsIssuedTo(cat: Catalogue, p: Principal) {
    forall g :: g in p.grants ==> IsIssued(cat, g)
  }

  /** p narrowed by each list in turn. */
  function AttenuatedBy(cat: Catalogue, p: Principal, chain: seq<seq<Resource>>): Principal {
    if |chain| == 0 then p
    else Attenuated(cat, AttenuatedBy(cat, p, chain[..|chain| - 1]), chain[|chain| - 1])
  }

  // ---- The condition on a catalogue ----

  predicate Names(suffix: seq<string>) {
    "" !in suffix
  }

  /** The anchored Resource itself is within reach of a. */
  ghost predicate HoldsAtAnchor(role: Role, a: Action) {
    exists j :: 0 <= j < |role.rules| && a in role.rules[j].actions && role.rules[j].suffix == []
  }

  /** An anchor-agnostic Role holds nothing under a suffix that it does not hold at
      the Anchor: composed on a narrower node, the suffix would name something else. */
  ghost predicate IsSoundRole(role: Role) {
    role.scope.AnyScope? ==>
      forall i, a :: 0 <= i < |role.rules| && a in role.rules[i].actions && Names(role.rules[i].suffix) ==> HoldsAtAnchor(role, a)
  }

  ghost predicate IsSound(cat: Catalogue) {
    forall name :: name in cat ==> IsSoundRole(cat[name])
  }

  lemma TheSeededCatalogueIsSound()
    ensures IsSound(CATALOGUE)
  {
    var admin := CATALOGUE[ADMIN];
    assert admin.rules[0].suffix == [];
    forall i, a | 0 <= i < |admin.rules| && a in admin.rules[i].actions ensures HoldsAtAnchor(admin, a) {
    }
  }

  // ---- Never widening ----

  /** One Grant narrowed to one Resource. */
  lemma NarrowedGrantIsWithin(cat: Catalogue, g: Grant, r: Resource, a: Action, x: Resource)
    requires IsSound(cat) && IsIssued(cat, g) && Narrows(cat, g, r)
    requires Confers(cat, Grant(g.role, AnchorOf(r)), a, x)
    ensures Confers(cat, g, a, x)
    ensures AtOrBeneath(x, r)
  {
    var role := cat[g.role];
    var i :| 0 <= i < |role.rules| && RuleConfers(role.rules[i], AnchorOf(r), a, x);
    var suffix := role.rules[i].suffix;
    ReachOfAPath(r, suffix, x);
    assert r.segments <= r.segments + suffix;
    CoversBeneath(g.anchor, r, x);
    if role.scope.AnyScope? {
      assert Names(suffix) by {
        forall s | s in suffix ensures s != "" {
          assert s in r.segments + suffix;
          assert s in x.segments;
        }
      }
      assert IsSoundRole(role) && HoldsAtAnchor(role, a);
      var j :| 0 <= j < |role.rules| && a in role.rules[j].actions && role.rules[j].suffix == [];
      assert RuleConfers(role.rules[j], g.anchor, a, x);
    } else {
      DomainSuffixStays(g.anchor, r, suffix, x);
      assert RuleConfers(role.rules[i], g.anchor, a, x);
    }
  }

  /** From one Domain Anchor to another it covers, a suffix names the same node. */
  lemma DomainSuffixStays(g: Anchor, r: Resource, suffix: seq<string>, x: Resource)
    requires g.Kind().Domain? && AnchorOf(r).Kind().Domain? && g.Covers(r)
    requires AnchorOf(r).Extend(suffix).Covers(x)
    ensures g.Extend(suffix).Covers(x)
  {
    var narrow, wide := AnchorOf(r).Extend(suffix).segments, g.Extend(suffix).segments;
    assert g.Extend([]).segments == g.segments;
    forall k | 0 <= k < |wide| ensures wide[k].Matches(x.segments[k]) {
      assert narrow[k].Matches(x.segments[k]);
      if k < 2 {
        assert g.Extend([]).segments[k].Matches(r.segments[k]);
        assert narrow[k] == Literal(r.segments[k]);
      } else {
        assert narrow[k] == wide[k];
      }
    }
  }

  /** One call: no authority is gained, all of it lies under what was asked, and the
      Grants stay such that the next call is as safe. */
  lemma NarrowingNeverWidens(cat: Catalogue, p: Principal, rs: seq<Resource>)
    requires IsSound(cat) && IsIssuedTo(cat, p)
    ensures IsIssuedTo(cat, Attenuated(cat, p, rs))
    ensures forall a, x :: Can(cat, Attenuated(cat, p, rs), a, x) ==> Can(cat, p, a, x) && exists r :: r in rs && AtOrBeneath(x, r)
  {
    hide Narrows, Narrowed, Asked, Confers, AtOrBeneath;
    AskedIsTheSet(rs);
    var n := Attenuated(cat, p, rs);
    forall h | h in n.grants ensures IsIssued(cat, h) {
      var r, g := Origin(cat, p, rs, h);
    }
    forall a, x | Can(cat, n, a, x) ensures Can(cat, p, a, x) && exists r :: r in rs && AtOrBeneath(x, r) {
      var h :| h in n.grants && Confers(cat, h, a, x);
      var r, g := Origin(cat, p, rs, h);
      NarrowedGrantIsWithin(cat, g, r, a, x);
    }
  }

  /** The Grant and the Resource a narrowed Grant came from. */
  lemma Origin(cat: Catalogue, p: Principal, rs: seq<Resource>, h: Grant) returns (r: Resource, g: Grant)
    requires h in Attenuated(cat, p, rs).grants
    ensures r in rs && g in p.grants && Narrows(cat, g, r) && h == Grant(g.role, AnchorOf(r))
    ensures IsIssued(cat, h)
  {
    hide Narrowed, Asked;
    AskedIsTheSet(rs);
    NarrowedIsTheSet(cat, p.grants, Asked(rs), h);
    r, g :| r in Asked(rs) && g in p.grants && Narrows(cat, g, r) && h == Grant(g.role, AnchorOf(r));
  }

  /** Every chain of attenuations: what is left was held at the start, and lies at
      or beneath something asked for at every single step. */
  lemma {:induction false} ChainsNeverWiden(cat: Catalogue, p: Principal, chain: seq<seq<Resource>>)
    requires IsSound(cat) && IsIssuedTo(cat, p)
    ensures IsIssuedTo(cat, AttenuatedBy(cat, p, chain))
    ensures forall a, x :: Can(cat, AttenuatedBy(cat, p, chain), a, x) ==>
      && Can(cat, p, a, x)
      && forall k :: 0 <= k < |chain| ==> exists r :: r in chain[k] && AtOrBeneath(x, r)
  {
    hide IsSound, IsIssuedTo, Can, Attenuated, AtOrBeneath;
    if |chain| > 0 {
      var before, last := chain[..|chain| - 1], chain[|chain| - 1];
      ChainsNeverWiden(cat, p, before);
      NarrowingNeverWidens(cat, AttenuatedBy(cat, p, before), last);
      forall a, x, k | Can(cat, AttenuatedBy(cat, p, chain), a, x) && 0 <= k < |chain|
        ensures exists r :: r in chain[k] && AtOrBeneath(x, r)
      {
        if k < |chain| - 1 {
          assert before[k] == chain[k];
        }
      }
    }
  }

  // ---- The condition is exact ----

  /** The length of the longest first segment among the suffixes. */
  function LongestHead(rules: seq<Rule>): (n: nat)
    ensures forall i :: 0 <= i < |rules| && |rules[i].suffix| > 0 ==> |rules[i].suffix[0]| <= n
  {
    if |rules| == 0 then 0
    else
      var n, suffix := LongestHead(rules[..|rules| - 1]), rules[|rules| - 1].suffix;
      if |suffix| > 0 && |suffix[0]| > n then |suffix[0]| else n
  }

  /** An unsound Role on the root widens: narrowed to a path of a name no rule
      mentions, its suffix reaches beneath a place the root Grant never did. */
  lemma AnUnsoundRoleWidens(cat: Catalogue, name: string)
    returns (p: Principal, rs: seq<Resource>, a: Action, x: Resource)
    requires name in cat && !IsSoundRole(cat[name])
    ensures NewGrant(cat, name, RootAnchor()).Ok? && p.grants == [NewGrant(cat, name, RootAnchor()).value]
    ensures Can(cat, Attenuated(cat, p, rs), a, x) && !Can(cat, p, a, x)
  {
    hide Narrowed, Asked, AnchorOf, IsNarrowedGrant, Confers;
    var role := cat[name];
    var i, a' :| 0 <= i < |role.rules| && a' in role.rules[i].actions && Names(role.rules[i].suffix) && !HoldsAtAnchor(role, a');
    var z := seq(LongestHead(role.rules) + 1, _ => 'z');
    var r := Resource([z]);
    a, x, p, rs := a', Resource([z] + role.rules[i].suffix), Principal("", [Grant(name, RootAnchor())], ""), [r];
    assert Can(cat, Attenuated(cat, p, rs), a, x) by {
      RootNarrows(cat, p, name, r);
      ReachOfAPath(r, role.rules[i].suffix, x);
      assert RuleConfers(role.rules[i], AnchorOf(r), a, x);
      ConfersByRule(cat, Grant(name, AnchorOf(r)), i, a, x);
    }
    forall j | 0 <= j < |role.rules| ensures !RuleConfers(role.rules[j], RootAnchor(), a, x) {
      RootRuleMisses(role.rules[j], a, x);
    }
    ConfersNothing(cat, p.grants[0], a, x);
  }

  lemma ConfersByRule(cat: Catalogue, g: Grant, i: nat, a: Action, x: Resource)
    requires g.role in cat && i < |cat[g.role].rules| && RuleConfers(cat[g.role].rules[i], g.anchor, a, x)
    ensures Confers(cat, g, a, x)
  {
  }

  lemma ConfersNothing(cat: Catalogue, g: Grant, a: Action, x: Resource)
    requires g.role in cat ==> forall j :: 0 <= j < |cat[g.role].rules| ==> !RuleConfers(cat[g.role].rules[j], g.anchor, a, x)
    ensures !Confers(cat, g, a, x)
  {
  }

  /** An anchor-agnostic Grant on the root narrows anywhere. */
  lemma RootNarrows(cat: Catalogue, p: Principal, name: string, r: Resource)
    requires name in cat && cat[name].scope.AnyScope? && Grant(name, RootAnchor()) in p.grants && r.IsWellFormed()
    ensures Grant(name, AnchorOf(r)) in Attenuated(cat, p, [r]).grants
  {
    hide Narrowed, Asked, AnchorOf;
    AskedIsTheSet([r]);
    assert Narrows(cat, Grant(name, RootAnchor()), r);
    assert IsNarrowedGrant(cat, p.grants, Asked([r]), Grant(name, AnchorOf(r)));
    NarrowedIsTheSet(cat, p.grants, Asked([r]), Grant(name, AnchorOf(r)));
  }

  lemma RootRuleMisses(rule: Rule, a: Action, x: Resource)
    requires |x.segments| > 0
    requires a in rule.actions ==> |rule.suffix| > 0 && rule.suffix[0] != x.segments[0]
    ensures !RuleConfers(rule, RootAnchor(), a, x)
  {
    var reach := RootAnchor().Extend(rule.suffix);
    if a in rule.actions {
      assert !reach.segments[0].Matches(x.segments[0]);
    }
  }

  /** Attenuation never widens a Principal of this catalogue if and only if the
      catalogue is sound. */
  lemma NarrowingIsSafeExactly(cat: Catalogue)
    ensures IsSound(cat) <==>
      forall p: Principal, rs, a, x :: IsIssuedTo(cat, p) && Can(cat, Attenuated(cat, p, rs), a, x) ==> Can(cat, p, a, x)
  {
    hide Can, Attenuated;
    if IsSound(cat) {
      forall p: Principal, rs, a, x | IsIssuedTo(cat, p) && Can(cat, Attenuated(cat, p, rs), a, x) ensures Can(cat, p, a, x) {
        NarrowingNeverWidens(cat, p, rs);
      }
    } else {
      var name :| name in cat && !IsSoundRole(cat[name]);
      var p, rs, a, x := AnUnsoundRoleWidens(cat, name);
      assert IsIssuedTo(cat, p);
    }
  }

  // ---- Exactly the intersection ----

  /** Only anchor-agnostic Roles whose every rule acts at the Anchor. */
  ghost predicate HoldsOnlyAtAnchors(cat: Catalogue, p: Principal) {
    forall g :: g in p.grants && g.role in cat ==>
      cat[g.role].scope.AnyScope? && forall i :: 0 <= i < |cat[g.role].rules| ==> cat[g.role].rules[i].suffix == []
  }

  /** For such a Principal narrowing loses nothing it should keep: the result may do
      a on x exactly when the original may do it on an asked Resource above x. */
  lemma NarrowingIsTheIntersection(cat: Catalogue, p: Principal, rs: seq<Resource>, a: Action, x: Resource)
    requires HoldsOnlyAtAnchors(cat, p) && x.IsWellFormed()
    ensures Can(cat, Attenuated(cat, p, rs), a, x) <==> exists r :: r in rs && AtOrBeneath(x, r) && Can(cat, p, a, r)
  {
    hide Narrowed, Asked, AnchorOf, Confers;
    var n := Attenuated(cat, p, rs);
    if Can(cat, n, a, x) {
      var h :| h in n.grants && Confers(cat, h, a, x);
      var r, g := Origin(cat, p, rs, h);
      ConfersAtAPath(cat, p, g, r, a, x);
    }
    if r :| r in rs && AtOrBeneath(x, r) && Can(cat, p, a, r) {
      var g :| g in p.grants && Confers(cat, g, a, r);
      ConfersAtAPath(cat, p, g, r, a, x);
      AskedIsTheSet(rs);
      var h := Grant(g.role, AnchorOf(r));
      assert IsNarrowedGrant(cat, p.grants, Asked(rs), h);
      NarrowedIsTheSet(cat, p.grants, Asked(rs), h);
    }
  }

  /** Such a Grant narrowed to r confers on x what it conferred on r itself. */
  lemma ConfersAtAPath(cat: Catalogue, p: Principal, g: Grant, r: Resource, a: Action, x: Resource)
    requires HoldsOnlyAtAnchors(cat, p) && g in p.grants && x.IsWellFormed()
    ensures Confers(cat, g, a, r) ==> Narrows(cat, g, r)
    ensures Narrows(cat, g, r) && Confers(cat, Grant(g.role, AnchorOf(r)), a, x) <==> Confers(cat, g, a, r) && AtOrBeneath(x, r)
  {
    hide AnchorOf;
    assert r.segments + [] == r.segments;
    ReachOfAPath(r, [], x);
    if g.role in cat {
      var rules := cat[g.role].rules;
      forall i | 0 <= i < |rules|
        ensures RuleConfers(rules[i], g.anchor, a, r) <==> a in rules[i].actions && g.anchor.Covers(r)
        ensures RuleConfers(rules[i], AnchorOf(r), a, x) <==> a in rules[i].actions && AnchorOf(r).Covers(x)
      {
        assert rules[i].suffix == [];
      }
    }
  }

  // ---- One Domain ----

  /** g's Anchor names Domain d or something beneath it, by literal segments. */
  predicate IsConfined(d: string, g: Grant) {
    !g.anchor.root && DomainAnchor(d).segments <= g.anchor.segments
  }

  /** What such a Grant covers, under any rule, is of Domain d. */
  lemma ConfinedReach(d: string, anchor: Anchor, suffix: seq<string>, x: Resource)
    requires !anchor.root && DomainAnchor(d).segments <= anchor.segments
    requires anchor.Extend(suffix).Covers(x)
    ensures [DOMAINS, d] <= x.segments
  {
    var segments := anchor.Extend(suffix).segments;
    assert segments[0] == Literal(DOMAINS) && segments[1] == Literal(d);
    assert segments[0].Matches(x.segments[0]) && segments[1].Matches(x.segments[1]);
  }

  /** A Principal whose Grants are all of Domain d acts only at or beneath
      domains/d, under any catalogue and however it is attenuated: identifiers may
      hold separators or asterisks, for only whole segments compare. */
  lemma {:induction false} TenantsStayApart(cat: Catalogue, d: string, p: Principal, chain: seq<seq<Resource>>)
    requires forall g :: g in p.grants ==> IsConfined(d, g)
    ensures forall g :: g in AttenuatedBy(cat, p, chain).grants ==> IsConfined(d, g)
    ensures forall a, x :: Can(cat, AttenuatedBy(cat, p, chain), a, x) ==> [DOMAINS, d] <= x.segments
  {
    hide Attenuated, IsConfined;
    if |chain| > 0 {
      var before, last := AttenuatedBy(cat, p, chain[..|chain| - 1]), chain[|chain| - 1];
      TenantsStayApart(cat, d, p, chain[..|chain| - 1]);
      forall h | h in Attenuated(cat, before, last).grants ensures IsConfined(d, h) {
        StaysConfined(cat, d, before, last, h);
      }
    }
    var q := AttenuatedBy(cat, p, chain);
    forall a, x | Can(cat, q, a, x) ensures [DOMAINS, d] <= x.segments {
      var g :| g in q.grants && Confers(cat, g, a, x);
      var i :| 0 <= i < |cat[g.role].rules| && RuleConfers(cat[g.role].rules[i], g.anchor, a, x);
      assert IsConfined(d, g);
      ConfinedGrant(d, g);
      ConfinedReach(d, g.anchor, cat[g.role].rules[i].suffix, x);
    }
  }

  lemma ConfinedGrant(d: string, g: Grant)
    ensures IsConfined(d, g) <==> !g.anchor.root && DomainAnchor(d).segments <= g.anchor.segments
  {
  }

  lemma StaysConfined(cat: Catalogue, d: string, p: Principal, rs: seq<Resource>, h: Grant)
    requires forall g :: g in p.grants ==> IsConfined(d, g)
    requires h in Attenuated(cat, p, rs).grants
    ensures IsConfined(d, h)
  {
    hide Attenuated;
    var r, g := Origin(cat, p, rs, h);
    assert IsConfined(d, g);
    ConfinedReach(d, g.anchor, [], r);
    assert h.anchor.segments[0] == Literal(DOMAINS) && h.anchor.segments[1] == Literal(d);
  }

  // ---- What an API Key may send as ----

  function Batches(name: string): Resource {
    Resource([DOMAINS, name, BATCHES])
  }

  /** The authority of an API Key: sender on its own Domain. The zero name, a corrupt
      row, cannot carry an Anchor. */
  function KeyPrincipal(cat: Catalogue, keyID: string, domain: string): Result<Principal, Refusal> {
    var g := NewGrant(cat, SENDER, DomainAnchor(domain));
    if g.Err? then Err(g.error) else Ok(Principal(keyID + "@" + domain, [g.value], ""))
  }

  predicate HasSuffix(s: string, suffix: string) {
    |suffix| <= |s| && s[|s| - |suffix|..] == suffix
  }

  /** The zero name is no parent and has none. */
  predicate IsParentDomain(from: string, tenant: string) {
    from != "" && tenant != "" && HasSuffix(tenant, "." + from)
  }

  function SenderBatches(from: string, tenant: string): Resource {
    if IsParentDomain(from, tenant) then Batches(tenant) else Batches(from)
  }

  function TrimDot(s: string): string {
    if |s| > 0 && s[|s| - 1] == '.' then s[..|s| - 1] else s
  }

  /** The From host's canonical name, or the zero name when it has none. */
  function CanonicalSenderHost(u: Tables, host: string): string {
    match Parse(u, TrimDot(Trim(u.space, host)))
    case None => ""
    case Some(name) => name
  }

  /** Everything a key of d may do: create, on Batches of d. */
  lemma KeyReach(keyID: string, d: string, a: Action, x: Resource)
    ensures KeyPrincipal(CATALOGUE, keyID, d).Ok? <==> d != ""
    ensures d != "" ==>
      var p := KeyPrincipal(CATALOGUE, keyID, d).value;
      && p.id == keyID + "@" + d && p.attribution == ""
      && (Permits(CATALOGUE, p, a, x) <==> a == Create && x.IsWellFormed() && [DOMAINS, d, BATCHES] <= x.segments)
  {
    var at := Resource([DOMAINS, d]);
    assert AnchorOf(at).segments == DomainAnchor(d).segments;
    if d == "" {
      assert DomainAnchor(d).segments[1].text == "";
    } else {
      ReachOfAPath(at, [BATCHES], x);
      assert at.segments + [BATCHES] == Batches(d).segments;
      var p := KeyPrincipal(CATALOGUE, keyID, d).value;
      var g := p.grants[0];
      assert CATALOGUE[SENDER].rules[0] == Rule({Create}, [BATCHES]);
      if a == Create && x.IsWellFormed() && Batches(d).segments <= x.segments {
        assert RuleConfers(CATALOGUE[SENDER].rules[0], g.anchor, a, x);
        assert Confers(CATALOGUE, g, a, x);
      }
    }
  }

  /** What the seeded Roles confer: an admin everything its Anchor covers, a sender of a
      Domain to create at or beneath the Domain's Batches. */
  lemma WhatTheSeededRolesConfer(anchor: Anchor, d: string, a: Action, x: Resource)
    ensures Confers(CATALOGUE, Grant(ADMIN, anchor), a, x) <==> anchor.Covers(x)
    ensures Confers(CATALOGUE, Grant(SENDER, DomainAnchor(d)), a, x) <==>
      a == Create && d != "" && x.IsWellFormed() && [DOMAINS, d, BATCHES] <= x.segments
  {
    var admin := CATALOGUE[ADMIN];
    assert a in ALL_ACTIONS;
    if anchor.Covers(x) {
      assert RuleConfers(admin.rules[0], anchor, a, x);
    }
    var at := Resource([DOMAINS, d]);
    assert AnchorOf(at).segments == DomainAnchor(d).segments && at.segments + [BATCHES] == [DOMAINS, d, BATCHES];
    ReachOfAPath(at, [BATCHES], x);
    assert CATALOGUE[SENDER].rules[0] == Rule({Create}, [BATCHES]);
    if RuleConfers(CATALOGUE[SENDER].rules[0], DomainAnchor(d), a, x) {
      assert Confers(CATALOGUE, Grant(SENDER, DomainAnchor(d)), a, x);
    }
    assert d == "" ==> at.segments[1] == "";
    assert "" !in [DOMAINS, BATCHES];
  }

  /** Acting in another's name takes the right to: a key that attributes may do nothing,
      an admin of everything whatever it may. */
  lemma AttributionTakesARight(keyID: string, d: string, who: string, a: Action, x: Resource)
    requires d != "" && who != ""
    ensures !Permits(CATALOGUE, KeyPrincipal(CATALOGUE, keyID, d).value.(attribution := who), a, x)
    ensures Permits(CATALOGUE, Principal(keyID, [Grant(ADMIN, RootAnchor())], who), a, x) <==> x.IsWellFormed()
  {
    hide Confers;
    var key, admin := KeyPrincipal(CATALOGUE, keyID, d).value, Grant(ADMIN, RootAnchor());
    assert DomainAnchor(d).segments[1].text == d;
    assert key.grants == [Grant(SENDER, DomainAnchor(d))];
    WhatTheSeededRolesConfer(RootAnchor(), d, a, x);
    WhatTheSeededRolesConfer(RootAnchor(), d, Attribute, x);
    GrantableAnchors(d, x, x);
    assert admin in [admin];
  }

  /** t is x, with a dot after it or none. */
  predicate IsDotted(t: string, x: string) {
    t == x + "." || (t == x && (x == "" || x[|x| - 1] != '.'))
  }

  /** The host, but for spaces around it, one trailing dot and case, is the name c. */
  ghost predicate HostSpells(u: Tables, host: string, c: string) {
    exists before, t, after, x :: IsPadded(u.space, host, before, t, after) && IsDotted(t, x) && Spells(u, x, c)
  }

  lemma SenderHostIsSpelled(u: Tables, host: string, c: string)
    requires IsCanonical(c)
    ensures CanonicalSenderHost(u, host) == c <==> HostSpells(u, host, c)
  {
    hide Parse, Trim, Spells, IsPadded;
    var t := Trim(u.space, host);
    var before, after := TrimIs(u.space, host);
    IsNonempty(c);
    assert IsDotted(t, TrimDot(t));
    ParseReadsSpelling(u, TrimDot(t), c);
    if HostSpells(u, host, c) {
      var before', t', after', x :| IsPadded(u.space, host, before', t', after') && IsDotted(t', x) && Spells(u, x, c);
      PaddedOneWay(u.space, host, before, t, after, before', t', after');
      assert x == TrimDot(t);
    }
  }

  /** A key of d sends as a From host exactly when the host, read without the spaces
      around it, its case and one trailing dot, names d or a proper parent of d: d is
      some label, a dot, and that name. */
  lemma SenderRule(u: Tables, keyID: string, d: string, host: string)
    requires IsCanonical(d)
    ensures KeyPrincipal(CATALOGUE, keyID, d).Ok?
    ensures Permits(CATALOGUE, KeyPrincipal(CATALOGUE, keyID, d).value, Create, SenderBatches(CanonicalSenderHost(u, host), d)) <==>
      exists from :: HostSpells(u, host, from) && IsCanonical(from) && (from == d || exists labels :: labels != "" && d == labels + "." + from)
  {
    hide Parse, IsCanonical, Permits, KeyPrincipal, IsParentDomain, Batches, HostSpells, CanonicalSenderHost;
    var from := CanonicalSenderHost(u, host);
    SenderHostIsCanonical(u, host);
    if IsCanonical(from) {
      SenderHostIsSpelled(u, host, from);
    }
    forall c | HostSpells(u, host, c) && IsCanonical(c) ensures c == from {
      SenderHostIsSpelled(u, host, c);
    }
    IsNonempty(d);
    IsNonempty("");
    KeyReach(keyID, d, Create, SenderBatches(from, d));
    ParentIsProper(from, d);
    BatchesOf(from, d);
  }

  lemma SenderHostIsCanonical(u: Tables, host: string)
    ensures var from := CanonicalSenderHost(u, host); from == "" || IsCanonical(from)
  {
    hide Parse, IsCanonical, Spells;
    var text := TrimDot(Trim(u.space, host));
    if Parse(u, text).Some? {
      ParseReadsSpelling(u, text, Parse(u, text).value);
    }
  }

  lemma BatchesOf(from: string, d: string)
    requires d != ""
    ensures Batches(d).IsWellFormed() && ([DOMAINS, d, BATCHES] <= Batches(from).segments <==> from == d)
    ensures [DOMAINS, d, BATCHES] <= Batches(d).segments
  {
    assert Batches(from).segments[1] == from && [DOMAINS, d, BATCHES][1] == d;
  }

  lemma ParentIsProper(from: string, d: string)
    requires d != "" && d[0] != '.'
    ensures IsParentDomain(from, d) <==> from != "" && exists labels :: labels != "" && d == labels + "." + from
  {
    if IsParentDomain(from, d) {
      var labels := d[..|d| - |from| - 1];
      assert d == labels + ("." + from) == labels + "." + from;
      assert d[|labels|] == '.';
    }
    if labels :| labels != "" && d == labels + "." + from {
      assert d[|d| - |from| - 1..] == "." + from;
    }
  }

  lemma IsNonempty(s: string)
    ensures IsCanonical(s) ==> s != "" && s[0] != '.'
  {
  }
}
