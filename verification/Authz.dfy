/** Authority over a tree of Resources: who holds a Role at a node holds it over the
    whole subtree. */
module Authz {
  import opened Prelude

  datatype Action = Create | Read | List | Update | Delete | Attribute

  const DOMAINS := "domains"
  const BATCHES := "batches"

  /** What a request acts on, as the segments of its path. */
  datatype Resource = Resource(segments: seq<string>) {
    predicate IsWellFormed() {
      |segments| > 0 && "" !in segments
    }
  }

  /** One segment of a pattern; only the flag makes it a wildcard, never its text. */
  datatype Segment = Segment(text: string, wildcard: bool) {
    predicate Matches(s: string) {
      wildcard || text == s
    }
  }

  function Literal(s: string): Segment {
    Segment(s, false)
  }

  function Wildcard(): Segment {
    Segment("*", true)
  }

  function Literals(ss: seq<string>): seq<Segment> {
    seq(|ss|, i requires 0 <= i < |ss| => Literal(ss[i]))
  }

  /** The reach of a rule under an Anchor. */
  datatype Pattern = Pattern(everything: bool, segments: seq<Segment>) {
    /** Segment by segment, as far as the pattern goes. */
    predicate Covers(r: Resource) {
      && r.IsWellFormed()
      && (everything || (0 < |segments| <= |r.segments| && forall i :: 0 <= i < |segments| ==> segments[i].Matches(r.segments[i])))
    }
  }

  datatype Kind = Other | Root | Domain {
    predicate IsGrantable() {
      Root? || Domain?
    }
  }

  /** Where in the tree a Role is placed. */
  datatype Anchor = Anchor(root: bool, segments: seq<Segment>) {
    predicate IsWellFormed() {
      |segments| > 0 && forall i :: 0 <= i < |segments| ==> segments[i].text != ""
    }

    function Kind(): Kind {
      if root then Root
      else if IsWellFormed() && |segments| == 2 && segments[0] == Literal(DOMAINS) then Domain
      else Other
    }

    /** The pattern of what lies at suffix beneath the Anchor. */
    function Extend(suffix: seq<string>): Pattern {
      if !root && !IsWellFormed() then Pattern(false, [])
      else if root && |suffix| == 0 then Pattern(true, [])
      else Pattern(false, segments + Literals(suffix))
    }

    predicate Covers(r: Resource) {
      Extend([]).Covers(r)
    }
  }

  function RootAnchor(): Anchor {
    Anchor(true, [])
  }

  function DomainAnchor(name: string): Anchor {
    Anchor(false, [Literal(DOMAINS), Literal(name)])
  }

  function AllDomainsAnchor(): Anchor {
    Anchor(false, [Literal(DOMAINS), Wildcard()])
  }

  /** The place of r itself; no segment of it acts as a wildcard. */
  function AnchorOf(r: Resource): Anchor {
    Anchor(false, Literals(r.segments))
  }

  /** On which kinds of Anchor a Role means what its rules say. */
  datatype Scope = Undeclared | RootScope | DomainScope | AnyScope {
    predicate Accepts(k: Kind) {
      match this
      case Undeclared => false
      case RootScope => k.Root?
      case DomainScope => k.Domain?
      case AnyScope => k.IsGrantable()
    }

    /** Where a Role already granted may be moved to: an anchor-agnostic one
        anywhere, a typed one within its kind. */
    predicate AdmitsNarrowingTo(k: Kind) {
      match this
      case Undeclared => false
      case RootScope => k.Root?
      case DomainScope => k.Domain?
      case AnyScope => true
    }
  }

  /** The actions held at a suffix beneath the Anchor; at the Anchor itself when the
      suffix is empty. */
  datatype Rule = Rule(actions: set<Action>, suffix: seq<string>)

  datatype Role = Role(scope: Scope, rules: seq<Rule>)

  type Catalogue = map<string, Role>

  const ALL_ACTIONS := {Create, Read, List, Update, Delete, Attribute}

  const ADMIN := "admin"
  const SENDER := "sender"

  const CATALOGUE: Catalogue := map[
    ADMIN := Role(AnyScope, [Rule(ALL_ACTIONS, [])]),
    SENDER := Role(DomainScope, [Rule({Create}, [BATCHES])])
  ]

  datatype Grant = Grant(role: string, anchor: Anchor)

  datatype Refusal = UnknownRole | NotGrantable | WrongScope

  /** Issues a Grant, or says the first thing that is wrong. */
  function NewGrant(cat: Catalogue, role: string, anchor: Anchor): (g: Result<Grant, Refusal>)
    ensures g.Ok? <==>
      && role in cat
      && ((anchor.Kind().Root? && (cat[role].scope.RootScope? || cat[role].scope.AnyScope?))
          || (anchor.Kind().Domain? && (cat[role].scope.DomainScope? || cat[role].scope.AnyScope?)))
    ensures g == Err(UnknownRole) <==> role !in cat
    ensures g == Err(NotGrantable) <==> role in cat && anchor.Kind().Other?
    ensures g.Ok? ==> g.value == Grant(role, anchor) && IsIssued(cat, g.value)
  {
    if role !in cat then Err(UnknownRole)
    else if !anchor.Kind().IsGrantable() then Err(NotGrantable)
    else if !cat[role].scope.Accepts(anchor.Kind()) then Err(WrongScope)
    else Ok(Grant(role, anchor))
  }

  /** What NewGrant guarantees and narrowing keeps: a typed Role sits on its own
      kind of Anchor. */
  predicate IsIssued(cat: Catalogue, g: Grant) {
    g.role in cat && cat[g.role].scope.AdmitsNarrowingTo(g.anchor.Kind())
  }

  datatype Principal = Principal(id: string, grants: seq<Grant>, attribution: string)

  /** A rule of g's Role permits a on x. A Role the catalogue lost confers nothing. */
  ghost predicate Confers(cat: Catalogue, g: Grant, a: Action, x: Resource) {
    && g.role in cat
    && exists i :: 0 <= i < |cat[g.role].rules| && RuleConfers(cat[g.role].rules[i], g.anchor, a, x)
  }

  predicate RuleConfers(rule: Rule, anchor: Anchor, a: Action, x: Resource) {
    a in rule.actions && anchor.Extend(rule.suffix).Covers(x)
  }

  ghost predicate Can(cat: Catalogue, p: Principal, a: Action, x: Resource) {
    exists g :: g in p.grants && Confers(cat, g, a, x)
  }

  /** Guard's decision: an Attribution needs its own authority on the same Resource. */
  ghost predicate Permits(cat: Catalogue, p: Principal, a: Action, x: Resource) {
    Can(cat, p, a, x) && (p.attribution != "" ==> Can(cat, p, Attribute, x))
  }

  /** Can as the code searches: Grants, then the rules of each, first hit wins. */
  method Check(cat: Catalogue, p: Principal, a: Action, x: Resource) returns (allowed: bool)
    ensures allowed <==> Can(cat, p, a, x)
  {
    for i := 0 to |p.grants|
      invariant forall j :: 0 <= j < i ==> !Confers(cat, p.grants[j], a, x)
    {
      var g := p.grants[i];
      if g.role in cat {
        var rules := cat[g.role].rules;
        for j := 0 to |rules|
          invariant forall l :: 0 <= l < j ==> !RuleConfers(rules[l], g.anchor, a, x)
        {
          if RuleConfers(rules[j], g.anchor, a, x) {
            assert Confers(cat, g, a, x);
            return true;
          }
        }
      }
    }
    return false;
  }

  // ---- Paths ----

  /** x lies at or beneath r. */
  predicate AtOrBeneath(x: Resource, r: Resource) {
    r.segments <= x.segments
  }

  /** An Anchor at a Resource reaches, under a suffix, exactly what lies at or
      beneath that path. */
  lemma ReachOfAPath(r: Resource, suffix: seq<string>, x: Resource)
    ensures AnchorOf(r).Extend(suffix).Covers(x) <==>
      r.IsWellFormed() && x.IsWellFormed() && r.segments + suffix <= x.segments
  {
    var p := AnchorOf(r).Extend(suffix);
    if AnchorOf(r).IsWellFormed() {
      forall s | s in r.segments ensures s != "" {
        var i :| 0 <= i < |r.segments| && r.segments[i] == s;
        assert AnchorOf(r).segments[i].text == s;
      }
    }
    var path := r.segments + suffix;
    if r.IsWellFormed() {
      assert p.segments == Literals(path);
      if p.Covers(x) {
        forall i | 0 <= i < |path| ensures path[i] == x.segments[i] {
          assert p.segments[i].Matches(x.segments[i]);
        }
      }
    }
  }

  /** What an Anchor covers, it covers with everything beneath. */
  lemma CoversBeneath(g: Anchor, r: Resource, x: Resource)
    requires g.Covers(r) && x.IsWellFormed() && AtOrBeneath(x, r)
    ensures g.Covers(x)
  {
    if !g.root {
      forall i | 0 <= i < |g.Extend([]).segments| ensures g.Extend([]).segments[i].Matches(x.segments[i]) {
        assert r.segments[i] == x.segments[i];
      }
    }
  }

  lemma AnchorsAreDistinct(r: Resource, r': Resource)
    ensures AnchorOf(r) == AnchorOf(r') <==> r == r'
  {
    if AnchorOf(r) == AnchorOf(r') {
      assert |Literals(r.segments)| == |Literals(r'.segments)|;
      forall i | 0 <= i < |r.segments| ensures r.segments[i] == r'.segments[i] {
        assert Literals(r.segments)[i] == Literals(r'.segments)[i];
      }
      assert r.segments == r'.segments;
    }
  }

  /** Where Grants may be issued, and how far each reaches: the root over everything,
      a Domain over what is of it, every Domain over all that lies in some Domain.
      Of the Anchors at a Resource only those at a Domain qualify. */
  lemma GrantableAnchors(name: string, r: Resource, x: Resource)
    ensures RootAnchor().Kind().Root? && (RootAnchor().Covers(x) <==> x.IsWellFormed())
    ensures DomainAnchor(name).Kind().IsGrantable() <==> name != ""
    ensures DomainAnchor(name).Covers(x) <==> name != "" && x.IsWellFormed() && [DOMAINS, name] <= x.segments
    ensures AllDomainsAnchor().Kind().Domain?
    ensures AllDomainsAnchor().Covers(x) <==> x.IsWellFormed() && |x.segments| >= 2 && x.segments[0] == DOMAINS
    ensures AnchorOf(r).Kind().IsGrantable() <==> exists d :: d != "" && r.segments == [DOMAINS, d]
  {
    var d := Resource([DOMAINS, name]);
    assert DomainAnchor(name).segments[1].text == name;
    assert AnchorOf(d).segments == DomainAnchor(name).segments;
    assert d.segments + [] == d.segments;
    ReachOfAPath(d, [], x);
    var all := AllDomainsAnchor().Extend([]);
    assert all.segments == AllDomainsAnchor().segments;
    if all.Covers(x) {
      assert all.segments[0].Matches(x.segments[0]);
    }
    if AnchorOf(r).Kind().Domain? {
      assert AnchorOf(r).segments[0].text == r.segments[0] && AnchorOf(r).segments[1].text == r.segments[1];
      assert r.segments == [DOMAINS, r.segments[1]];
    }
    if e :| e != "" && r.segments == [DOMAINS, e] {
      assert AnchorOf(r).segments == DomainAnchor(e).segments;
    }
  }
}
