/** What an engagement event may say about a Recipient, from the Policy frozen on a
    Delivery through its signed tokens to the Tracker and the Stats worker. A signed
    token is its claims: it cannot be forged, only presented. */
module Engagement {
  import opened Prelude
  import opened DomainNames
  import opened Addressing
  import opened Tracking
  import SharedTokens

  // ---- Identities ----

  /** Equality under case folding, over whatever representative folding picks for
      each character. */
  predicate EqualFold(fold: char -> char, a: string, b: string) {
    Lower(fold, a) == Lower(fold, b)
  }

  function ReservedNamespace(domain: string): string {
    "track." + domain
  }

  function AnonymousIdentity(domain: string): string {
    "anonymous" + "@" + ReservedNamespace(domain)
  }

  /** The parts before and after the first at-sign. */
  function CutAt(s: string): Option<(string, string)> {
    if |s| == 0 then None
    else if s[0] == '@' then Some(("", s[1..]))
    else
      match CutAt(s[1..])
      case None => None
      case Some(parts) => Some(([s[0]] + parts.0, parts.1))
  }

  predicate InReservedNamespace(fold: char -> char, identity: string, domain: string) {
    match CutAt(identity)
    case None => false
    case Some(parts) => parts.0 != "" && EqualFold(fold, parts.1, ReservedNamespace(domain))
  }

  predicate NamesNobody(fold: char -> char, identity: string, domain: string) {
    identity == "" || EqualFold(fold, identity, AnonymousIdentity(domain))
  }

  predicate IsPseudonym(fold: char -> char, identity: string, domain: string) {
    InReservedNamespace(fold, identity, domain) && !NamesNobody(fold, identity, domain)
  }

  /** Sixteen random octets as lower-case hexadecimal. */
  predicate IsDraw(draw: string) {
    |draw| == 32 && forall c :: c in draw ==> '0' <= c <= '9' || 'a' <= c <= 'f'
  }

  function NewPseudonym(draw: string, domain: string): string {
    draw + "@" + ReservedNamespace(domain)
  }

  lemma {:induction false} CutsAtTheFirst(head: string, tail: string)
    requires '@' !in head
    ensures CutAt(head + "@" + tail) == Some((head, tail))
  {
    var s := head + "@" + tail;
    if head == "" {
      assert s[1..] == tail;
    } else {
      CutsAtTheFirst(head[1..], tail);
      assert s[0] == head[0] && s[1..] == head[1..] + "@" + tail;
      assert [head[0]] + head[1..] == head;
    }
  }

  /** Every draw is a pseudonym: an address under the reserved label, and never the
      anonymous one. */
  lemma DrawsArePseudonyms(fold: char -> char, draw: string, domain: string)
    requires IsDraw(draw)
    ensures IsPseudonym(fold, NewPseudonym(draw, domain), domain)
  {
    CutsAtTheFirst(draw, ReservedNamespace(domain));
  }

  lemma {:induction false} CutAtIs(s: string)
    ensures CutAt(s).Some? ==> '@' !in CutAt(s).value.0 && s == CutAt(s).value.0 + "@" + CutAt(s).value.1
    ensures CutAt(s).None? ==> '@' !in s
  {
    if |s| > 0 && s[0] != '@' {
      CutAtIs(s[1..]);
    }
  }

  /** Who is a pseudonym: something, an at-sign, and the Domain's reserved label in any
      case, so long as it is not "anonymous" there, in any case either. */
  lemma PseudonymsAre(fold: char -> char, identity: string, domain: string)
    ensures IsPseudonym(fold, identity, domain) <==>
      && (exists head, tail :: identity == head + "@" + tail && head != "" && '@' !in head && Lower(fold, tail) == Lower(fold, "track." + domain))
      && Lower(fold, identity) != Lower(fold, "anonymous@track." + domain)
  {
    assert "anonymous" + "@" + ("track." + domain) == "anonymous@track." + domain;
    CutAtIs(identity);
    forall head, tail | identity == head + "@" + tail && '@' !in head ensures CutAt(identity) == Some((head, tail)) {
      CutsAtTheFirst(head, tail);
    }
  }

  // ---- Minting and verifying ----

  const AUDIENCE_OPEN := "stats:open"
  const AUDIENCE_LINK := "stats:link"
  const AUDIENCE_LEGACY := "stats"

  /** Three months, in seconds. */
  const TOKEN_EXPIRE_PERIOD: int := 3600 * 24 * 30 * 3

  datatype Claims = Claims(messageID: string, email: string, url: string, mode: Mode, audience: seq<string>, issuedAt: int)

  function AudienceOf(axis: Axis): string {
    match axis
    case Opens => AUDIENCE_OPEN
    case Links => AUDIENCE_LINK
  }

  /** The identity a token may carry, decided by the Mode alone. */
  ghost function IdentityUnder(fold: char -> char, mode: Mode, offered: string, messageID: string): Result<string, string> {
    if IdentifiesRecipient(mode) then Ok(offered)
    else
      match ExtractDomain(messageID)
      case None => Err("cannot resolve the reserved namespace")
      case Some(domain) =>
        if !IsolatesRecipient(mode) then Ok(AnonymousIdentity(domain))
        else if !IsPseudonym(fold, offered, domain) then Err("identity outside the reserved namespace")
        else Ok(offered)
  }

  /** Everything a token commits to besides an identity, and the key it is shared
      under when its Mode isolates no one. */
  datatype Key = Key(axis: Axis, domain: string, messageID: string, url: string, mode: Mode)

  ghost function Mint(fold: char -> char, key: Key, offered: string, now: int): Result<Claims, string> {
    match IdentityUnder(fold, key.mode, offered, key.messageID)
    case Err(e) => Err(e)
    case Ok(identity) => Ok(Claims(key.messageID, identity, key.url, key.mode, [AudienceOf(key.axis)], now))
  }

  /** A token is for the axis its audience names; an old one, whose audience names
      neither and which states no Mode, is for both. */
  predicate AssertAudience(claims: Claims, want: Axis) {
    AudienceOf(want) in claims.audience || (claims.mode == UNSPECIFIED && AUDIENCE_LEGACY in claims.audience)
  }

  predicate Verifies(claims: Claims, want: Axis, now: int) {
    now < claims.issuedAt + TOKEN_EXPIRE_PERIOD && AssertAudience(claims, want)
  }

  /** What this build mints verifies on its own channel until it expires, and on the
      other never, whatever the Mode. */
  lemma {:induction false} TokensStayOnTheirChannel(fold: char -> char, key: Key, offered: string, minted: int, want: Axis, now: int)
    requires Mint(fold, key, offered, minted).Ok?
    ensures Verifies(Mint(fold, key, offered, minted).value, want, now) <==>
      want == key.axis && now < minted + 90 * 24 * 60 * 60
  {
    hide IdentityUnder;
    assert AUDIENCE_OPEN[6] == 'o' && AUDIENCE_LINK[6] == 'l';
    assert |AUDIENCE_LEGACY| < |AUDIENCE_OPEN|;
  }

  /** A token of an older build, whose audience tells no channels apart, serves both
      until it expires, but only if it states no Mode. */
  lemma OldTokensServeBothChannels(claims: Claims, want: Axis, now: int)
    requires claims.audience == [AUDIENCE_LEGACY]
    ensures Verifies(claims, want, now) <==> claims.mode == UNSPECIFIED && now < claims.issuedAt + 90 * 24 * 60 * 60
  {
    assert |AUDIENCE_LEGACY| < |AUDIENCE_OPEN| && |AUDIENCE_LEGACY| < |AUDIENCE_LINK|;
  }

  /** Whom a token names, by what its Mode says: the Recipient offered under Identified,
      Full, and where nothing is stated; under Pseudonymous a pseudonym of the Domain
      and no one else; and under any other text no one. */
  lemma MintNames(fold: char -> char, key: Key, offered: string, now: int)
    ensures var c, domain := Mint(fold, key, offered, now), ExtractDomain(key.messageID);
      && (c.Ok? ==> c.value == Claims(key.messageID, c.value.email, key.url, key.mode, [AudienceOf(key.axis)], now))
      && (if key.mode in {UNSPECIFIED, IDENTIFIED, FULL} then c.Ok? && c.value.email == offered
          else if domain.None? then c.Err?
          else if key.mode == PSEUDONYMOUS then
            (c.Ok? <==> IsPseudonym(fold, offered, domain.value)) && (c.Ok? ==> c.value.email == offered)
          else c.Ok? && c.value.email == "anonymous@track." + domain.value)
  {
    hide IsPseudonym, ExtractDomain, IdentifiesRecipient, IsolatesRecipient;
    ModesThatTell(key.mode);
    if ExtractDomain(key.messageID).Some? {
      assert AnonymousIdentity(ExtractDomain(key.messageID).value) == "anonymous@track." + ExtractDomain(key.messageID).value;
    }
  }

  // ---- The Builder ----

  /** Who one Delivery's tokens name: one address, and at most one pseudonym, drawn
      once for both axes. */
  datatype TrackingIdentity = TrackingIdentity(email: string, pseudonym: string) {
    function Under(mode: Mode): string {
      if mode == PSEUDONYMOUS then pseudonym else email
    }
  }

  function NewTrackingIdentity(policy: Policy, email: string, domain: string, draw: string): TrackingIdentity {
    if policy.opens != PSEUDONYMOUS && policy.links != PSEUDONYMOUS then TrackingIdentity(email, "")
    else TrackingIdentity(email, NewPseudonym(draw, domain))
  }

  /** One token asked for by a Build: its key, the identity offered, and the time. */
  datatype Asking = Asking(key: Key, offered: string, now: int)

  /** The requests that reach the shared cache: those whose Mode isolates no one. */
  ghost function SharedRequests(fold: char -> char, h: seq<Asking>): seq<SharedTokens.Request<Key, Claims>> {
    if |h| == 0 then []
    else
      var before, a := SharedRequests(fold, h[..|h| - 1]), h[|h| - 1];
      if IsolatesRecipient(a.key.mode) then before
      else before + [SharedTokens.Request(a.key, Mint(fold, a.key, a.offered, a.now))]
  }

  /** The token issued for a, after the whole history h of a Dispatcher. */
  ghost function Issued(fold: char -> char, h: seq<Asking>, a: Asking): Result<Claims, string> {
    if IsolatesRecipient(a.key.mode) then Mint(fold, a.key, a.offered, a.now)
    else
      var rs := SharedRequests(fold, h + [a]);
      if |rs| == 0 then Err("") else SharedTokens.AnswerTo(SharedTokens.Empty(), rs, |rs| - 1).token
  }

  /** Below Pseudonymous the claim does not depend on who is offered. */
  lemma AnonymousMintIgnoresTheIdentity(fold: char -> char, key: Key, offered: string, offered': string, now: int)
    requires !IsolatesRecipient(key.mode)
    ensures Mint(fold, key, offered, now) == Mint(fold, key, offered', now)
  {
  }

  lemma {:induction false} SharedRequestsAreMints(fold: char -> char, h: seq<Asking>, r: SharedTokens.Request<Key, Claims>)
    requires r in SharedRequests(fold, h)
    ensures exists a :: a in h && r == SharedTokens.Request(a.key, Mint(fold, a.key, a.offered, a.now))
  {
    hide Mint;
    var before, last := h[..|h| - 1], h[|h| - 1];
    assert h == before + [last];
    if r in SharedRequests(fold, before) {
      SharedRequestsAreMints(fold, before, r);
      var a :| a in before && r == SharedTokens.Request(a.key, Mint(fold, a.key, a.offered, a.now));
      assert a in h;
    } else {
      assert last in h;
    }
  }

  /** Whatever the cache held and whoever it was minted for, a Delivery's token is
      one minted for its own key and its own identity, at some moment so far. */
  lemma IssuedIsMinted(fold: char -> char, h: seq<Asking>, a: Asking)
    ensures Issued(fold, h, a).Ok? ==>
      exists t :: t in h + [a] && Issued(fold, h, a) == Mint(fold, a.key, a.offered, t.now)
  {
    hide Mint, SharedTokens.AnswerTo;
    if IsolatesRecipient(a.key.mode) {
      assert a in h + [a];
    } else if Issued(fold, h, a).Ok? {
      var rs := SharedRequests(fold, h + [a]);
      var last := |rs| - 1;
      assert (h + [a])[..|h|] == h;
      SharedTokens.TokensAreMintedForTheirKey(rs, last);
      assert rs[..last + 1] == rs;
      SharedRequestsAreMints(fold, h + [a], SharedTokens.Request(a.key, Issued(fold, h, a)));
      var t :| t in h + [a] && SharedTokens.Request(a.key, Issued(fold, h, a)) == SharedTokens.Request(t.key, Mint(fold, t.key, t.offered, t.now));
      AnonymousMintIgnoresTheIdentity(fold, a.key, t.offered, a.offered, t.now);
    }
  }

  lemma {:induction false} SharedRequestsConcat(fold: char -> char, h: seq<Asking>, h': seq<Asking>)
    ensures SharedRequests(fold, h + h') == SharedRequests(fold, h) + SharedRequests(fold, h')
    decreases |h'|
  {
    hide Mint, IsolatesRecipient;
    if |h'| == 0 {
      assert h + h' == h;
    } else {
      var before := h'[..|h'| - 1];
      assert (h + h')[..|h + h'| - 1] == h + before;
      SharedRequestsConcat(fold, h, before);
    }
  }

  lemma OneSharedRequest(fold: char -> char, a: Asking)
    requires !IsolatesRecipient(a.key.mode)
    ensures SharedRequests(fold, [a]) == [SharedTokens.Request(a.key, Mint(fold, a.key, a.offered, a.now))]
  {
    assert [a][..0] == [];
  }

  /** Two Deliveries of a Batch whose axis isolates no one carry the very same
      token, so long as no more than 1024 other shared tokens were asked for between
      them: nothing tells their engagements apart. */
  lemma DeliveriesShareOneToken(fold: char -> char, h: seq<Asking>, i: nat, j: nat)
    requires i < j < |h| && h[i].key == h[j].key && !IsolatesRecipient(h[i].key.mode)
    requires |SharedTokens.OtherKeys(SharedRequests(fold, h[i + 1..j]), h[i].key)| <= 1024
    requires Issued(fold, h[..i], h[i]).Ok?
    ensures Issued(fold, h[..j], h[j]) == Issued(fold, h[..i], h[i])
  {
    hide Mint, IsolatesRecipient, SharedRequests, SharedTokens.AnswerTo, SharedTokens.OtherKeys;
    var a, between, b := SharedRequests(fold, h[..i]), SharedRequests(fold, h[i + 1..j]), SharedRequests(fold, h[..j]);
    OneSharedRequest(fold, h[i]);
    OneSharedRequest(fold, h[j]);
    SharedRequestsConcat(fold, h[..i], [h[i]]);
    SharedRequestsConcat(fold, h[..i] + [h[i]], h[i + 1..j]);
    SharedRequestsConcat(fold, h[..j], [h[j]]);
    assert h[..i] + [h[i]] + h[i + 1..j] == h[..j];
    var ri, rj := SharedRequests(fold, [h[i]])[0], SharedRequests(fold, [h[j]])[0];
    var rs := b + [rj];
    assert rs == a + [ri] + between + [rj];
    assert rs[|a|] == ri && rs[|a| + 1..|b|] == between;
    assert rs[..|a| + 1] == a + [ri];
    AnswerToPrefix(rs, |a|);
    SharedTokens.WorkingSet(rs, |a|, |b|);
  }

  lemma AnswerToPrefix(rs: seq<SharedTokens.Request<Key, Claims>>, i: nat)
    requires i < |rs|
    ensures SharedTokens.AnswerTo(SharedTokens.Empty(), rs[..i + 1], i) == SharedTokens.AnswerTo(SharedTokens.Empty(), rs, i)
  {
    assert rs[..i + 1][..i] == rs[..i];
  }

  // ---- The Tracker ----

  /** A request that retrieves the pixel or follows the link. */
  datatype Hit = Hit(ip: string, userAgent: string)

  datatype Event = Event(messageID: string, domain: string, email: string, ip: string, userAgent: string, url: string, mode: Mode)

  /** What the Mode signed into the token lets the event keep. */
  function Retained(hit: Hit, claimed: string, mode: Mode): (string, string, string) {
    if !IsolatesRecipient(mode) then ("", "", "")
    else if mode != FULL then (claimed, "", "")
    else (claimed, hit.ip, hit.userAgent)
  }

  /** The event a hit publishes, if the token verifies on that channel. */
  ghost function Track(axis: Axis, claims: Claims, hit: Hit, now: int): Option<Event> {
    if !Verifies(claims, axis, now) then None
    else
      match ExtractDomain(claims.messageID)
      case None => None
      case Some(domain) =>
        var kept := Retained(hit, claims.email, claims.mode);
        Some(Event(claims.messageID, domain, kept.0, kept.1, kept.2, if axis.Links? then claims.url else "", claims.mode))
  }

  // ---- The Stats worker ----

  /** The wire has a value for each known Mode only; any other arrives unstated. */
  function OnTheWire(mode: Mode): Mode {
    if Rank(mode).Some? then mode else UNSPECIFIED
  }

  /** The wire forgets exactly the statements it has no value for. */
  lemma TheWireForgets(mode: Mode)
    ensures OnTheWire(mode) == mode <==> mode in {UNSPECIFIED, OFF, ANONYMOUS, PSEUDONYMOUS, IDENTIFIED, FULL}
    ensures OnTheWire(mode) != mode ==> !States(OnTheWire(mode))
  {
  }

  datatype Disposition = Counted | Termed | Stored(domain: string)

  /** What becomes of an event at the consumer that writes per-Recipient rows: a row
      under its canonical Domain, none because it is anonymous, or a refusal. */
  function DispositionOf(u: Tables, fold: char -> char, domain: string, email: string, mode: Mode): Disposition {
    match Parse(u, domain)
    case None => Termed
    case Some(name) =>
      if mode == ANONYMOUS then Counted
      else if NamesNobody(fold, email, domain) then Termed
      else Stored(name)
  }

  // ---- End to end ----

  /** A Delivery as the Builder has it: its frozen Policy is what its three levels
      came to, and its Batch's identifier spells out its Domain. */
  datatype Build = Build(domainSays: Policy, batchSays: Policy, recipientSays: Policy, email: string, name: string, domain: string, draw: string) {
    predicate IsWellFormed() {
      IsName(name) && IsCanonical(domain) && IsDraw(draw)
    }

    function Policy(): Policy {
      Resolve(domainSays, batchSays, recipientSays)
    }

    function MessageID(): string {
      BatchID(name, domain)
    }

    function Identity(): TrackingIdentity {
      NewTrackingIdentity(Policy(), email, domain, draw)
    }

    /** What this Delivery asks for on one axis; nothing when the axis is off. */
    function Asks(axis: Axis, url: string, now: int): Option<Asking> {
      var mode := On(Policy(), axis);
      if mode == OFF then None
      else Some(Asking(Key(axis, domain, MessageID(), if axis.Links? then url else "", mode), Identity().Under(mode), now))
    }
  }

  /** What an event of this Delivery on this axis names, by Mode. */
  function Named(b: Build, axis: Axis): string {
    var mode := On(b.Policy(), axis);
    if mode == FULL || mode == IDENTIFIED then b.email
    else if mode == PSEUDONYMOUS then b.draw + "@track." + b.domain
    else ""
  }

  lemma ScaleOf(mode: Mode)
    requires Rank(mode).Some? && mode != OFF
    ensures mode == ANONYMOUS || mode == PSEUDONYMOUS || mode == IDENTIFIED || mode == FULL
    ensures IdentifiesRecipient(mode) <==> mode == IDENTIFIED || mode == FULL
    ensures IsolatesRecipient(mode) <==> mode != ANONYMOUS
    ensures OnTheWire(mode) == mode
  {
  }

  lemma ReservedNames(b: Build)
    ensures NewPseudonym(b.draw, b.domain) == b.draw + "@track." + b.domain
    ensures AnonymousIdentity(b.domain) == "anonymous@track." + b.domain
  {
  }

  /** The mint never refuses what the Builder offers, and its claim is the identity
      the Mode allows. */
  lemma MintOfABuild(fold: char -> char, b: Build, axis: Axis, url: string, now: int, minted: int)
    requires b.IsWellFormed() && b.Asks(axis, url, now).Some?
    ensures var a, mode := b.Asks(axis, url, now).value, On(b.Policy(), axis);
      Mint(fold, a.key, a.offered, minted) ==
        Ok(Claims(b.MessageID(), if mode == ANONYMOUS then "anonymous@track." + b.domain else Named(b, axis), a.key.url, mode, [AudienceOf(axis)], minted))
  {
    hide Resolve, Rank, IsPseudonym, NewPseudonym, AnonymousIdentity, IdentifiesRecipient, IsolatesRecipient, ExtractDomain, BatchID, IsCanonical;
    ResolvedPolicy(b.domainSays, b.batchSays, b.recipientSays, axis);
    ScaleOf(On(b.Policy(), axis));
    DomainOfABatchID(b.name, b.domain);
    DrawsArePseudonyms(fold, b.draw, b.domain);
    ReservedNames(b);
    assert On(b.Policy(), axis) == PSEUDONYMOUS ==> b.Identity().pseudonym == NewPseudonym(b.draw, b.domain);
  }

  /** From any statements at the three levels, through any history of the shared
      cache and any hit, an event says what its axis's Mode allows and no more: the
      address from Identified up, the one pseudonym of the Delivery on either axis
      under Pseudonymous, no one below; the address and agent of the request under
      Full only. And a token answers on its own channel only. */
  lemma {:induction false} EventsSayWhatTheModeAllows(fold: char -> char, b: Build, h: seq<Asking>, axis: Axis, url: string, built: int, at: Axis, hit: Hit, now: int)
    requires b.IsWellFormed() && b.Asks(axis, url, built).Some?
    requires Issued(fold, h, b.Asks(axis, url, built).value).Ok?
    ensures var claims, mode := Issued(fold, h, b.Asks(axis, url, built).value).value, On(b.Policy(), axis);
      Track(at, claims, hit, now) ==
        if at != axis || now >= claims.issuedAt + TOKEN_EXPIRE_PERIOD then None
        else Some(Event(b.MessageID(), b.domain, Named(b, axis),
                        if mode == FULL then hit.ip else "", if mode == FULL then hit.userAgent else "",
                        if axis.Links? then url else "", mode))
  {
    hide Resolve, Rank, Issued, Mint, Verifies, Named, AnonymousIdentity, IsolatesRecipient, ExtractDomain, BatchID, IsCanonical;
    var a := b.Asks(axis, url, built).value;
    IssuedIsMinted(fold, h, a);
    var t :| t in h + [a] && Issued(fold, h, a) == Mint(fold, a.key, a.offered, t.now);
    MintOfABuild(fold, b, axis, url, built, t.now);
    TokensStayOnTheirChannel(fold, a.key, a.offered, t.now, at, now);
    ResolvedPolicy(b.domainSays, b.batchSays, b.recipientSays, axis);
    ScaleOf(On(b.Policy(), axis));
    DomainOfABatchID(b.name, b.domain);
    AnonymousNamesNoOne(b, axis);
  }

  lemma AnonymousNamesNoOne(b: Build, axis: Axis)
    ensures On(b.Policy(), axis) == ANONYMOUS ==> Named(b, axis) == ""
  {
  }

  /** The Builder is never refused: every axis that is on gets its token. */
  lemma EveryTrackedAxisGetsItsToken(fold: char -> char, b: Build, h: seq<Asking>, axis: Axis, url: string, now: int)
    requires b.IsWellFormed()
    ensures b.Asks(axis, url, now).Some? <==> On(b.Policy(), axis) != OFF
    ensures b.Asks(axis, url, now).Some? ==> Issued(fold, h, b.Asks(axis, url, now).value).Ok?
  {
    hide Mint, Resolve, Rank, IsolatesRecipient;
    if b.Asks(axis, url, now).Some? {
      var a := b.Asks(axis, url, now).value;
      MintOfABuild(fold, b, axis, url, now, now);
      assert (h + [a])[..|h|] == h;
      if !IsolatesRecipient(a.key.mode) {
        var rs := SharedRequests(fold, h + [a]);
        assert rs[|rs| - 1] == SharedTokens.Request(a.key, Mint(fold, a.key, a.offered, a.now));
      }
    }
  }

  /** Below Identified an event does not depend on the Recipient's address: two
      Deliveries differing in it, built at any times after any histories, publish
      the very same event for the same hit while their tokens last. They are told
      apart by their draws only, and below Pseudonymous not even by those. */
  lemma {:induction false} EventsBelowIdentifiedHideTheAddress(fold: char -> char, b: Build, b': Build, h: seq<Asking>, h': seq<Asking>,
                                            axis: Axis, url: string, built: int, built': int, hit: Hit, now: int)
    requires b.IsWellFormed() && b'.IsWellFormed() && b' == b.(email := b'.email, draw := b'.draw)
    requires On(b.Policy(), axis) !in {OFF, IDENTIFIED, FULL}
    requires On(b.Policy(), axis) == PSEUDONYMOUS ==> b.draw == b'.draw
    requires b.Asks(axis, url, built).Some? && b'.Asks(axis, url, built').Some?
    requires Issued(fold, h, b.Asks(axis, url, built).value).Ok? && Issued(fold, h', b'.Asks(axis, url, built').value).Ok?
    ensures var c, c' := Issued(fold, h, b.Asks(axis, url, built).value).value, Issued(fold, h', b'.Asks(axis, url, built').value).value;
      now < c.issuedAt + TOKEN_EXPIRE_PERIOD && now < c'.issuedAt + TOKEN_EXPIRE_PERIOD ==>
        Track(axis, c, hit, now).Some? && Track(axis, c, hit, now) == Track(axis, c', hit, now)
  {
    hide Resolve, Issued, Track, BatchID, IsCanonical;
    assert b.Policy() == b'.Policy() && b.MessageID() == b'.MessageID();
    EventsSayWhatTheModeAllows(fold, b, h, axis, url, built, axis, hit, now);
    EventsSayWhatTheModeAllows(fold, b', h', axis, url, built', axis, hit, now);
  }

  /** Outside the reserved namespace, an event carries the Recipient's own address
      exactly when its axis is Identified or Full. */
  lemma TheAddressMeansIdentified(fold: char -> char, b: Build, axis: Axis)
    requires b.IsWellFormed() && b.email != "" && !InReservedNamespace(fold, b.email, b.domain)
    ensures Named(b, axis) == b.email <==> On(b.Policy(), axis) in {IDENTIFIED, FULL}
  {
    DrawsArePseudonyms(fold, b.draw, b.domain);
    ReservedNames(b);
  }

  /** What an event of a Delivery comes to: none and no complaint under Anonymous, a
      row under its pseudonym under Pseudonymous, and one under the address above,
      unless that address is the sentinel that names no one. */
  lemma {:induction false} RowsOfAnEvent(u: Tables, fold: char -> char, b: Build, axis: Axis)
    requires u.FixAllowed() && b.IsWellFormed()
    ensures var mode := On(b.Policy(), axis);
      mode != OFF ==>
        DispositionOf(u, fold, b.domain, Named(b, axis), OnTheWire(mode)) ==
          if mode == ANONYMOUS then Counted
          else if mode != PSEUDONYMOUS && NamesNobody(fold, b.email, b.domain) then Termed
          else Stored(b.domain)
  {
    hide Resolve, Rank, Parse, IsCanonical;
    var mode := On(b.Policy(), axis);
    ResolvedPolicy(b.domainSays, b.batchSays, b.recipientSays, axis);
    if mode != OFF {
      ScaleOf(mode);
      ParseIsCanonical(u, b.domain);
      DrawsArePseudonyms(fold, b.draw, b.domain);
      ReservedNames(b);
    }
  }
}
