/** The identifiers a Delivery's feedback comes back under: the return path of a
    bounce and the Message-ID of a sending event. */
module Addressing {
  import opened Prelude
  import opened Base64
  import opened DomainNames

  // ---- The expressions the parsers match ----

  datatype Regex =
    | DomainRegex     // .+@(.+)
    | EmailIDRegex    // <.+\/(.+)>
    | ReturnPathRegex // bump_([^+]*)\+(.*)

  const BUMP := "bump_"

  /** A match spans from start; mid is its separator and stop ends its last group. */
  datatype Match = Match(start: nat, mid: nat, stop: nat)

  /** A dot in an expression is any character but a line feed. */
  predicate InOneLine(s: string) {
    '\n' !in s
  }

  predicate Matches(re: Regex, s: string, m: Match) {
    match re
    case DomainRegex =>
      m.start < m.mid && m.mid + 1 < m.stop <= |s| && s[m.mid] == '@' && InOneLine(s[m.start..m.stop])
    case EmailIDRegex =>
      && m.start + 1 < m.mid && m.mid + 1 < m.stop < |s|
      && s[m.start] == '<' && s[m.mid] == '/' && s[m.stop] == '>'
      && InOneLine(s[m.start..m.stop])
    case ReturnPathRegex =>
      && m.start + |BUMP| <= m.mid < m.stop <= |s|
      && s[m.start..m.start + |BUMP|] == BUMP && s[m.mid] == '+'
      && '+' !in s[m.start + |BUMP|..m.mid] && InOneLine(s[m.mid + 1..m.stop])
  }

  /** Leftmost first, then each repetition as long as it can be, in turn. */
  predicate Prefers(m: Match, m': Match) {
    || m.start < m'.start
    || (m.start == m'.start && m.mid > m'.mid)
    || (m.start == m'.start && m.mid == m'.mid && m.stop >= m'.stop)
  }

  ghost predicate IsChosen(re: Regex, s: string, m: Match) {
    Matches(re, s, m) && forall m' :: Matches(re, s, m') ==> Prefers(m, m')
  }

  /** The match the engine reports, if there is any. */
  ghost function Find(re: Regex, s: string): Option<Match> {
    if m :| IsChosen(re, s, m) then Some(m) else None
  }

  /** There is a preferred match whenever there is a match. */
  lemma {:induction false} FindsAMatch(re: Regex, s: string, m: Match)
    requires Matches(re, s, m)
    ensures Find(re, s).Some? && IsChosen(re, s, Find(re, s).value)
    decreases m.start, |s| - m.mid, |s| - m.stop
  {
    hide Matches;
    Bounded(re, s, m);
    if !IsChosen(re, s, m) {
      var m' :| Matches(re, s, m') && !Prefers(m, m');
      Bounded(re, s, m');
      FindsAMatch(re, s, m');
    }
  }

  lemma Bounded(re: Regex, s: string, m: Match)
    requires Matches(re, s, m)
    ensures m.mid < |s| && m.stop <= |s|
  {
  }

  lemma FindsTheChosen(re: Regex, s: string, m: Match)
    requires IsChosen(re, s, m)
    ensures Find(re, s) == Some(m)
  {
    hide Matches;
    FindsAMatch(re, s, m);
    var m' := Find(re, s).value;
    assert Prefers(m, m') && Prefers(m', m);
  }

  // ---- Printers ----

  function BuildEmailID(to: seq<Octet>, messageID: string): string {
    "<" + Encode(to) + "/" + messageID + ">"
  }

  function BuildReturnPath(to: seq<Octet>, messageID: string): string {
    BUMP + Encode(to) + "+" + messageID
  }

  const ID_PREFIX := "msg_"

  /** The identifier of a Batch, from a generated name and the Batch's Domain. */
  function BatchID(name: string, domain: string): string {
    ID_PREFIX + name + "@" + domain
  }

  /** Generated names hold letters and digits; this is all the parsers rely on. */
  predicate IsName(name: string) {
    '\n' !in name && '/' !in name && '>' !in name
  }

  // ---- Parsers ----

  ghost function ExtractDomain(messageID: string): Option<string> {
    match Find(DomainRegex, messageID)
    case None => None
    case Some(m) =>
      if m.mid < m.stop <= |messageID| then Some(messageID[m.mid + 1..m.stop]) else None
  }

  ghost function ExtractFromEmailID(emailID: string): Option<(string, string)> {
    match Find(EmailIDRegex, emailID)
    case None => None
    case Some(m) =>
      if m.mid < m.stop <= |emailID| then
        var messageID := emailID[m.mid + 1..m.stop];
        match ExtractDomain(messageID)
        case None => None
        case Some(domain) => Some((messageID, domain))
      else None
  }

  /** Not a return path of Kannon's, one that is corrupt, or the row it names. */
  datatype Bounce = Foreign | Corrupt | Bounce(email: seq<Octet>, messageID: string, domain: string)

  ghost function ParseReturnPath(path: string): Bounce {
    match Find(ReturnPathRegex, path)
    case None => Foreign
    case Some(m) =>
      if m.start + |BUMP| <= m.mid < m.stop <= |path| then
        var messageID := path[m.mid + 1..m.stop];
        var email, domain := Decode(path[m.start + |BUMP|..m.mid]), ExtractDomain(messageID);
        if email.None? || domain.None? then Corrupt else Bounce(email.value, messageID, domain.value)
      else Foreign
  }

  // ---- Round trips ----

  lemma CanonicalIsPlain(domain: string)
    requires IsCanonical(domain)
    ensures IsName(domain) && '@' !in domain
  {
    assert !IsAllowed('\n') && !IsAllowed('/') && !IsAllowed('>') && !IsAllowed('@');
  }

  lemma NoneAfter(head: string, c: char, tail: string, k: nat)
    requires c !in tail && k < |head + [c] + tail| && (head + [c] + tail)[k] == c
    ensures k <= |head|
  {
    var s := head + [c] + tail;
    assert forall i :: |head| < i < |s| ==> s[i] == tail[i - |head| - 1];
  }

  lemma NoneBefore(head: string, c: char, tail: string, k: nat)
    requires c !in head && k < |head + [c] + tail| && (head + [c] + tail)[k] == c
    ensures |head| <= k
  {
    var s := head + [c] + tail;
    assert forall i :: 0 <= i < |head| ==> s[i] == head[i];
  }

  /** A Batch identifier spells its Domain out. */
  lemma DomainOfABatchID(name: string, domain: string)
    requires IsName(name) && IsCanonical(domain)
    ensures ExtractDomain(BatchID(name, domain)) == Some(domain)
    ensures IsName(BatchID(name, domain)) && BatchID(name, domain) != ""
  {
    var id := BatchID(name, domain);
    var m := Match(0, |ID_PREFIX + name|, |id|);
    CanonicalIsPlain(domain);
    assert IsName(ID_PREFIX) && IsName("@");
    assert id[m.start..m.stop] == id;
    assert id[m.mid + 1..] == domain;
    assert Matches(DomainRegex, id, m);
    forall m' | Matches(DomainRegex, id, m') ensures Prefers(m, m') {
      NoneAfter(ID_PREFIX + name, '@', domain, m'.mid);
    }
    FindsTheChosen(DomainRegex, id, m);
  }

  lemma EncodedAddressIsPlain(to: seq<Octet>)
    ensures IsName(Encode(to)) && '+' !in Encode(to)
  {
    EncodingIsPlain(to);
  }

  /** A sending event names the Batch and Domain it came from, exactly when the
      address is not empty. */
  lemma EmailIDRoundTrip(to: seq<Octet>, name: string, domain: string)
    requires IsName(name) && IsCanonical(domain)
    ensures ExtractFromEmailID(BuildEmailID(to, BatchID(name, domain))) ==
      (if to == [] then None else Some((BatchID(name, domain), domain)))
  {
    hide ExtractDomain, Encode, BatchID, Matches, IsCanonical;
    var id := BatchID(name, domain);
    var s := BuildEmailID(to, id);
    DomainOfABatchID(name, domain);
    EncodingIsPlain(to);
    EncodedAddressIsPlain(to);
    EmailIDMatch(Encode(to), id);
    if to == [] {
      assert forall m :: !IsChosen(EmailIDRegex, s, m);
    } else {
      FindsTheChosen(EmailIDRegex, s, Match(0, |Encode(to)| + 1, |s| - 1));
      assert s[|Encode(to)| + 2..|s| - 1] == id;
    }
  }

  lemma EmailIDMatch(address: string, id: string)
    requires IsName(address) && IsName(id) && id != ""
    ensures var s := "<" + address + "/" + id + ">";
      if address == "" then forall m :: !Matches(EmailIDRegex, s, m)
      else IsChosen(EmailIDRegex, s, Match(0, |address| + 1, |s| - 1))
  {
    var s := "<" + address + "/" + id + ">";
    assert s == ("<" + address) + ['/'] + (id + ">");
    assert '/' !in "<" && '/' !in ">";
    assert IsName("<" + address) && '\n' !in s;
    forall m | Matches(EmailIDRegex, s, m) ensures m.mid == |address| + 1 {
      NoneBefore("<" + address, '/', id + ">", m.mid);
      NoneAfter("<" + address, '/', id + ">", m.mid);
    }
    if address != "" {
      assert Matches(EmailIDRegex, s, Match(0, |address| + 1, |s| - 1));
    }
  }

  /** A bounce names the row it came from, for every address and every Batch. */
  lemma ReturnPathRoundTrip(to: seq<Octet>, name: string, domain: string)
    requires IsName(name) && IsCanonical(domain)
    ensures ParseReturnPath(BuildReturnPath(to, BatchID(name, domain))) == Bounce(to, BatchID(name, domain), domain)
  {
    hide ExtractDomain, Decode, Encode, BatchID, Matches, IsCanonical;
    var id := BatchID(name, domain);
    var s := BuildReturnPath(to, id);
    DomainOfABatchID(name, domain);
    EncodedAddressIsPlain(to);
    Base64RoundTrip(to);
    ReturnPathMatch(Encode(to), id);
    var m := Match(0, |BUMP + Encode(to)|, |s|);
    FindsTheChosen(ReturnPathRegex, s, m);
    assert s[|BUMP|..m.mid] == Encode(to) && s[m.mid + 1..m.stop] == id;
  }

  lemma Within(s: string, low: nat, k: nat, high: nat)
    requires low <= k < high <= |s|
    ensures s[k] in s[low..high]
  {
    assert s[low..high][k - low] == s[k];
  }

  lemma ReturnPathMatch(address: string, id: string)
    requires '+' !in address && IsName(id)
    ensures var s := BUMP + address + "+" + id;
      IsChosen(ReturnPathRegex, s, Match(0, |BUMP + address|, |s|))
  {
    var s := BUMP + address + "+" + id;
    var m := Match(0, |BUMP + address|, |s|);
    assert s[m.start..m.start + |BUMP|] == BUMP && s[|BUMP|..m.mid] == address && s[m.mid + 1..m.stop] == id;
    assert Matches(ReturnPathRegex, s, m);
    forall m' | Matches(ReturnPathRegex, s, m') ensures Prefers(m, m') {
      if m'.start == 0 && m.mid < m'.mid {
        Within(s, |BUMP|, m.mid, m'.mid);
      }
    }
  }

  /** So no two rows share a return path. */
  lemma ReturnPathsAreDistinct(to: seq<Octet>, name: string, domain: string, to': seq<Octet>, name': string, domain': string)
    requires IsName(name) && IsCanonical(domain) && IsName(name') && IsCanonical(domain')
    ensures BuildReturnPath(to, BatchID(name, domain)) == BuildReturnPath(to', BatchID(name', domain'))
       <==> to == to' && BatchID(name, domain) == BatchID(name', domain')
  {
    hide BuildReturnPath, ParseReturnPath, BatchID, IsCanonical;
    ReturnPathRoundTrip(to, name, domain);
    ReturnPathRoundTrip(to', name', domain');
  }
}
