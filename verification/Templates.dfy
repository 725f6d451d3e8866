/** Placeholders in the one-click unsubscribe URL: substituted field by field, over a
    map whose order is not fixed. A character of a value stands for one byte. */
module Templates {
  import opened Prelude

  type Fields = map<string, string>

  // ---- Escaping ----

  function HexDigit(n: nat): char
    requires n < 16
  {
    if n < 10 then '0' + n as char else 'A' + (n - 10) as char
  }

  predicate IsUnreserved(c: char) {
    'A' <= c <= 'Z' || 'a' <= c <= 'z' || '0' <= c <= '9' || c == '-' || c == '_' || c == '.' || c == '~'
  }

  function Escaped(c: char): string {
    if IsUnreserved(c) then [c]
    else if c == ' ' then "+"
    else ['%', HexDigit(c as int / 16 % 16), HexDigit(c as int % 16)]
  }

  /** Percent-encoding for a query component. */
  function QueryEscape(v: string): string {
    if |v| == 0 then "" else Escaped(v[0]) + QueryEscape(v[1..])
  }

  predicate HasNoBraces(s: string) {
    '{' !in s && '}' !in s
  }

  /** An escaped value is inert: no brace to form a placeholder, no dollar for a
      replacement to expand. */
  lemma {:induction false} EscapedIsInert(v: string)
    ensures HasNoBraces(QueryEscape(v)) && '$' !in QueryEscape(v)
  {
    if |v| > 0 {
      EscapedIsInert(v[1..]);
    }
  }

  /** A character that stands for one byte. */
  predicate IsByte(c: char) {
    c as int < 256
  }

  function HexValue(c: char): Option<nat> {
    if '0' <= c <= '9' then Some(c as nat - '0' as nat)
    else if 'A' <= c <= 'F' then Some(c as nat - 'A' as nat + 10)
    else if 'a' <= c <= 'f' then Some(c as nat - 'a' as nat + 10)
    else None
  }

  /** What a server reads in a query: a plus as a space, a percent with two digits, the
      high one first, as the byte they spell, anything else as itself. None where a
      percent has not its digits. */
  function QueryUnescape(s: string): Option<string> {
    if |s| == 0 then Some("")
    else if s[0] == '%' then
      if |s| < 3 || HexValue(s[1]).None? || HexValue(s[2]).None? then None
      else
        match QueryUnescape(s[3..])
        case None => None
        case Some(rest) => Some([(16 * HexValue(s[1]).value + HexValue(s[2]).value) as char] + rest)
    else
      match QueryUnescape(s[1..])
      case None => None
      case Some(rest) => Some([if s[0] == '+' then ' ' else s[0]] + rest)
  }

  /** Unreserved characters, pluses and percent triples in upper case. */
  predicate IsQueryText(s: string) {
    |s| == 0
    || ((IsUnreserved(s[0]) || s[0] == '+') && IsQueryText(s[1..]))
    || (|s| >= 3 && s[0] == '%' && s[1] in "0123456789ABCDEF" && s[2] in "0123456789ABCDEF" && IsQueryText(s[3..]))
  }

  lemma HexOf(n: nat)
    requires n < 256
    ensures HexDigit(n / 16 % 16) in "0123456789ABCDEF" && HexDigit(n % 16) in "0123456789ABCDEF"
    ensures HexValue(HexDigit(n / 16 % 16)) == Some(n / 16) && HexValue(HexDigit(n % 16)) == Some(n % 16)
  {
    hide HexDigit, HexValue;
    assert n / 16 < 16 && n / 16 % 16 == n / 16;
    HexSymbol(n / 16);
    HexSymbol(n % 16);
  }

  lemma HexSymbol(d: nat)
    requires d < 16
    ensures HexDigit(d) in "0123456789ABCDEF" && HexValue(HexDigit(d)) == Some(d)
  {
    assert HexDigit(d) == "0123456789ABCDEF"[d];
  }

  /** The escaped value is the value: whatever it is, a server reads it back. It is made
      of query text only, and is the value itself exactly when nothing needs escaping. */
  lemma {:induction false} EscapedReadsBack(v: string)
    requires forall c :: c in v ==> IsByte(c)
    ensures QueryUnescape(QueryEscape(v)) == Some(v)
    ensures IsQueryText(QueryEscape(v))
    ensures |QueryEscape(v)| >= |v|
    ensures QueryEscape(v) == v <==>
      forall c :: c in v ==> 'A' <= c <= 'Z' || 'a' <= c <= 'z' || '0' <= c <= '9' || c in "-_.~"
  {
    assert forall c :: IsUnreserved(c) <==> 'A' <= c <= 'Z' || 'a' <= c <= 'z' || '0' <= c <= '9' || c in "-_.~";
    hide Escaped, IsUnreserved, IsByte, QueryUnescape, IsQueryText;
    if |v| == 0 {
      EmptyReadsBack();
    } else {
      assert v == [v[0]] + v[1..] && v[0] in v;
      EscapedReadsBack(v[1..]);
      ByteReadsBack(v[0], QueryEscape(v[1..]));
      SameHead(v[0], Escaped(v[0]), v[1..], QueryEscape(v[1..]));
    }
  }

  lemma EmptyReadsBack()
    ensures QueryUnescape("") == Some("") && IsQueryText("")
  {
  }

  lemma SameHead(c: char, head: string, rest: string, rest': string)
    requires |head| >= 1 && |rest'| >= |rest|
    ensures head + rest' == [c] + rest <==> head == [c] && rest' == rest
  {
    if head + rest' == [c] + rest {
      assert |head| == 1 && (head + rest')[0] == c && (head + rest')[1..] == rest' && ([c] + rest)[1..] == rest;
    }
  }

  lemma ByteReadsBack(c: char, rest: string)
    requires IsByte(c) && IsQueryText(rest) && QueryUnescape(rest).Some?
    ensures |Escaped(c)| >= 1 && (Escaped(c) == [c] <==> IsUnreserved(c))
    ensures IsQueryText(Escaped(c) + rest) && QueryUnescape(Escaped(c) + rest) == Some([c] + QueryUnescape(rest).value)
  {
    hide HexDigit, HexValue, IsUnreserved;
    var s := Escaped(c) + rest;
    PlainMarks();
    HexOf(c as int);
    if IsUnreserved(c) || c == ' ' {
      assert s[1..] == rest;
    } else {
      assert s[3..] == rest;
    }
  }

  lemma PlainMarks()
    ensures !IsUnreserved('%') && !IsUnreserved('+') && !IsUnreserved(' ')
  {
  }

  // ---- Substitution, as the strings are rewritten ----

  function Spaces(s: string): (n: nat)
    ensures n <= |s|
    ensures forall i :: 0 <= i < n ==> s[i] == ' '
    ensures n < |s| ==> s[n] != ' '
  {
    if |s| > 0 && s[0] == ' ' then 1 + Spaces(s[1..]) else 0
  }

  const OPEN := "{{"
  const CLOSE := "}}"

  function AfterSpaces(s: string): string {
    s[Spaces(s)..]
  }

  /** How long a placeholder naming key at the start of s is, if one is there. */
  function PlaceholderLength(s: string, key: string): Option<nat> {
    if !(OPEN <= s) then None
    else
      var named := AfterSpaces(s[2..]);
      if !(key <= named) then None
      else
        var closing := AfterSpaces(named[|key|..]);
        if CLOSE <= closing then Some(|s| - |closing| + 2) else None
  }

  /** Every placeholder naming key, left to right, becomes v. */
  function ReplaceAll(s: string, key: string, v: string): string
    decreases |s|
  {
    if |s| == 0 then ""
    else
      match PlaceholderLength(s, key)
      case Some(n) => if 0 < n <= |s| then v + ReplaceAll(s[n..], key, v) else ""
      case None => [s[0]] + ReplaceAll(s[1..], key, v)
  }

  const METACHARACTERS := "\\.+*?()|[]{}^$"

  /** A name that stands for itself in an expression and is not padded. */
  predicate IsPlain(key: string) {
    && (forall c :: c in METACHARACTERS ==> c !in key)
    && (key != "" ==> key[0] != ' ' && key[|key| - 1] != ' ')
  }

  /** What the expression of a name that is not plain makes of s, given the value:
      anything at all. */
  type Engine = (string, string, string) -> string

  function ReplaceField(other: Engine, s: string, key: string, v: string): string {
    if IsPlain(key) then ReplaceAll(s, key, v) else other(s, key, v)
  }

  /** The fields substituted one after the other in the given order. */
  function Substituted(other: Engine, s: string, fields: Fields, order: seq<string>): string {
    if |order| == 0 then s
    else
      var before, key := Substituted(other, s, fields, order[..|order| - 1]), order[|order| - 1];
      if key in fields then ReplaceField(other, before, key, QueryEscape(fields[key])) else before
  }

  ghost predicate IsOrderOf(order: seq<string>, fields: Fields) {
    && (forall k :: k in order <==> k in fields)
    && forall i, j :: 0 <= i < j < |order| ==> order[i] != order[j]
  }

  /** The loop over the map, whose next key is anyone's choice. */
  method ReplaceCustomFieldsInURL(other: Engine, str: string, fields: Fields) returns (out: string, ghost order: seq<string>)
    ensures IsOrderOf(order, fields) && out == Substituted(other, str, fields, order)
    ensures exists keys :: IsOrderOf(keys, fields) && out == Substituted(other, str, fields, keys)
  {
    out, order := str, [];
    var rest := fields.Keys;
    while rest != {}
      invariant rest <= fields.Keys
      invariant forall k :: k in order <==> k in fields && k !in rest
      invariant forall i, j :: 0 <= i < j < |order| ==> order[i] != order[j]
      invariant out == Substituted(other, str, fields, order)
    {
      var key :| key in rest;
      out := ReplaceField(other, out, key, QueryEscape(fields[key]));
      assert (order + [key])[..|order|] == order;
      order, rest := order + [key], rest - {key};
    }
  }

  /** A placeholder of any name is left. */
  predicate HasUnresolvedPlaceholders(s: string) {
    exists i, j :: 0 <= i < |s| && 0 <= j < |s| && IsPlaceholder(s, i, j)
  }

  predicate IsPlaceholder(s: string, i: int, j: int) {
    0 <= i && i + 2 <= j <= |s| - 2 && s[i..i + 2] == OPEN && HasNoBraces(s[i + 2..j]) && s[j..j + 2] == CLOSE
  }

  const EMAIL := "email"

  /** The Recipient's own fields, over a default holding the address. */
  method EffectiveFields(email: string, fields: Fields) returns (out: Fields)
    ensures out.Keys == fields.Keys + {EMAIL}
    ensures forall k :: k in fields ==> out[k] == fields[k]
    ensures EMAIL !in fields ==> out[EMAIL] == email
    ensures out == Effective(email, fields)
  {
    out := map[EMAIL := email];
    var rest := fields.Keys;
    while rest != {}
      invariant rest <= fields.Keys
      invariant out.Keys == {EMAIL} + (fields.Keys - rest)
      invariant forall k :: k in fields && k !in rest ==> out[k] == fields[k]
      invariant EMAIL !in fields || EMAIL in rest ==> out[EMAIL] == email
    {
      var k :| k in rest;
      out, rest := out[k := fields[k]], rest - {k};
    }
  }

  function Effective(email: string, fields: Fields): Fields {
    map[EMAIL := email] + fields
  }

  // ---- Flat templates ----

  datatype Piece = Text(text: string) | Hole(inside: string)

  /** Placeholders are not nested and no brace is left over. */
  predicate IsFlat(ps: seq<Piece>) {
    forall p :: p in ps ==> HasNoBraces(Inside(p))
  }

  function Inside(p: Piece): string {
    match p
    case Text(t) => t
    case Hole(t) => t
  }

  function Shown(p: Piece): string {
    match p
    case Text(t) => t
    case Hole(t) => OPEN + t + CLOSE
  }

  function Render(ps: seq<Piece>): string {
    if |ps| == 0 then "" else Shown(ps[0]) + Render(ps[1..])
  }

  function TrimRight(s: string): string {
    if |s| > 0 && s[|s| - 1] == ' ' then TrimRight(s[..|s| - 1]) else s
  }

  /** The name a placeholder asks for. */
  function Name(inside: string): string {
    TrimRight(AfterSpaces(inside))
  }

  function FilledWith(p: Piece, key: string, v: string): Piece {
    if p.Hole? && Name(p.inside) == key then Text(v) else p
  }

  function FillOne(ps: seq<Piece>, key: string, v: string): seq<Piece> {
    seq(|ps|, i requires 0 <= i < |ps| => FilledWith(ps[i], key, v))
  }

  function Filled(p: Piece, fields: Fields): Piece {
    if p.Hole? && Name(p.inside) in fields then Text(QueryEscape(fields[Name(p.inside)])) else p
  }

  /** Every placeholder whose name is a field, filled at once. */
  function Fill(ps: seq<Piece>, fields: Fields): seq<Piece> {
    seq(|ps|, i requires 0 <= i < |ps| => Filled(ps[i], fields))
  }

  // ---- One placeholder ----

  lemma PlainHasNoBraces(key: string)
    requires IsPlain(key)
    ensures HasNoBraces(key)
  {
    assert '{' in METACHARACTERS && '}' in METACHARACTERS;
  }

  lemma CountsSpaces(s: string, n: nat)
    requires n <= |s| && forall i :: 0 <= i < n ==> s[i] == ' '
    requires n < |s| ==> s[n] != ' '
    ensures Spaces(s) == n
  {
    hide Spaces;
    assert Spaces(s) < |s| ==> s[Spaces(s)] != ' ';
  }

  lemma SpacesBefore(x: string, y: string)
    requires y != "" && y[0] != ' '
    ensures Spaces(x + y) == Spaces(x)
  {
    assert forall i :: 0 <= i < |x| ==> (x + y)[i] == x[i];
    assert (x + y)[|x|] == y[0];
    CountsSpaces(x + y, Spaces(x));
  }

  lemma {:induction false} TrimmedRight(s: string)
    ensures TrimRight(s) <= s
    ensures forall i :: |TrimRight(s)| <= i < |s| ==> s[i] == ' '
    ensures TrimRight(s) != "" ==> TrimRight(s)[|TrimRight(s)| - 1] != ' '
  {
    if |s| > 0 && s[|s| - 1] == ' ' {
      TrimmedRight(s[..|s| - 1]);
    }
  }

  /** Unpadded, key is what trimming leaves exactly when only spaces follow it. */
  lemma TrimsTo(s: string, key: string)
    requires key != "" ==> key[|key| - 1] != ' '
    ensures TrimRight(s) == key <==> key <= s && Spaces(s[|key|..]) == |s| - |key|
  {
    hide Spaces, TrimRight;
    TrimmedRight(s);
    if key <= s {
      assert forall i :: 0 <= i < |s| - |key| ==> s[|key|..][i] == s[|key| + i];
      assert forall i :: |key| <= i < |s| ==> s[i] == s[|key|..][i - |key|];
      assert Spaces(s[|key|..]) < |s| - |key| ==> s[|key|..][Spaces(s[|key|..])] != ' ';
      if Spaces(s[|key|..]) == |s| - |key| {
        OneTrim(s, TrimRight(s), key);
      }
    }
  }

  lemma OneTrim(s: string, t: string, t': string)
    requires t <= s && t' <= s
    requires forall i :: |t| <= i < |s| ==> s[i] == ' '
    requires forall i :: |t'| <= i < |s| ==> s[i] == ' '
    requires t != "" ==> t[|t| - 1] != ' '
    requires t' != "" ==> t'[|t'| - 1] != ' '
    ensures t == t'
  {
    assert forall i :: 0 <= i < |t| ==> t[i] == s[i];
    assert forall i :: 0 <= i < |t'| ==> t'[i] == s[i];
  }

  lemma PrefixWithin(key: string, c: string, rest: string)
    requires HasNoBraces(key)
    ensures key <= c + CLOSE + rest <==> key <= c
  {
    var s := c + CLOSE + rest;
    assert s[..|c|] == c && s[|c|] == '}';
    assert key <= s ==> forall i :: 0 <= i < |key| ==> key[i] == s[i];
    assert key <= c ==> key <= s;
  }

  lemma AfterSpacesBefore(x: string, y: string)
    requires y != "" && y[0] != ' '
    ensures AfterSpaces(x + y) == AfterSpaces(x) + y
  {
    hide Spaces;
    SpacesBefore(x, y);
  }

  /** A placeholder names key exactly when key is its trimmed name. */
  lemma PlaceholderOfAHole(c: string, rest: string, key: string)
    requires HasNoBraces(c) && IsPlain(key)
    ensures PlaceholderLength(OPEN + c + CLOSE + rest, key) == (if Name(c) == key then Some(|c| + 4) else None)
  {
    hide AfterSpaces, TrimRight, IsPlain;
    var s, bare := OPEN + c + CLOSE + rest, AfterSpaces(c);
    assert s[2..] == c + (CLOSE + rest);
    AfterSpacesBefore(c, CLOSE + rest);
    assert bare + (CLOSE + rest) == bare + CLOSE + rest;
    NameOfAHole(c, key);
    PlainHasNoBraces(key);
    PrefixWithin(key, bare, rest);
    if key <= bare {
      AfterName(bare, rest, key);
    }
  }

  lemma NameOfAHole(c: string, key: string)
    requires HasNoBraces(c) && IsPlain(key)
    ensures var bare := AfterSpaces(c); HasNoBraces(bare) && (Name(c) == key <==> key <= bare && AfterSpaces(bare[|key|..]) == "")
  {
    hide Spaces, TrimRight, IsPlain;
    PlainIsUnpadded(key);
    TrimsTo(AfterSpaces(c), key);
  }

  lemma AfterName(bare: string, rest: string, key: string)
    requires HasNoBraces(bare) && key <= bare
    ensures var closing := AfterSpaces((bare + CLOSE + rest)[|key|..]);
      && (CLOSE <= closing <==> AfterSpaces(bare[|key|..]) == "")
      && |closing| == |AfterSpaces(bare[|key|..])| + 2 + |rest|
  {
    hide AfterSpaces;
    var after := bare[|key|..];
    assert (bare + CLOSE + rest)[|key|..] == after + (CLOSE + rest);
    AfterSpacesBefore(after, CLOSE + rest);
    Closes(after, rest);
    assert AfterSpaces(after) + (CLOSE + rest) == AfterSpaces(after) + CLOSE + rest;
  }

  lemma PlainIsUnpadded(key: string)
    requires IsPlain(key)
    ensures key != "" ==> key[0] != ' ' && key[|key| - 1] != ' '
  {
  }

  lemma Closes(after: string, rest: string)
    requires HasNoBraces(after)
    ensures CLOSE <= AfterSpaces(after) + CLOSE + rest <==> AfterSpaces(after) == ""
  {
    hide Spaces;
    var left := AfterSpaces(after);
    if left == "" {
      assert left + CLOSE + rest == CLOSE + rest;
    } else {
      assert (left + CLOSE + rest)[0] == after[Spaces(after)];
    }
  }

  // ---- One pass over a flat template ----

  lemma ReplaceStep(s: string, key: string, v: string)
    requires s != ""
    ensures PlaceholderLength(s, key).None? ==> ReplaceAll(s, key, v) == [s[0]] + ReplaceAll(s[1..], key, v)
    ensures PlaceholderLength(s, key).Some? && 0 < PlaceholderLength(s, key).value <= |s| ==>
      ReplaceAll(s, key, v) == v + ReplaceAll(s[PlaceholderLength(s, key).value..], key, v)
    ensures !(OPEN <= s) ==> PlaceholderLength(s, key).None?
  {
  }

  /** Text without an opening brace is copied. */
  lemma {:induction false} CopiesText(t: string, rest: string, key: string, v: string)
    requires '{' !in t
    ensures ReplaceAll(t + rest, key, v) == t + ReplaceAll(rest, key, v)
  {
    hide ReplaceAll, PlaceholderLength;
    if t == "" {
      assert t + rest == rest;
    } else {
      var s := t + rest;
      CopiesText(t[1..], rest, key, v);
      assert s[0] == t[0] && s[1..] == t[1..] + rest;
      ReplaceStep(s, key, v);
      assert t == [t[0]] + t[1..];
    }
  }

  /** A placeholder becomes the value or is copied whole. */
  lemma ReplacesAHole(c: string, rest: string, key: string, v: string)
    requires HasNoBraces(c) && IsPlain(key)
    ensures ReplaceAll(OPEN + c + CLOSE + rest, key, v) ==
      (if Name(c) == key then v else OPEN + c + CLOSE) + ReplaceAll(rest, key, v)
  {
    hide ReplaceAll, PlaceholderLength, Name, IsPlain;
    var s := OPEN + c + CLOSE + rest;
    PlaceholderOfAHole(c, rest, key);
    ReplaceStep(s, key, v);
    if Name(c) == key {
      assert s[|c| + 4..] == rest;
    } else {
      // The second brace opens nothing, and neither do the name and what closes it.
      var tail := s[1..];
      assert tail[0] == '{' && tail[1] != '{';
      ReplaceStep(tail, key, v);
      assert tail[1..] == (c + CLOSE) + rest;
      CopiesText(c + CLOSE, rest, key, v);
      assert OPEN + c + CLOSE == ['{'] + (['{'] + (c + CLOSE));
    }
  }

  lemma {:induction false} ReplaceAllFillsOne(ps: seq<Piece>, key: string, v: string)
    requires IsFlat(ps) && IsPlain(key)
    ensures ReplaceAll(Render(ps), key, v) == Render(FillOne(ps, key, v))
  {
    hide ReplaceAll, Name, IsPlain, Render, FilledWith;
    if ps == [] {
      NothingToReplace(key, v);
      NothingToRender();
      assert FillOne(ps, key, v) == [];
    } else {
      var p, rest := ps[0], ps[1..];
      assert p in ps && IsFlat(rest);
      ReplaceAllFillsOne(rest, key, v);
      assert ps == [p] + rest;
      assert FillOne(ps, key, v) == [FilledWith(p, key, v)] + FillOne(rest, key, v);
      RenderCons(p, rest);
      RenderCons(FilledWith(p, key, v), FillOne(rest, key, v));
      ReplacesAPiece(p, Render(rest), key, v);
    }
  }

  lemma ReplacesAPiece(p: Piece, rest: string, key: string, v: string)
    requires HasNoBraces(Inside(p)) && IsPlain(key)
    ensures ReplaceAll(Shown(p) + rest, key, v) == Shown(FilledWith(p, key, v)) + ReplaceAll(rest, key, v)
  {
    hide ReplaceAll, Name, IsPlain;
    match p
    case Text(t) => CopiesText(t, rest, key, v);
    case Hole(c) => ReplacesAHole(c, rest, key, v);
  }

  lemma RenderCons(p: Piece, rest: seq<Piece>)
    ensures Render([p] + rest) == Shown(p) + Render(rest)
  {
    assert ([p] + rest)[1..] == rest;
  }

  lemma NothingToRender()
    ensures Render([]) == ""
  {
  }

  lemma NothingToReplace(key: string, v: string)
    ensures ReplaceAll("", key, v) == ""
  {
  }

  // ---- Any order ----

  /** The fields of the order's first keys. */
  function Only(fields: Fields, order: seq<string>): Fields {
    map k | k in fields && k in order :: fields[k]
  }

  /** Substituting in any order fills every placeholder that a field so far names. */
  lemma {:induction false} SubstitutedFills(other: Engine, ps: seq<Piece>, fields: Fields, order: seq<string>)
    requires IsFlat(ps) && forall k :: k in fields ==> IsPlain(k)
    ensures Substituted(other, Render(ps), fields, order) == Render(Fill(ps, Only(fields, order)))
  {
    hide Name, IsPlain, Render, ReplaceAll;
    if order == [] {
      assert Fill(ps, Only(fields, order)) == ps;
    } else {
      var before, key := order[..|order| - 1], order[|order| - 1];
      assert order == before + [key];
      SubstitutedFills(other, ps, fields, before);
      var filled := Fill(ps, Only(fields, before));
      if key in fields {
        FillKeepsFlat(ps, Only(fields, before));
        ReplaceAllFillsOne(filled, key, QueryEscape(fields[key]));
        assert FillOne(filled, key, QueryEscape(fields[key])) == Fill(ps, Only(fields, order));
      } else {
        assert Only(fields, order) == Only(fields, before);
      }
    }
  }

  lemma FillKeepsFlat(ps: seq<Piece>, fields: Fields)
    requires IsFlat(ps)
    ensures IsFlat(Fill(ps, fields))
  {
    forall p | p in Fill(ps, fields) ensures HasNoBraces(Inside(p)) {
      var i :| 0 <= i < |ps| && p == Filled(ps[i], fields);
      assert ps[i] in ps;
      if p != ps[i] {
        EscapedIsInert(fields[Name(ps[i].inside)]);
      }
    }
  }

  /** The iteration order of the map is irrelevant. */
  lemma SubstitutionIsConfluent(other: Engine, ps: seq<Piece>, fields: Fields, order: seq<string>)
    requires IsFlat(ps) && (forall k :: k in fields ==> IsPlain(k)) && IsOrderOf(order, fields)
    ensures Substituted(other, Render(ps), fields, order) == Render(Fill(ps, fields))
  {
    SubstitutedFills(other, ps, fields, order);
    assert Only(fields, order) == fields;
  }

  // ---- What is left unresolved ----

  lemma HoleIsAPlaceholder(before: string, c: string, after: string)
    requires HasNoBraces(c)
    ensures HasUnresolvedPlaceholders(before + (OPEN + c + CLOSE) + after)
  {
    var s := before + (OPEN + c + CLOSE) + after;
    var i, j := |before|, |before| + 2 + |c|;
    assert s[i..i + 2] == OPEN && s[i + 2..j] == c && s[j..j + 2] == CLOSE;
    assert IsPlaceholder(s, i, j);
  }

  lemma {:induction false} RenderSplit(ps: seq<Piece>, i: nat)
    requires i < |ps|
    ensures Render(ps) == Render(ps[..i]) + Shown(ps[i]) + Render(ps[i + 1..])
  {
    hide Shown;
    if i == 0 {
      assert Render(ps[..0]) == "";
    } else {
      RenderSplit(ps[1..], i - 1);
      assert ps[1..][..i - 1] == ps[..i][1..] && ps[1..][i..] == ps[i + 1..] && ps[1..][i - 1] == ps[i];
      assert Render(ps[..i]) == Shown(ps[0]) + Render(ps[..i][1..]);
    }
  }

  lemma {:induction false} OnlyTextHasNoBraces(ps: seq<Piece>)
    requires IsFlat(ps) && forall p :: p in ps ==> p.Text?
    ensures HasNoBraces(Render(ps))
  {
    if ps != [] {
      assert ps[0] in ps;
      OnlyTextHasNoBraces(ps[1..]);
    }
  }

  lemma PlaceholderHasABrace(s: string, i: int, j: int)
    requires IsPlaceholder(s, i, j)
    ensures !HasNoBraces(s)
  {
    assert s[i] == s[i..i + 2][0];
  }

  /** A flat template is unresolved exactly while a placeholder is left in it. */
  lemma UnresolvedIsAHoleLeft(ps: seq<Piece>)
    requires IsFlat(ps)
    ensures HasUnresolvedPlaceholders(Render(ps)) <==> exists i :: 0 <= i < |ps| && ps[i].Hole?
  {
    if i :| 0 <= i < |ps| && ps[i].Hole? {
      assert ps[i] in ps;
      RenderSplit(ps, i);
      HoleIsAPlaceholder(Render(ps[..i]), ps[i].inside, Render(ps[i + 1..]));
    } else {
      forall p | p in ps ensures p.Text? {
      }
      OnlyTextHasNoBraces(ps);
      var s := Render(ps);
      if i, j :| IsPlaceholder(s, i, j) {
        PlaceholderHasABrace(s, i, j);
      }
    }
  }

  predicate IsResolved(ps: seq<Piece>, fields: Fields) {
    forall i :: 0 <= i < |ps| && ps[i].Hole? ==> Name(ps[i].inside) in fields
  }

  /** Substitution leaves a placeholder exactly when some placeholder's name is not a
      field, whatever the order. */
  lemma UnresolvedIsAMissingField(other: Engine, ps: seq<Piece>, fields: Fields, order: seq<string>)
    requires IsFlat(ps) && (forall k :: k in fields ==> IsPlain(k)) && IsOrderOf(order, fields)
    ensures HasUnresolvedPlaceholders(Substituted(other, Render(ps), fields, order)) <==> !IsResolved(ps, fields)
  {
    hide Name, IsPlain, Render, Substituted, HasUnresolvedPlaceholders;
    SubstitutionIsConfluent(other, ps, fields, order);
    FillKeepsFlat(ps, fields);
    var filled := Fill(ps, fields);
    UnresolvedIsAHoleLeft(filled);
    if i :| 0 <= i < |ps| && ps[i].Hole? && Name(ps[i].inside) !in fields {
      assert filled[i].Hole?;
    }
  }

  // ---- Intake and Builder ----

  /** What one run of either caller makes of the template; None is a refusal at
      intake and a missing header at the Builder. */
  ghost function ResolvedURL(other: Engine, template: string, fields: Fields, order: seq<string>): Option<string> {
    var resolved := Substituted(other, template, fields, order);
    if HasUnresolvedPlaceholders(resolved) then None else Some(resolved)
  }

  /** A Recipient accepted at intake always gets its header, and the very URL intake
      judged, though the two iterate in orders of their own. */
  lemma IntakeAgreesWithTheBuilder(other: Engine, ps: seq<Piece>, email: string, fields: Fields, intake: seq<string>, builder: seq<string>)
    requires IsFlat(ps) && forall k :: k in fields ==> IsPlain(k)
    requires IsOrderOf(intake, Effective(email, fields)) && IsOrderOf(builder, Effective(email, fields))
    ensures ResolvedURL(other, Render(ps), Effective(email, fields), intake) == ResolvedURL(other, Render(ps), Effective(email, fields), builder)
    ensures ResolvedURL(other, Render(ps), Effective(email, fields), intake) ==
      (if IsResolved(ps, Effective(email, fields)) then Some(Render(Fill(ps, Effective(email, fields)))) else None)
  {
    hide IsPlain, Render, Substituted, HasUnresolvedPlaceholders, IsResolved;
    var effective := Effective(email, fields);
    assert IsPlain(EMAIL) by {
      EmailIsPlain();
    }
    UnresolvedIsAMissingField(other, ps, effective, intake);
    UnresolvedIsAMissingField(other, ps, effective, builder);
    SubstitutionIsConfluent(other, ps, effective, intake);
    SubstitutionIsConfluent(other, ps, effective, builder);
  }

  lemma EmailIsPlain()
    ensures IsPlain(EMAIL)
  {
    assert forall i :: 0 <= i < |METACHARACTERS| ==> METACHARACTERS[i] !in EMAIL;
  }

  // ---- Nesting breaks it ----

  /** One placeholder in the braces of another. */
  function Nest(u: string, c: string, v: string): string {
    OPEN + u + OPEN + c + CLOSE + v + CLOSE
  }

  predicate HasNoMetacharacters(s: string) {
    forall c :: c in METACHARACTERS ==> c !in s
  }

  lemma NoMetacharactersNoBraces(s: string)
    requires HasNoMetacharacters(s)
    ensures HasNoBraces(s)
  {
    assert '{' in METACHARACTERS && '}' in METACHARACTERS;
  }

  lemma PrefixBefore(key: string, x: string, rest: string)
    requires HasNoBraces(key) && rest != "" && rest[0] == '{' && key <= x + rest
    ensures key <= x
  {
    assert (x + rest)[|x|] == '{';
    assert forall i :: 0 <= i < |key| ==> key[i] == (x + rest)[i];
  }

  lemma DoesNotClose(after: string, rest: string)
    requires HasNoBraces(after) && rest != "" && rest[0] == '{'
    ensures !(CLOSE <= AfterSpaces(after + rest))
  {
    hide Spaces;
    AfterSpacesBefore(after, rest);
    var left := AfterSpaces(after);
    assert (left + rest)[0] == if left == "" then '{' else after[Spaces(after)];
  }

  /** Braces whose text runs into another brace are no placeholder. */
  lemma RunsIntoABrace(x: string, rest: string, key: string)
    requires HasNoBraces(x) && IsPlain(key) && rest != "" && rest[0] == '{'
    ensures PlaceholderLength(OPEN + x + rest, key).None?
  {
    hide AfterSpaces, IsPlain;
    var s, bare := OPEN + x + rest, AfterSpaces(x);
    assert s[2..] == x + rest;
    AfterSpacesBefore(x, rest);
    BareHasNoBraces(x);
    PlainHasNoBraces(key);
    if key <= bare + rest {
      PrefixBefore(key, bare, rest);
      assert (bare + rest)[|key|..] == bare[|key|..] + rest;
      DoesNotClose(bare[|key|..], rest);
    }
  }

  lemma BareHasNoBraces(x: string)
    requires HasNoBraces(x)
    ensures HasNoBraces(AfterSpaces(x))
  {
  }

  /** One pass sees the inner placeholder alone. */
  lemma NestPass(u: string, c: string, v: string, rest: string, key: string, x: string)
    requires HasNoBraces(u) && HasNoBraces(c) && HasNoBraces(v) && IsPlain(key)
    ensures ReplaceAll(Nest(u, c, v) + rest, key, x) ==
      OPEN + u + (if Name(c) == key then x else OPEN + c + CLOSE) + v + CLOSE + ReplaceAll(rest, key, x)
  {
    hide ReplaceAll, PlaceholderLength, IsPlain, Name;
    var inner := OPEN + c + CLOSE + (v + CLOSE + rest);
    var s := Nest(u, c, v) + rest;
    assert s == OPEN + u + inner;
    RunsIntoABrace(u, inner, key);
    ReplaceStep(s, key, x);
    var tail := s[1..];
    assert tail[0] == '{' && tail[1..] == u + inner;
    if u == "" {
      assert tail == OPEN + "" + inner[1..];
      RunsIntoABrace("", inner[1..], key);
    } else {
      assert tail[1] == u[0];
    }
    ReplaceStep(tail, key, x);
    CopiesText(u, inner, key, x);
    ReplacesAHole(c, v + CLOSE + rest, key, x);
    CopiesText(v + CLOSE, rest, key, x);
    Regrouped(u, if Name(c) == key then x else OPEN + c + CLOSE, v, ReplaceAll(rest, key, x));
  }

  lemma Regrouped(u: string, x: string, v: string, rest: string)
    ensures ['{'] + (['{'] + (u + (x + (v + CLOSE + rest)))) == OPEN + u + x + v + CLOSE + rest
  {
  }

  lemma {:induction false} ReplaceAllFillsBefore(ps: seq<Piece>, rest: string, key: string, v: string)
    requires IsFlat(ps) && IsPlain(key)
    ensures ReplaceAll(Render(ps) + rest, key, v) == Render(FillOne(ps, key, v)) + ReplaceAll(rest, key, v)
  {
    hide ReplaceAll, Name, IsPlain, Render, FilledWith;
    if ps == [] {
      NothingToRender();
      assert "" + rest == rest && FillOne(ps, key, v) == [];
    } else {
      var p, later := ps[0], ps[1..];
      assert p in ps && IsFlat(later);
      ReplaceAllFillsBefore(later, rest, key, v);
      assert ps == [p] + later;
      assert FillOne(ps, key, v) == [FilledWith(p, key, v)] + FillOne(later, key, v);
      RenderCons(p, later);
      RenderCons(FilledWith(p, key, v), FillOne(later, key, v));
      assert Shown(p) + Render(later) + rest == Shown(p) + (Render(later) + rest);
      ReplacesAPiece(p, Render(later) + rest, key, v);
    }
  }

  /** A flat template with one nest in it. */
  function Around(ps: seq<Piece>, u: string, c: string, v: string, qs: seq<Piece>): string {
    Render(ps) + (Nest(u, c, v) + Render(qs))
  }

  lemma {:induction false} RenderConcat(ps: seq<Piece>, qs: seq<Piece>)
    ensures Render(ps + qs) == Render(ps) + Render(qs)
  {
    hide Shown;
    if ps == [] {
      assert ps + qs == qs;
    } else {
      RenderConcat(ps[1..], qs);
      assert (ps + qs)[1..] == ps[1..] + qs;
    }
  }

  /** Once the inner placeholder is filled the outer one is there. */
  lemma InnerPass(ps: seq<Piece>, u: string, c: string, v: string, qs: seq<Piece>, x: string)
    requires IsFlat(ps) && IsFlat(qs) && HasNoBraces(u) && HasNoBraces(c) && HasNoBraces(v) && IsPlain(Name(c))
    ensures ReplaceAll(Around(ps, u, c, v, qs), Name(c), x) ==
      Render(FillOne(ps, Name(c), x) + [Hole(u + x + v)] + FillOne(qs, Name(c), x))
  {
    hide ReplaceAll, Name, IsPlain, Render, FillOne;
    var key := Name(c);
    var before, after := FillOne(ps, key, x), FillOne(qs, key, x);
    ReplaceAllFillsBefore(ps, Nest(u, c, v) + Render(qs), key, x);
    NestPass(u, c, v, Render(qs), key, x);
    ReplaceAllFillsOne(qs, key, x);
    RenderConcat(before + [Hole(u + x + v)], after);
    RenderConcat(before, [Hole(u + x + v)]);
    RenderCons(Hole(u + x + v), []);
    NothingToRender();
    assert [Hole(u + x + v)] + [] == [Hole(u + x + v)];
    assert Shown(Hole(u + x + v)) == OPEN + u + x + v + CLOSE;
  }

  /** A pass for any other name leaves the nest. */
  lemma OtherPass(ps: seq<Piece>, u: string, c: string, v: string, qs: seq<Piece>, key: string, x: string)
    requires IsFlat(ps) && IsFlat(qs) && HasNoBraces(u) && HasNoBraces(c) && HasNoBraces(v) && IsPlain(key) && Name(c) != key
    ensures ReplaceAll(Around(ps, u, c, v, qs), key, x) == Around(FillOne(ps, key, x), u, c, v, FillOne(qs, key, x))
  {
    hide ReplaceAll, Name, IsPlain, Render, FillOne;
    ReplaceAllFillsBefore(ps, Nest(u, c, v) + Render(qs), key, x);
    NestPass(u, c, v, Render(qs), key, x);
    ReplaceAllFillsOne(qs, key, x);
  }

  lemma {:induction false} SubstitutedConcat(other: Engine, s: string, fields: Fields, x: seq<string>, y: seq<string>)
    ensures Substituted(other, s, fields, x + y) == Substituted(other, Substituted(other, s, fields, x), fields, y)
    decreases |y|
  {
    hide ReplaceField;
    if y == [] {
      assert x + y == x;
    } else {
      var before, key := y[..|y| - 1], y[|y| - 1];
      SubstitutedConcat(other, s, fields, x, before);
      assert (x + y)[..|x + y| - 1] == x + before && (x + y)[|x + y| - 1] == key;
    }
  }

  lemma FirstPass(other: Engine, s: string, fields: Fields, key: string, rest: seq<string>)
    requires key in fields && IsPlain(key)
    ensures Substituted(other, s, fields, [key] + rest) ==
      Substituted(other, ReplaceAll(s, key, QueryEscape(fields[key])), fields, rest)
  {
    hide ReplaceAll, IsPlain;
    SubstitutedConcat(other, s, fields, [key], rest);
    assert [key][..0] == [];
  }

  predicate Names(ps: seq<Piece>, fields: Fields) {
    forall p :: p in ps && p.Hole? ==> Name(p.inside) in fields
  }

  /** Where every placeholder is filled nothing is left to resolve. */
  lemma NamedIsResolved(other: Engine, ps: seq<Piece>, fields: Fields, order: seq<string>)
    requires IsFlat(ps) && (forall k :: k in fields ==> IsPlain(k))
    requires forall p :: p in ps && p.Hole? ==> Name(p.inside) in fields && Name(p.inside) in order
    ensures ResolvedURL(other, Render(ps), fields, order).Some?
  {
    hide Name, IsPlain, Render, Substituted, HasUnresolvedPlaceholders, ReplaceAll;
    SubstitutedFills(other, ps, fields, order);
    FillKeepsFlat(ps, Only(fields, order));
    UnresolvedIsAHoleLeft(Fill(ps, Only(fields, order)));
  }

  /** Where one is not, it is left. */
  lemma UnnamedIsLeft(other: Engine, ps: seq<Piece>, fields: Fields, order: seq<string>, i: nat)
    requires IsFlat(ps) && (forall k :: k in fields ==> IsPlain(k))
    requires i < |ps| && ps[i].Hole? && Name(ps[i].inside) !in order
    ensures ResolvedURL(other, Render(ps), fields, order).None?
  {
    hide Name, IsPlain, Render, Substituted, HasUnresolvedPlaceholders, ReplaceAll;
    SubstitutedFills(other, ps, fields, order);
    FillKeepsFlat(ps, Only(fields, order));
    assert Fill(ps, Only(fields, order))[i] == ps[i];
    UnresolvedIsAHoleLeft(Fill(ps, Only(fields, order)));
  }

  /** What the inner placeholder becomes completes the name of the outer one. */
  lemma OrdersDiffer(other: Engine, ps: seq<Piece>, u: string, c: string, v: string, qs: seq<Piece>, fields: Fields, rest: seq<string>)
    requires IsFlat(ps) && IsFlat(qs) && HasNoBraces(u) && HasNoBraces(c) && HasNoBraces(v)
    requires (forall k :: k in fields ==> IsPlain(k)) && Names(ps, fields) && Names(qs, fields)
    requires Name(c) in fields
    requires var x := QueryEscape(fields[Name(c)]);
      var outer := Name(u + x + v);
      && outer in fields && outer != Name(c) && HasNoBraces(x)
      && forall k :: k in rest <==> k in fields && k != Name(c) && k != outer
    ensures var outer := Name(u + QueryEscape(fields[Name(c)]) + v);
      && ResolvedURL(other, Around(ps, u, c, v, qs), fields, [Name(c), outer] + rest).Some?
      && ResolvedURL(other, Around(ps, u, c, v, qs), fields, [outer, Name(c)] + rest).None?
  {
    hide Name, IsPlain, Render, Substituted, HasUnresolvedPlaceholders, ReplaceAll, Around, HasNoBraces, QueryEscape;
    var x := QueryEscape(fields[Name(c)]);
    var inner, outer := Name(c), Name(u + x + v);
    var y, template := QueryEscape(fields[outer]), Around(ps, u, c, v, qs);
    EscapedIsInert(fields[outer]);
    OuterIsInert(u, x, v);
    assert [inner, outer] + rest == [inner] + ([outer] + rest) && [outer, inner] + rest == [outer] + ([inner] + rest);

    var named := FillOne(ps, inner, x) + [Hole(u + x + v)] + FillOne(qs, inner, x);
    FirstPass(other, template, fields, inner, [outer] + rest);
    InnerPass(ps, u, c, v, qs, x);
    FilledIsFlat(ps, inner, x);
    FilledIsFlat(qs, inner, x);
    NamedIsResolved(other, named, fields, [outer] + rest);

    var ps', qs' := FillOne(ps, outer, y), FillOne(qs, outer, y);
    FirstPass(other, template, fields, outer, [inner] + rest);
    OtherPass(ps, u, c, v, qs, outer, y);
    FirstPass(other, Around(ps', u, c, v, qs'), fields, inner, rest);
    FilledIsFlat(ps, outer, y);
    FilledIsFlat(qs, outer, y);
    InnerPass(ps', u, c, v, qs', x);
    FilledIsFlat(ps', inner, x);
    FilledIsFlat(qs', inner, x);
    UnnamedIsLeft(other, FillOne(ps', inner, x) + [Hole(u + x + v)] + FillOne(qs', inner, x), fields, rest, |ps|);
  }

  lemma OuterIsInert(u: string, x: string, v: string)
    requires HasNoBraces(u) && HasNoBraces(x) && HasNoBraces(v)
    ensures HasNoBraces(u + x + v)
  {
  }

  lemma FilledIsFlat(ps: seq<Piece>, key: string, v: string)
    requires IsFlat(ps) && HasNoBraces(v)
    ensures IsFlat(FillOne(ps, key, v))
    ensures forall p :: p in FillOne(ps, key, v) && p.Hole? ==> p in ps && Name(p.inside) != key
  {
    hide Name, HasNoBraces;
    forall p | p in FillOne(ps, key, v) ensures HasNoBraces(Inside(p)) && (p.Hole? ==> p in ps && Name(p.inside) != key) {
      var i :| 0 <= i < |ps| && p == FilledWith(ps[i], key, v);
      assert ps[i] in ps;
    }
  }

  function Zs(n: nat): (s: string)
    ensures |s| == n && forall i :: 0 <= i < n ==> s[i] == 'z'
  {
    if n == 0 then "" else "z" + Zs(n - 1)
  }

  lemma {:induction false} ZsAreUnreserved(n: nat)
    ensures QueryEscape(Zs(n)) == Zs(n)
  {
    if n > 0 {
      assert Zs(n)[1..] == Zs(n - 1);
      ZsAreUnreserved(n - 1);
    }
  }

  /** A long enough text between two plain ones makes a plain name of its own. */
  lemma NameAround(u: string, n: nat, v: string)
    requires n > 0 && HasNoMetacharacters(u) && HasNoMetacharacters(v)
    ensures IsPlain(Name(u + Zs(n) + v)) && |Name(u + Zs(n) + v)| >= n
  {
    hide Spaces, TrimRight, Zs, HasNoMetacharacters;
    var name, bare := Name(u + Zs(n) + v), AfterSpaces(u) + (Zs(n) + v);
    BareAround(u, n, v);
    TrimmedRight(bare);
    assert name == TrimRight(bare) && name[0] == bare[0];
    forall c | c in METACHARACTERS ensures c !in name {
      MetacharactersStayOut(u, n, v, c);
      PrefixHolds(name, bare, c);
    }
  }

  lemma PrefixHolds(t: string, s: string, c: char)
    requires t <= s && c !in s
    ensures c !in t
  {
    assert forall i :: 0 <= i < |t| ==> t[i] == s[i];
  }

  lemma BareAround(u: string, n: nat, v: string)
    requires n > 0
    ensures var bare := AfterSpaces(u) + (Zs(n) + v);
      && AfterSpaces(u + Zs(n) + v) == bare && bare[0] != ' '
      && |AfterSpaces(u)| + n <= |bare| && bare[|AfterSpaces(u)| + n - 1] == 'z'
  {
    hide Spaces, Zs;
    var left, tail := AfterSpaces(u), Zs(n) + v;
    assert u + Zs(n) + v == u + tail && tail[0] == 'z' && tail[n - 1] == 'z';
    AfterSpacesBefore(u, tail);
    assert (left + tail)[0] == if left == "" then 'z' else u[Spaces(u)];
    assert (left + tail)[|left| + n - 1] == tail[n - 1];
  }

  lemma MetacharactersStayOut(u: string, n: nat, v: string, c: char)
    requires c in METACHARACTERS && HasNoMetacharacters(u) && HasNoMetacharacters(v)
    ensures c !in AfterSpaces(u) + (Zs(n) + v)
  {
    hide Spaces, Zs;
    assert 'z' !in METACHARACTERS by {
      assert forall i :: 0 <= i < |METACHARACTERS| ==> METACHARACTERS[i] != 'z';
    }
    assert forall d :: d in AfterSpaces(u) ==> d in u;
  }

  lemma {:induction false} AnOrderOf(keys: set<string>) returns (order: seq<string>)
    ensures (forall k :: k in order <==> k in keys) && forall i, j :: 0 <= i < j < |order| ==> order[i] != order[j]
  {
    order := [];
    if keys != {} {
      var k :| k in keys;
      order := AnOrderOf(keys - {k});
      order := order + [k];
    }
  }

  function NamesIn(ps: seq<Piece>): set<string> {
    set p | p in ps && p.Hole? :: Name(p.inside)
  }

  /** With one placeholder nested in another the order decides, wherever that is: in
      every template in which a placeholder with a plain name stands between plain texts
      in the braces of another. There are fields with plain names, and two orders of
      them, by which the same Recipient is accepted by a run of intake and left without
      its header by a run of the Builder. */
  lemma NestedPlaceholdersDependOnTheOrder(other: Engine, ps: seq<Piece>, u: string, c: string, v: string, qs: seq<Piece>)
    returns (fields: Fields, intake: seq<string>, builder: seq<string>)
    requires IsFlat(ps) && IsFlat(qs) && (forall k :: k in NamesIn(ps) + NamesIn(qs) ==> IsPlain(k))
    requires HasNoMetacharacters(u) && HasNoMetacharacters(v) && HasNoBraces(c) && IsPlain(Name(c))
    ensures forall k :: k in fields ==> IsPlain(k)
    ensures IsOrderOf(intake, Effective("", fields)) && IsOrderOf(builder, Effective("", fields))
    ensures ResolvedURL(other, Around(ps, u, c, v, qs), Effective("", fields), intake).Some?
    ensures ResolvedURL(other, Around(ps, u, c, v, qs), Effective("", fields), builder).None?
  {
    hide Name, IsPlain, HasNoBraces, HasNoMetacharacters, Zs, QueryEscape, Around, ResolvedURL;
    var n := |Name(c)| + |EMAIL| + 1;
    var inner, outer := Name(c), Name(u + Zs(n) + v);
    NameAround(u, n, v);
    ZsAreUnreserved(n);
    NoMetacharactersNoBraces(u);
    NoMetacharactersNoBraces(v);
    ZsHaveNoBraces(n);
    EmailIsPlain();
    var names := NamesIn(ps) + NamesIn(qs) + {inner, outer};
    fields := map k | k in names :: if k == inner then Zs(n) else "";
    var effective := Effective("", fields);
    var rest := AnOrderOf(effective.Keys - {inner, outer});
    intake, builder := [inner, outer] + rest, [outer, inner] + rest;
    OrdersDiffer(other, ps, u, c, v, qs, effective, rest);
  }

  lemma ZsHaveNoBraces(n: nat)
    ensures HasNoBraces(Zs(n))
  {
  }
}
