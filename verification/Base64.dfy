/** The URL-safe base 64 of RFC 4648, section 5, with padding: the form in which an
    address travels inside a return path or a message identifier. */
module Base64 {
  import opened Prelude

  type Octet = n: int | 0 <= n < 256

  type Digit = n: int | 0 <= n < 64

  const PAD := '='

  function Symbol(d: Digit): char {
    if d < 26 then 'A' + d as char
    else if d < 52 then 'a' + (d - 26) as char
    else if d < 62 then '0' + (d - 52) as char
    else if d == 62 then '-' else '_'
  }

  predicate IsSymbol(c: char) {
    'A' <= c <= 'Z' || 'a' <= c <= 'z' || '0' <= c <= '9' || c == '-' || c == '_'
  }

  function Value(c: char): Digit
    requires IsSymbol(c)
  {
    if 'A' <= c <= 'Z' then (c - 'A') as int
    else if 'a' <= c <= 'z' then (c - 'a') as int + 26
    else if '0' <= c <= '9' then (c - '0') as int + 52
    else if c == '-' then 62 else 63
  }

  lemma SymbolRoundTrip(d: Digit)
    ensures IsSymbol(Symbol(d)) && Value(Symbol(d)) == d
  {
  }

  // Three octets as four digits, and back.

  function First(a: Octet): Digit {
    a / 4
  }

  function Second(a: Octet, b: Octet): Digit {
    a % 4 * 16 + b / 16
  }

  function Third(b: Octet, c: Octet): Digit {
    b % 16 * 4 + c / 64
  }

  function Fourth(c: Octet): Digit {
    c % 64
  }

  function Octet0(d: Digit, e: Digit): Octet {
    d * 4 + e / 16
  }

  function Octet1(e: Digit, f: Digit): Octet {
    e % 16 * 16 + f / 4
  }

  function Octet2(f: Digit, g: Digit): Octet {
    f % 4 * 64 + g
  }

  lemma OctetsRoundTrip(a: Octet, b: Octet, c: Octet)
    ensures Octet0(First(a), Second(a, b)) == a
    ensures Octet1(Second(a, b), Third(b, c)) == b
    ensures Octet2(Third(b, c), Fourth(c)) == c
  {
  }

  function Encode(bs: seq<Octet>): string {
    if |bs| == 0 then ""
    else if |bs| == 1 then [Symbol(First(bs[0])), Symbol(Second(bs[0], 0)), PAD, PAD]
    else if |bs| == 2 then
      [Symbol(First(bs[0])), Symbol(Second(bs[0], bs[1])), Symbol(Third(bs[1], 0)), PAD]
    else
      [Symbol(First(bs[0])), Symbol(Second(bs[0], bs[1])), Symbol(Third(bs[1], bs[2])), Symbol(Fourth(bs[2]))]
      + Encode(bs[3..])
  }

  /** Line breaks inside the text are skipped. */
  function Unbroken(s: string): string {
    if |s| == 0 then ""
    else if s[0] == '\n' || s[0] == '\r' then Unbroken(s[1..])
    else [s[0]] + Unbroken(s[1..])
  }

  /** Four symbols at a time; padding only completes the last four, and the bits it
      leaves over are not looked at. */
  function Quanta(s: string): Option<seq<Octet>> {
    if |s| == 0 then Some([])
    else if |s| < 4 || !IsSymbol(s[0]) || !IsSymbol(s[1]) then None
    else
      var first := Octet0(Value(s[0]), Value(s[1]));
      if s[2] == PAD then
        if s[3] == PAD && |s| == 4 then Some([first]) else None
      else if !IsSymbol(s[2]) then None
      else
        var second := Octet1(Value(s[1]), Value(s[2]));
        if s[3] == PAD then
          if |s| == 4 then Some([first, second]) else None
        else if !IsSymbol(s[3]) then None
        else
          match Quanta(s[4..])
          case None => None
          case Some(rest) => Some([first, second, Octet2(Value(s[2]), Value(s[3]))] + rest)
  }

  function Decode(s: string): Option<seq<Octet>> {
    Quanta(Unbroken(s))
  }

  /** One full group of octets, whatever follows it. */
  lemma QuantumRoundTrip(a: Octet, b: Octet, c: Octet, rest: string)
    ensures Quanta([Symbol(First(a)), Symbol(Second(a, b)), Symbol(Third(b, c)), Symbol(Fourth(c))] + rest) ==
      (if Quanta(rest).None? then None else Some([a, b, c] + Quanta(rest).value))
  {
    hide Symbol, Value, IsSymbol, First, Second, Third, Fourth, Octet0, Octet1, Octet2;
    GroupIsSymbols(a, b, c);
    var group := [Symbol(First(a)), Symbol(Second(a, b)), Symbol(Third(b, c)), Symbol(Fourth(c))];
    assert (group + rest)[4..] == rest;
  }

  /** The last group, of one octet or two. */
  lemma LastQuantumRoundTrip(a: Octet, b: Octet)
    ensures Quanta([Symbol(First(a)), Symbol(Second(a, 0)), PAD, PAD]) == Some([a])
    ensures Quanta([Symbol(First(a)), Symbol(Second(a, b)), Symbol(Third(b, 0)), PAD]) == Some([a, b])
  {
    hide Symbol, Value, IsSymbol, First, Second, Third, Fourth, Octet0, Octet1, Octet2;
    GroupIsSymbols(a, 0, 0);
    GroupIsSymbols(a, b, 0);
  }

  lemma GroupIsSymbols(a: Octet, b: Octet, c: Octet)
    ensures var d, e, f, g := Symbol(First(a)), Symbol(Second(a, b)), Symbol(Third(b, c)), Symbol(Fourth(c));
      && IsSymbol(d) && IsSymbol(e) && IsSymbol(f) && IsSymbol(g)
      && d != PAD && e != PAD && f != PAD && g != PAD
      && Octet0(Value(d), Value(e)) == a && Octet1(Value(e), Value(f)) == b && Octet2(Value(f), Value(g)) == c
  {
    hide Symbol, Value, IsSymbol, First, Second, Third, Fourth, Octet0, Octet1, Octet2;
    OctetsRoundTrip(a, b, c);
    SymbolRoundTrip(First(a));
    SymbolRoundTrip(Second(a, b));
    SymbolRoundTrip(Third(b, c));
    SymbolRoundTrip(Fourth(c));
    PadIsNoSymbol();
  }

  lemma {:induction false} QuantaRoundTrip(bs: seq<Octet>)
    ensures Quanta(Encode(bs)) == Some(bs)
  {
    hide Quanta, Symbol, First, Second, Third, Fourth;
    if |bs| > 2 {
      QuantaRoundTrip(bs[3..]);
      QuantumRoundTrip(bs[0], bs[1], bs[2], Encode(bs[3..]));
      assert bs == [bs[0], bs[1], bs[2]] + bs[3..];
    } else if |bs| > 0 {
      LastQuantumRoundTrip(bs[0], if |bs| > 1 then bs[1] else 0);
      assert bs == if |bs| == 1 then [bs[0]] else [bs[0], bs[1]];
    } else {
      EmptyQuanta();
    }
  }

  lemma EmptyQuanta()
    ensures Quanta("") == Some([])
  {
  }

  /** The four digits of a group spell, most significant first, the number its three
      octets spell. */
  lemma GroupSpellsItsNumber(a: Octet, b: Octet, c: Octet)
    ensures ((First(a) * 64 + Second(a, b)) * 64 + Third(b, c)) * 64 + Fourth(c) == (a * 256 + b) * 256 + c
  {
  }

  /** The digits are written in the order of RFC 4648, table 2: five runs, each starting
      where the one before it ends. */
  lemma SymbolsAreInOrder(d: Digit)
    ensures Symbol(0) == 'A' && Symbol(25) == 'Z' && Symbol(26) == 'a' && Symbol(51) == 'z'
    ensures Symbol(52) == '0' && Symbol(61) == '9' && Symbol(62) == '-' && Symbol(63) == '_'
    ensures d !in {25, 51, 61, 62, 63} ==> Symbol(d + 1) as int == Symbol(d) as int + 1
  {
  }

  /** Groups of four symbols, of which the last may end in one or two pads. */
  predicate IsGrouped(s: string) {
    |s| % 4 == 0 && (IsPaddedBy(s, 0) || IsPaddedBy(s, 1) || IsPaddedBy(s, 2))
  }

  predicate IsPaddedBy(s: string, n: nat) {
    && n <= |s|
    && (forall i :: 0 <= i < |s| - n ==> IsSymbol(s[i]))
    && (forall i :: |s| - n <= i < |s| ==> s[i] == PAD)
  }

  /** What decodes is, line breaks aside, such groups and nothing else. */
  lemma DecodesGroups(s: string)
    ensures Decode(s).Some? <==> IsGrouped(Unbroken(s))
    ensures forall c :: c in Unbroken(s) ==> c != '\n' && c != '\r'
  {
    UnbrokenHasNoBreaks(s);
    QuantaAreGroups(Unbroken(s));
  }

  lemma {:induction false} UnbrokenHasNoBreaks(s: string)
    ensures '\n' !in Unbroken(s) && '\r' !in Unbroken(s)
  {
    if |s| > 0 {
      UnbrokenHasNoBreaks(s[1..]);
    }
  }

  lemma {:induction false} QuantaAreGroups(s: string)
    ensures Quanta(s).Some? <==> IsGrouped(s)
  {
    hide Value, IsSymbol, Octet0, Octet1, Octet2;
    PadIsNoSymbol();
    if |s| > 4 {
      var rest := s[4..];
      QuantaAreGroups(rest);
      GroupsOf(s);
    } else if |s| == 4 {
      assert s[4..] == "";
    }
  }

  lemma GroupsOf(s: string)
    requires |s| > 4
    ensures IsGrouped(s) <==> IsSymbol(s[0]) && IsSymbol(s[1]) && IsSymbol(s[2]) && IsSymbol(s[3]) && IsGrouped(s[4..])
  {
    hide IsSymbol;
    assert forall i :: 4 <= i < |s| ==> s[i] == s[4..][i - 4];
    assert forall i :: 0 <= i < |s| - 4 ==> s[4..][i] == s[i + 4];
  }

  lemma PadIsNoSymbol()
    ensures !IsSymbol(PAD)
  {
  }

  /** What an encoding is made of, and so what it can never be confused with. */
  lemma {:induction false} EncodingIsPlain(bs: seq<Octet>)
    ensures forall c :: c in Encode(bs) ==> IsSymbol(c) || c == PAD
    ensures Encode(bs) == "" <==> bs == []
  {
    hide IsSymbol, Symbol;
    if |bs| > 0 {
      forall d: Digit ensures IsSymbol(Symbol(d)) {
        SymbolRoundTrip(d);
      }
      if |bs| > 2 {
        EncodingIsPlain(bs[3..]);
      }
    }
  }

  lemma {:induction false} NothingToSkip(s: string)
    requires '\n' !in s && '\r' !in s
    ensures Unbroken(s) == s
  {
    if |s| > 0 {
      NothingToSkip(s[1..]);
    }
  }

  /** Decoding undoes encoding, for every sequence of octets. */
  lemma Base64RoundTrip(bs: seq<Octet>)
    ensures Decode(Encode(bs)) == Some(bs)
  {
    EncodingIsPlain(bs);
    NothingToSkip(Encode(bs));
    QuantaRoundTrip(bs);
  }
}
