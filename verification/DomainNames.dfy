/** Canonical domain names: what may stand as a Domain's segment in the tree. */
module DomainNames {
  import opened Prelude

  const MAX_LENGTH := 254

  predicate IsAllowed(c: char) {
    'a' <= c <= 'z' || '0' <= c <= '9' || c == '-' || c == '.' || c == '_'
  }

  predicate IsCanonical(s: string) {
    && 0 < |s| <= 254
    && s[0] != '.' && s[|s| - 1] != '.'
    && (forall i :: 0 < i < |s| ==> !(s[i - 1] == '.' && s[i] == '.'))
    && '.' in s
    && forall c :: c in s ==> IsAllowed(c)
  }

  function TrimLeft(space: char -> bool, s: string): string {
    if |s| > 0 && space(s[0]) then TrimLeft(space, s[1..]) else s
  }

  function TrimRight(space: char -> bool, s: string): string {
    if |s| > 0 && space(s[|s| - 1]) then TrimRight(space, s[..|s| - 1]) else s
  }

  /** strings.TrimSpace, over whichever characters count as space. */
  function Trim(space: char -> bool, s: string): string {
    TrimRight(space, TrimLeft(space, s))
  }

  function Lower(fold: char -> char, s: string): (t: string)
    ensures |t| == |s| && forall i :: 0 <= i < |s| ==> t[i] == fold(s[i])
  {
    seq(|s|, i requires 0 <= i < |s| => fold(s[i]))
  }

  /** The Unicode tables: what is space, and the lower case of each character. */
  datatype Tables = Tables(space: char -> bool, fold: char -> char) {
    /** The one thing asked of them: the allowed characters are not space and are
        their own lower case. */
    ghost predicate FixAllowed() {
      forall c :: IsAllowed(c) ==> !space(c) && fold(c) == c
    }
  }

  /** The chain of checks, each refusing in turn. */
  function Parse(u: Tables, text: string): Option<string> {
    var s := Lower(u.fold, Trim(u.space, text));
    if s == "" then None
    else if |s| > MAX_LENGTH then None
    else if s[0] == '.' || s[|s| - 1] == '.' then None
    else if exists i :: 0 < i < |s| && s[i - 1] == '.' && s[i] == '.' then None
    else if '.' !in s then None
    else if exists c :: c in s && !IsAllowed(c) then None
    else Some(s)
  }

  lemma {:induction false} TrimsNothing(space: char -> bool, s: string)
    requires forall c :: c in s ==> !space(c)
    ensures Trim(space, s) == s
  {
  }

  // ---- What a text spells ----

  predicate IsSpace(space: char -> bool, s: string) {
    forall i :: 0 <= i < |s| ==> space(s[i])
  }

  /** text is t between spaces, and t is not padded. */
  predicate IsPadded(space: char -> bool, text: string, before: string, t: string, after: string) {
    && text == before + t + after
    && IsSpace(space, before) && IsSpace(space, after)
    && (t != "" ==> !space(t[0]) && !space(t[|t| - 1]))
  }

  /** s is t, each character in lower case. */
  predicate IsLower(fold: char -> char, t: string, s: string) {
    |t| == |s| && forall i :: 0 <= i < |t| ==> fold(t[i]) == s[i]
  }

  /** text, but for spaces around it and for case, is the name c. */
  ghost predicate Spells(u: Tables, text: string, c: string) {
    exists before, t, after :: IsPadded(u.space, text, before, t, after) && IsLower(u.fold, t, c)
  }

  lemma {:induction false} TrimLeftIs(space: char -> bool, s: string)
    ensures exists before :: IsSpace(space, before) && s == before + TrimLeft(space, s)
    ensures TrimLeft(space, s) != "" ==> !space(TrimLeft(space, s)[0])
  {
    if |s| > 0 && space(s[0]) {
      TrimLeftIs(space, s[1..]);
      var before :| IsSpace(space, before) && s[1..] == before + TrimLeft(space, s[1..]);
      assert IsSpace(space, [s[0]] + before) && s == [s[0]] + before + TrimLeft(space, s);
    } else {
      assert IsSpace(space, "") && s == "" + s;
    }
  }

  lemma {:induction false} TrimRightIs(space: char -> bool, s: string)
    ensures TrimRight(space, s) <= s && IsSpace(space, s[|TrimRight(space, s)|..])
    ensures TrimRight(space, s) != "" ==> !space(TrimRight(space, s)[|TrimRight(space, s)| - 1])
  {
    if |s| > 0 && space(s[|s| - 1]) {
      TrimRightIs(space, s[..|s| - 1]);
    }
  }

  lemma TrimIs(space: char -> bool, text: string) returns (before: string, after: string)
    ensures IsPadded(space, text, before, Trim(space, text), after)
  {
    hide TrimLeft, TrimRight;
    var left := TrimLeft(space, text);
    TrimLeftIs(space, text);
    TrimRightIs(space, left);
    before :| IsSpace(space, before) && text == before + left;
    after := left[|TrimRight(space, left)|..];
    assert text == before + Trim(space, text) + after;
    if Trim(space, text) != "" {
      assert Trim(space, text)[0] == left[0];
    }
  }

  /** Spaces come off in one way only. */
  lemma PaddedOneWay(space: char -> bool, text: string, x: string, t: string, y: string, x': string, t': string, y': string)
    requires IsPadded(space, text, x, t, y) && IsPadded(space, text, x', t', y')
    ensures t == t'
  {
    if t == "" || t' == "" {
      PaddedOrEmpty(space, text, x, t, y);
      PaddedOrEmpty(space, text, x', t', y');
    } else {
      StartsWithin(space, text, x, t, y, x', t', y');
      StartsWithin(space, text, x', t', y', x, t, y);
      assert t == text[|x|..|x| + |t|] && t' == text[|x'|..|x'| + |t'|];
    }
  }

  lemma PaddedOrEmpty(space: char -> bool, text: string, x: string, t: string, y: string)
    requires IsPadded(space, text, x, t, y)
    ensures t == "" <==> IsSpace(space, text)
  {
    if t != "" {
      assert text[|x|] == t[0];
    } else {
      assert forall i :: 0 <= i < |text| ==> text[i] == if i < |x| then x[i] else y[i - |x|];
    }
  }

  lemma StartsWithin(space: char -> bool, text: string, x: string, t: string, y: string, x': string, t': string, y': string)
    requires IsPadded(space, text, x, t, y) && IsPadded(space, text, x', t', y') && t != "" && t' != ""
    ensures |x| <= |x'| && |x'| + |t'| <= |x| + |t|
  {
    assert text[|x'|] == t'[0] && text[|x'| + |t'| - 1] == t'[|t'| - 1];
    assert forall i :: 0 <= i < |x| ==> text[i] == x[i];
    assert forall i :: |x| + |t| <= i < |text| ==> text[i] == y[i - |x| - |t|];
  }

  /** Parse accepts exactly the texts that spell a canonical name, and yields it. */
  lemma ParseReadsSpelling(u: Tables, text: string, c: string)
    ensures Parse(u, text) == Some(c) <==> IsCanonical(c) && Spells(u, text, c)
  {
    hide Trim;
    var t := Trim(u.space, text);
    var before, after := TrimIs(u.space, text);
    ParseIsTheCanonical(u, text);
    if IsCanonical(c) && Spells(u, text, c) {
      var x, t', y :| IsPadded(u.space, text, x, t', y) && IsLower(u.fold, t', c);
      PaddedOneWay(u.space, text, before, t, after, x, t', y);
      assert Lower(u.fold, t) == c;
    }
    if Parse(u, text) == Some(c) {
      assert IsPadded(u.space, text, before, t, after) && IsLower(u.fold, t, c);
    }
  }

  lemma ParseIsTheCanonical(u: Tables, text: string)
    ensures Parse(u, text) == var s := Lower(u.fold, Trim(u.space, text)); if IsCanonical(s) then Some(s) else None
  {
    hide Trim;
  }

  /** Parse yields canonical names only, every canonical name is its own parse, and
      so two names are equal exactly when they are the same text. */
  lemma ParseIsCanonical(u: Tables, text: string)
    requires u.FixAllowed()
    ensures Parse(u, text).Some? ==> IsCanonical(Parse(u, text).value) && Parse(u, Parse(u, text).value) == Parse(u, text)
    ensures IsCanonical(text) <==> Parse(u, text) == Some(text)
  {
    if IsCanonical(text) {
      OwnParse(u, text);
    }
    if Parse(u, text).Some? {
      OwnParse(u, Parse(u, text).value);
    }
  }

  lemma OwnParse(u: Tables, s: string)
    requires u.FixAllowed() && IsCanonical(s)
    ensures Parse(u, s) == Some(s)
  {
    TrimsNothing(u.space, s);
    assert Lower(u.fold, s) == s by {
      forall i | 0 <= i < |s| ensures Lower(u.fold, s)[i] == s[i] {
        assert s[i] in s;
      }
    }
  }
}
