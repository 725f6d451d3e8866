/** Facts about strings that several printers and parsers rest on. */
module Strings {

  /** A separator that occurs in neither head makes the split unique. */
  lemma {:induction false} SplitsOnce(c: char, s: string, x: string, t: string, y: string)
    requires c !in s && c !in t
    requires s + [c] + x == t + [c] + y
    ensures s == t && x == y
  {
    var whole := s + [c] + x;
    if |s| == 0 || |t| == 0 {
      assert whole[|s|] == c && whole[|t|] == c;
      assert whole[..|s|] == s && whole[..|t|] == t;
      assert x == whole[|s| + 1..] && y == whole[|t| + 1..];
    } else {
      assert s[0] == whole[0] == t[0];
      assert s[1..] + [c] + x == whole[1..] == t[1..] + [c] + y;
      SplitsOnce(c, s[1..], x, t[1..], y);
    }
  }
}
