/** Lengths of text in UTF-8 bytes. */
module Utf8 {
  function Utf8Width(c: char): nat {
    var n := c as int;
    if n < 0x80 then 1 else if n < 0x800 then 2 else if n < 0x10000 then 3 else 4
  }

  function Utf8Length(s: string): nat {
    if s == "" then 0 else Utf8Length(s[..|s| - 1]) + Utf8Width(s[|s| - 1])
  }

  lemma {:induction false} Utf8Concat(s: string, t: string)
    ensures Utf8Length(s + t) == Utf8Length(s) + Utf8Length(t)
  {
    if t == "" {
      assert s + t == s;
    } else {
      assert (s + t)[..|s + t| - 1] == s + t[..|t| - 1];
      Utf8Concat(s, t[..|t| - 1]);
    }
  }

  /** Decoding the first bytes and ignoring an incomplete character: the longest prefix that fits. */
  function TakeBytes(s: string, limit: nat): (t: string)
    ensures t <= s && Utf8Length(t) <= limit
    ensures forall n :: |t| < n <= |s| ==> Utf8Length(s[..n]) > limit
  {
    if Utf8Length(s) <= limit then assert s[..|s|] == s; s
    else
      var t := TakeBytes(s[..|s| - 1], limit);
      assert forall n :: |t| < n < |s| ==> s[..|s| - 1][..n] == s[..n];
      assert s[..|s|] == s;
      t
  }
}
