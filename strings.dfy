/** String helpers for the transcript formats: repetition (`"*" * n`),
    `"\n".join`, the substring test `sub in s`, and the first and last line
    of a text, used to state the banner framing contracts. */
module Strings {

  /** `c * n` in Python: n copies of the character c. */
  function Repeat(c: char, n: nat): (r: string)
    ensures |r| == n
    ensures forall i :: 0 <= i < n ==> r[i] == c
  {
    if n == 0 then "" else [c] + Repeat(c, n - 1)
  }

  predicate IsPrefix(p: string, s: string) {
    |p| <= |s| && s[..|p|] == p
  }

  predicate IsSuffix(p: string, s: string) {
    |p| <= |s| && s[|s| - |p|..] == p
  }

  predicate NoNewline(s: string) {
    '\n' !in s
  }

  /** Python's `sub in s` on strings: sub occurs somewhere in s. */
  predicate Contains(s: string, sub: string)
    decreases |s|
  {
    IsPrefix(sub, s) || (s != [] && Contains(s[1..], sub))
  }

  lemma {:induction false} ContainsIff(s: string, sub: string)
    ensures Contains(s, sub) <==> exists i :: 0 <= i <= |s| && IsPrefix(sub, s[i..])
    decreases |s|
  {
    if IsPrefix(sub, s) {
      assert s[0..] == s;
    } else if s == [] {
      forall i | 0 <= i <= |s| ensures !IsPrefix(sub, s[i..]) {
        assert s[i..] == s;
      }
    } else {
      ContainsIff(s[1..], sub);
      if Contains(s[1..], sub) {
        var i :| 0 <= i <= |s[1..]| && IsPrefix(sub, s[1..][i..]);
        assert s[1..][i..] == s[i + 1..];
      } else {
        forall i | 0 <= i <= |s| ensures !IsPrefix(sub, s[i..]) {
          if i > 0 {
            assert s[1..][i - 1..] == s[i..];
          } else {
            assert s[i..] == s;
          }
        }
      }
    }
  }

  /** A text contains every piece written into it. */
  lemma ContainsPiece(front: string, piece: string, back: string)
    ensures Contains(front + piece + back, piece)
  {
    var s := front + piece + back;
    assert s[|front|..][..|piece|] == piece;
    ContainsIff(s, piece);
  }

  /** `in` is transitive: a text containing t contains everything t contains. */
  lemma ContainsWithin(s: string, t: string, sub: string)
    requires Contains(s, t) && Contains(t, sub)
    ensures Contains(s, sub)
  {
    ContainsIff(s, t);
    ContainsIff(t, sub);
    var i :| 0 <= i <= |s| && IsPrefix(t, s[i..]);
    var j :| 0 <= j <= |t| && IsPrefix(sub, t[j..]);
    assert s[i..][..|t|] == t;
    forall k | 0 <= k < |sub|
      ensures s[i + j..][..|sub|][k] == t[j..][..|sub|][k]
    {
      assert s[i + j..][..|sub|][k] == s[i..][..|t|][j + k];
    }
    assert s[i + j..][..|sub|] == t[j..][..|sub|];
    ContainsIff(s, sub);
  }

  /** Python's `sep.join(parts)`. */
  function Join(sep: string, parts: seq<string>): (r: string)
    ensures parts == [] ==> r == ""
    ensures |parts| == 1 ==> r == parts[0]
  {
    if parts == [] then ""
    else if |parts| == 1 then parts[0]
    else parts[0] + sep + Join(sep, parts[1..])
  }

  /** Joining with a separator appends one more part after the separator. */
  lemma {:induction false} JoinSnoc(sep: string, parts: seq<string>, last: string)
    requires parts != []
    ensures Join(sep, parts + [last]) == Join(sep, parts) + sep + last
    decreases |parts|
  {
    if |parts| == 1 {
      assert (parts + [last])[1..] == [last];
    } else {
      assert (parts + [last])[1..] == parts[1..] + [last];
      JoinSnoc(sep, parts[1..], last);
    }
  }

  /** The text before the first line break (the whole text when it has none). */
  function FirstLine(s: string): (r: string)
    ensures IsPrefix(r, s) && NoNewline(r)
  {
    if s == [] || s[0] == '\n' then "" else [s[0]] + FirstLine(s[1..])
  }

  /** The text after the last line break (the whole text when it has none). */
  function AfterLastBreak(s: string): (r: string)
    ensures IsSuffix(r, s) && NoNewline(r)
  {
    if s == [] || s[|s| - 1] == '\n' then ""
    else AfterLastBreak(s[..|s| - 1]) + [s[|s| - 1]]
  }

  /** The last line of a text whose every line is terminated by a line break. */
  function LastLine(s: string): string {
    if s != [] && s[|s| - 1] == '\n' then AfterLastBreak(s[..|s| - 1]) else AfterLastBreak(s)
  }

  lemma {:induction false} FirstLineOf(line: string, rest: string)
    requires NoNewline(line)
    ensures FirstLine(line + "\n" + rest) == line
    decreases |line|
  {
    if line != [] {
      assert (line + "\n" + rest)[1..] == line[1..] + "\n" + rest;
      FirstLineOf(line[1..], rest);
    }
  }

  lemma {:induction false} AfterLastBreakOf(front: string, line: string)
    requires NoNewline(line)
    ensures AfterLastBreak(front + "\n" + line) == line
    decreases |line|
  {
    var s := front + "\n" + line;
    if line != [] {
      assert s[..|s| - 1] == front + "\n" + line[..|line| - 1];
      AfterLastBreakOf(front, line[..|line| - 1]);
      assert line == line[..|line| - 1] + [line[|line| - 1]];
    }
  }

  lemma LastLineOf(front: string, line: string)
    requires NoNewline(line)
    ensures LastLine(front + "\n" + line + "\n") == line
  {
    var s := front + "\n" + line + "\n";
    assert s[..|s| - 1] == front + "\n" + line;
    AfterLastBreakOf(front, line);
  }
}
