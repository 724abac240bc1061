/** String helpers shared by the modules: JavaScript `startsWith`, `includes`,
    `trim()` emptiness, ASCII case mapping and decimal rendering of integers. */
module Text {
  import opened Wrappers

  /** `s.startsWith(p)` */
  predicate StartsWith(s: string, p: string)
  {
    |p| <= |s| && s[..|p|] == p
  }

  /** `s.includes(sub)` */
  predicate Contains(s: string, sub: string)
    decreases |s|
  {
    StartsWith(s, sub) || (|s| > 0 && Contains(s[1..], sub))
  }

  lemma {:induction false} ContainsAt(s: string, sub: string, i: nat)
    requires i + |sub| <= |s| && s[i..i + |sub|] == sub
    ensures Contains(s, sub)
    decreases i
  {
    if i > 0 {
      assert s[1..][i - 1..i - 1 + |sub|] == s[i..i + |sub|];
      ContainsAt(s[1..], sub, i - 1);
    }
  }

  /** A text lacking one of the characters of `sub` does not contain `sub`. */
  lemma {:induction false} MissingCharNotContained(s: string, sub: string, k: nat)
    requires k < |sub| && sub[k] !in s
    ensures !Contains(s, sub)
    decreases |s|
  {
    if |sub| <= |s| {
      assert s[..|sub|][k] == s[k];
    }
    if |s| > 0 {
      assert sub[k] !in s[1..] by {
        forall i | 0 <= i < |s[1..]| ensures s[1..][i] != sub[k] { assert s[1..][i] == s[i + 1]; }
      }
      MissingCharNotContained(s[1..], sub, k);
    }
  }

  /** A text that differs from `p` at some position of both does not start with `p`. */
  lemma DiffersAt(s: string, p: string, k: nat)
    requires k < |p| && k < |s| && s[k] != p[k]
    ensures !StartsWith(s, p)
  {
    if |p| <= |s| {
      assert s[..|p|][k] == s[k];
    }
  }

  /** Index of the first `c` in `s`, if any (`s.indexOf(c)`). */
  function IndexOf(s: string, c: char): (r: Option<nat>)
    ensures r.Some? ==> r.value < |s| && s[r.value] == c && c !in s[..r.value]
    ensures r.None? ==> c !in s
  {
    if s == [] then None
    else if s[0] == c then Some(0)
    else match IndexOf(s[1..], c) {
      case Some(i) =>
        assert s[..i + 1] == [s[0]] + s[1..][..i];
        Some(i + 1)
      case None =>
        assert s == [s[0]] + s[1..];
        None
    }
  }

  /** The first `c` of `head + tail` is the first one of `tail` when `head` has none. */
  lemma {:induction false} IndexAfter(head: string, tail: string, c: char)
    requires c !in head && |tail| >= 1 && tail[0] == c
    ensures IndexOf(head + tail, c) == Some(|head|)
    decreases |head|
  {
    if head == [] {
      assert head + tail == tail;
    } else {
      assert (head + tail)[0] == head[0];
      assert (head + tail)[1..] == head[1..] + tail;
      assert c !in head[1..] by {
        forall i | 0 <= i < |head[1..]| ensures head[1..][i] != c { assert head[1..][i] == head[i + 1]; }
      }
      IndexAfter(head[1..], tail, c);
    }
  }

  /** The text before the first `c`, or all of `s`: `s.split(c)[0]`. */
  function Before(s: string, c: char): (r: string)
    ensures c !in r
    ensures c !in s ==> r == s
    ensures c in s ==> |r| < |s| && s[..|r|] == r && s[|r|] == c
  {
    match IndexOf(s, c)
    case None => s
    case Some(i) => s[..i]
  }

  /** `s.split(c)[1]`: the text between the first and the second `c` (or
      to the end), undefined (None) when `s` has no `c`. */
  function SecondField(s: string, c: char): (r: Option<string>)
    ensures r.None? <==> c !in s
    ensures r.Some? ==> c !in r.value
  {
    match IndexOf(s, c)
    case None => None
    case Some(i) => Some(Before(s[i + 1..], c))
  }

  /** The second field of `head + [c] + field + tail` is `field` when neither
      `head` nor `field` holds a `c` and `tail` is empty or starts with one. */
  lemma SecondFieldOf(head: string, c: char, field: string, tail: string)
    requires c !in head && c !in field
    requires tail == [] || tail[0] == c
    ensures SecondField(head + [c] + field + tail, c) == Some(field)
  {
    var s := head + [c] + field + tail;
    assert s == head + ([c] + field + tail);
    IndexAfter(head, [c] + field + tail, c);
    assert s[|head| + 1..] == field + tail;
    if tail == [] {
      assert field + tail == field;
    } else {
      IndexAfter(field, tail, c);
    }
  }

  /** The characters `String.prototype.trim` removes (ASCII ones, NBSP and the BOM). */
  predicate IsWhitespace(c: char)
  {
    c == ' ' || c == '\t' || c == '\n' || c == '\r' || c == '\U{000B}' || c == '\U{000C}'
    || c == '\U{00A0}' || c == '\U{FEFF}'
  }

  /** `line.trim()` is the empty string, i.e. the line is falsy after trimming. */
  predicate IsBlank(s: string)
  {
    forall i :: 0 <= i < |s| ==> IsWhitespace(s[i])
  }

  /** `toLowerCase` restricted to ASCII letters. */
  function LowerChar(c: char): (r: char)
    ensures 'A' <= c <= 'Z' ==> 'a' <= r <= 'z'
    ensures !('A' <= c <= 'Z') ==> r == c
  {
    if 'A' <= c <= 'Z' then (c as int + 32) as char else c
  }

  /** `toUpperCase` restricted to ASCII letters. */
  function UpperChar(c: char): (r: char)
    ensures 'a' <= c <= 'z' ==> 'A' <= r <= 'Z' && LowerChar(r) == c
    ensures !('a' <= c <= 'z') ==> r == c
  {
    if 'a' <= c <= 'z' then (c as int - 32) as char else c
  }

  function Lower(s: string): (r: string)
    ensures |r| == |s|
    ensures forall i :: 0 <= i < |s| ==> r[i] == LowerChar(s[i])
  {
    seq(|s|, i requires 0 <= i < |s| => LowerChar(s[i]))
  }

  function Digit(d: nat): (c: char)
    requires d < 10
    ensures '0' <= c <= '9'
  {
    ('0' as int + d) as char
  }

  /** Decimal rendering of a natural number, as a template literal prints it. */
  function NatToString(n: nat): (r: string)
    ensures |r| >= 1
    ensures forall i :: 0 <= i < |r| ==> '0' <= r[i] <= '9'
  {
    if n < 10 then [Digit(n)] else NatToString(n / 10) + [Digit(n % 10)]
  }

  function IntToString(n: int): (r: string)
    ensures |r| >= 1 && '0' <= r[|r| - 1] <= '9'
  {
    if n < 0 then "-" + NatToString(-n) else NatToString(n)
  }
}
