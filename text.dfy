/** The string operations of Go's `strings`, `strconv` and `net` packages that the modelled code relies on,
    defined on `seq<char>`, with the laws the rest of the model uses. */
module Text {

  predicate HasPrefix(s: string, p: string) {
    |p| <= |s| && s[..|p|] == p
  }

  predicate HasSuffix(s: string, p: string) {
    |p| <= |s| && s[|s| - |p|..] == p
  }

  /** strings.Contains: `sub` occurs somewhere in `s`. */
  predicate Contains(s: string, sub: string)
    decreases |s|
  {
    HasPrefix(s, sub) || (|s| > 0 && Contains(s[1..], sub))
  }

  /** strings.TrimSuffix */
  function TrimSuffix(s: string, suffix: string): (r: string)
    ensures HasSuffix(s, suffix) ==> r + suffix == s
    ensures !HasSuffix(s, suffix) ==> r == s
  {
    if HasSuffix(s, suffix) then s[..|s| - |suffix|] else s
  }

  /** strings.Split: the pieces of `s` between the non-overlapping occurrences of `sep`, scanning left to right. */
  function Split(s: string, sep: string): (r: seq<string>)
    requires |sep| > 0
    ensures |r| >= 1
    decreases |s|
  {
    if HasPrefix(s, sep) then [""] + Split(s[|sep|..], sep)
    else if |s| == 0 then [""]
    else
      var rest := Split(s[1..], sep);
      [[s[0]] + rest[0]] + rest[1..]
  }

  /** strings.Join */
  function Join(xs: seq<string>, sep: string): string
    decreases |xs|
  {
    if |xs| == 0 then ""
    else if |xs| == 1 then xs[0]
    else xs[0] + sep + Join(xs[1..], sep)
  }

  lemma {:induction false} JoinConsHead(c: char, x: string, ys: seq<string>, sep: string)
    ensures Join([[c] + x] + ys, sep) == [c] + Join([x] + ys, sep)
  {
    var xs := [[c] + x] + ys;
    assert xs[1..] == ys;
    assert ([x] + ys)[1..] == ys;
  }

  lemma JoinEmptyHead(ys: seq<string>, sep: string)
    requires |ys| >= 1
    ensures Join([""] + ys, sep) == sep + Join(ys, sep)
  {
    assert ([""] + ys)[1..] == ys;
  }

  /** Joining the pieces of a split with the same separator gives back the original string. */
  lemma {:induction false} JoinSplit(s: string, sep: string)
    requires |sep| > 0
    ensures Join(Split(s, sep), sep) == s
    decreases |s|
  {
    if HasPrefix(s, sep) {
      JoinSplitAtSep(s, sep);
    } else if |s| == 0 {
    } else {
      JoinSplitAtChar(s, sep);
    }
  }

  lemma {:induction false} JoinSplitAtSep(s: string, sep: string)
    requires |sep| > 0 && HasPrefix(s, sep)
    ensures Join(Split(s, sep), sep) == s
    decreases |s|, 0
  {
    var tail := Split(s[|sep|..], sep);
    assert Split(s, sep) == [""] + tail;
    JoinSplit(s[|sep|..], sep);
    JoinEmptyHead(tail, sep);
    assert s == s[..|sep|] + s[|sep|..];
  }

  lemma {:induction false} JoinSplitAtChar(s: string, sep: string)
    requires |sep| > 0 && !HasPrefix(s, sep) && |s| > 0
    ensures Join(Split(s, sep), sep) == s
    decreases |s|, 0
  {
    var rest := Split(s[1..], sep);
    assert Split(s, sep) == [[s[0]] + rest[0]] + rest[1..];
    JoinSplit(s[1..], sep);
    assert [rest[0]] + rest[1..] == rest;
    JoinConsHead(s[0], rest[0], rest[1..], sep);
    assert s == [s[0]] + s[1..];
  }

  /** A string splits into more than one piece exactly when it contains the separator; otherwise the one piece
      is the string itself. */
  lemma {:induction false} SplitSingle(s: string, sep: string)
    requires |sep| > 0
    ensures |Split(s, sep)| == 1 <==> !Contains(s, sep)
    ensures !Contains(s, sep) ==> Split(s, sep) == [s]
    decreases |s|
  {
    if HasPrefix(s, sep) {
    } else if |s| == 0 {
    } else {
      SplitSingle(s[1..], sep);
      var rest := Split(s[1..], sep);
      if !Contains(s, sep) {
        assert rest == [s[1..]];
        assert [s[0]] + s[1..] == s;
      }
    }
  }

  /** The result of cutting `s` around the first occurrence of a character (strings.SplitN(s, c, 2)). */
  datatype CutResult = CutResult(before: string, after: string, found: bool)

  function Cut(s: string, c: char): (r: CutResult)
    ensures r.found ==> r.before + [c] + r.after == s && c !in r.before
    ensures !r.found ==> r.before == s && r.after == "" && c !in s
    decreases |s|
  {
    if |s| == 0 then CutResult("", "", false)
    else if s[0] == c then CutResult("", s[1..], true)
    else
      var rest := Cut(s[1..], c);
      CutResult([s[0]] + rest.before, rest.after, rest.found)
  }

  /** Go's unicode.IsSpace. */
  predicate IsSpace(c: char) {
    c == ' ' || c == '\t' || c == '\n' || c == '\r' || c == '\U{000B}' || c == '\U{000C}'
    || c == '\U{0085}' || c == '\U{00A0}' || c == '\U{1680}' || ('\U{2000}' <= c <= '\U{200A}')
    || c == '\U{2028}' || c == '\U{2029}' || c == '\U{202F}' || c == '\U{205F}' || c == '\U{3000}'
  }

  function TrimLeftSpace(s: string): (r: string)
    ensures |r| <= |s| && r == s[|s| - |r|..]
    ensures |r| > 0 ==> !IsSpace(r[0])
    ensures forall i | 0 <= i < |s| - |r| :: IsSpace(s[i])
    decreases |s|
  {
    if |s| > 0 && IsSpace(s[0]) then TrimLeftSpace(s[1..]) else s
  }

  function TrimRightSpace(s: string): (r: string)
    ensures |r| <= |s| && r == s[..|r|]
    ensures |r| > 0 ==> !IsSpace(r[|r| - 1])
    ensures forall i | |r| <= i < |s| :: IsSpace(s[i])
    decreases |s|
  {
    if |s| > 0 && IsSpace(s[|s| - 1]) then TrimRightSpace(s[..|s| - 1]) else s
  }

  /** strings.TrimSpace */
  function TrimSpace(s: string): string {
    TrimRightSpace(TrimLeftSpace(s))
  }

  lemma {:induction false} AllSpaceTrimsLeft(s: string)
    requires forall i | 0 <= i < |s| :: IsSpace(s[i])
    ensures TrimLeftSpace(s) == ""
    decreases |s|
  {
    if |s| > 0 {
      AllSpaceTrimsLeft(s[1..]);
    }
  }

  /** A string made of white space only trims to the empty string, and only such a string does. */
  lemma TrimSpaceEmpty(s: string)
    ensures TrimSpace(s) == "" <==> forall i | 0 <= i < |s| :: IsSpace(s[i])
  {
    if forall i | 0 <= i < |s| :: IsSpace(s[i]) {
      AllSpaceTrimsLeft(s);
    }
  }

  /** strings.ReplaceAll(s, [from], [to]) for single characters. */
  function ReplaceChar(s: string, from: char, to: char): (r: string)
    ensures |r| == |s|
    ensures forall i | 0 <= i < |s| :: r[i] == if s[i] == from then to else s[i]
  {
    seq(|s|, i requires 0 <= i < |s| => if s[i] == from then to else s[i])
  }

  // ---- decimal numbers: strconv.FormatInt(x, 10) ----

  function DigitChar(d: nat): (c: char)
    requires d < 10
    ensures DigitValue(c) == d
  {
    ('0' as int + d) as char
  }

  function DigitValue(c: char): int {
    if '0' <= c <= '9' then c as int - '0' as int else -1
  }

  /** The decimal digits of a natural number, most significant first, without leading zeros. */
  function NatString(n: nat): (r: string)
    ensures |r| >= 1
    ensures forall i | 0 <= i < |r| :: 0 <= DigitValue(r[i]) < 10
    decreases n
  {
    if n < 10 then [DigitChar(n)] else NatString(n / 10) + [DigitChar(n % 10)]
  }

  /** strconv.FormatInt(x, 10): a minus sign before the digits of a negative number. */
  function FormatInt(x: int): (r: string)
    ensures |r| >= 1
  {
    if x < 0 then "-" + NatString(-x) else NatString(x)
  }

  /** The value of a string of decimal digits. */
  function DigitsValue(s: string): int
    decreases |s|
  {
    if |s| == 0 then 0 else DigitsValue(s[..|s| - 1]) * 10 + DigitValue(s[|s| - 1])
  }

  function ParseInt(s: string): int {
    if |s| > 0 && s[0] == '-' then -DigitsValue(s[1..]) else DigitsValue(s)
  }

  /** The decimal rendering reads back as the number it renders. */
  lemma {:induction false} NatStringValue(n: nat)
    ensures DigitsValue(NatString(n)) == n
    decreases n
  {
    if n >= 10 {
      NatStringValue(n / 10);
      var s := NatString(n);
      assert s[..|s| - 1] == NatString(n / 10);
      assert DigitValue(s[|s| - 1]) == n % 10;
      assert DigitsValue(s) == (n / 10) * 10 + n % 10;
    }
  }

  lemma FormatIntRoundTrip(x: int)
    ensures ParseInt(FormatInt(x)) == x
  {
    if x < 0 {
      NatStringValue(-x);
      assert FormatInt(x)[1..] == NatString(-x);
    } else {
      NatStringValue(x);
    }
  }

  /** net.JoinHostPort: an IPv6-like host (one containing ':') is bracketed. */
  function JoinHostPort(host: string, port: string): (r: string)
    ensures ':' !in host ==> r == host + ":" + port
    ensures ':' in host ==> r == "[" + host + "]:" + port
  {
    if ':' in host then "[" + host + "]:" + port else host + ":" + port
  }
}
