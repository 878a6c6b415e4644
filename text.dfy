/** The Python string built-ins the pipeline relies on: `str.strip()`,
    `str.lower()` (on the characters that matter for the router),
    `sep.join(...)`, decimal formatting of integers and `%H`/`%M`
    zero padding. */
module Text {

  /** Python's `str.isspace()` for one character: the ASCII controls
      TAB..CR, the separators 0x1C..0x1F, space, NEL, NBSP and the Unicode
      space separators. */
  predicate IsSpace(c: char) {
    c == ' ' || ('\t' <= c <= '\r') || ('\U{1C}' <= c <= '\U{1F}')
    || c == '\U{85}' || c == '\U{A0}' || c == '\U{1680}'
    || ('\U{2000}' <= c <= '\U{200A}') || c == '\U{2028}' || c == '\U{2029}'
    || c == '\U{202F}' || c == '\U{205F}' || c == '\U{3000}'
  }

  /** Every character is whitespace (the empty string included). */
  predicate IsBlank(s: string) {
    forall i :: 0 <= i < |s| ==> IsSpace(s[i])
  }

  /** Neither end of `s` is whitespace. */
  predicate IsTrimmed(s: string) {
    s == [] || (!IsSpace(s[0]) && !IsSpace(s[|s| - 1]))
  }

  /** `s.rstrip()`: the prefix of `s` left after dropping trailing whitespace. */
  function TrimEnd(s: string): (r: string)
    ensures |r| <= |s| && r == s[..|r|]
    ensures r == [] || !IsSpace(r[|r| - 1])
    ensures IsBlank(s[|r|..])
  {
    if s != [] && IsSpace(s[|s| - 1]) then
      var init := s[..|s| - 1];
      var r := TrimEnd(init);
      assert init[..|r|] == s[..|r|];
      assert s[|r|..] == init[|r|..] + [s[|s| - 1]];
      BlankSnoc(init[|r|..], s[|s| - 1]);
      r
    else s
  }

  lemma BlankSnoc(t: string, c: char)
    requires IsBlank(t) && IsSpace(c)
    ensures IsBlank(t + [c])
  {
    assert forall i :: 0 <= i < |t| ==> (t + [c])[i] == t[i];
  }

  /** `s.strip()`: leading whitespace is dropped one character at a time,
      then trailing whitespace. */
  function Strip(s: string): (r: string)
    ensures |r| <= |s|
    ensures IsTrimmed(r)
    ensures r == [] <==> IsBlank(s)
    ensures BlankEndsCut(s, r)
  {
    if s != [] && IsSpace(s[0]) then
      assert IsBlank(s) <==> IsBlank(s[1..]) by {
        assert forall i :: 1 <= i < |s| ==> s[i] == s[1..][i - 1];
      }
      var r := Strip(s[1..]);
      BlankEndsCutStep(s, r);
      r
    else
      var r := TrimEnd(s);
      assert r == [] ==> s[|r|..] == s;
      assert r != [] ==> r[0] == s[0];
      BlankEndsCutTail(s, r);
      r
  }

  /** `r` is `s` with a whitespace-only head and a whitespace-only tail cut off. */
  ghost predicate BlankEndsCut(s: string, r: string) {
    exists i, j :: 0 <= i <= j <= |s| && r == s[i..j] && IsBlank(s[..i]) && IsBlank(s[j..])
  }

  lemma BlankEndsCutStep(s: string, r: string)
    requires s != [] && IsSpace(s[0]) && BlankEndsCut(s[1..], r)
    ensures BlankEndsCut(s, r)
  {
    var t := s[1..];
    var i, j :| 0 <= i <= j <= |t| && r == t[i..j] && IsBlank(t[..i]) && IsBlank(t[j..]);
    assert r == s[i + 1..j + 1];
    assert t[j..] == s[j + 1..];
    var head := s[..i + 1];
    forall k | 0 <= k < |head|
      ensures IsSpace(head[k])
    {
      if k > 0 {
        assert head[k] == t[..i][k - 1];
      }
    }
  }

  lemma BlankEndsCutTail(s: string, r: string)
    requires |r| <= |s| && r == s[..|r|] && IsBlank(s[|r|..])
    ensures BlankEndsCut(s, r)
  {
    assert r == s[0..|r|] && s[..0] == [];
  }

  /** A string whose ends are not whitespace is left alone by `strip()`. */
  lemma StripTrimmed(s: string)
    requires IsTrimmed(s)
    ensures Strip(s) == s
  {
  }

  /** Stripping twice is stripping once. */
  lemma StripIdempotent(s: string)
    ensures Strip(Strip(s)) == Strip(s)
  {
    StripTrimmed(Strip(s));
  }

  lemma {:induction false} TrimEndBlankTail(s: string, t: string)
    requires IsBlank(t)
    requires s == [] || !IsSpace(s[|s| - 1])
    ensures TrimEnd(s + t) == s
    decreases |t|
  {
    if t == [] {
      assert s + t == s;
    } else {
      var u := t[..|t| - 1];
      assert (s + t)[..|s + t| - 1] == s + u;
      TrimEndBlankTail(s, u);
    }
  }

  /** `(s + t).strip()` drops a whitespace tail `t` from an already trimmed `s`. */
  lemma StripBlankTail(s: string, t: string)
    requires IsTrimmed(s) && IsBlank(t)
    ensures Strip(s + t) == s
  {
    if s == [] {
      assert s + t == t;
    } else {
      assert (s + t)[0] == s[0];
      TrimEndBlankTail(s, t);
    }
  }

  /** A string framed by `p` and `q` begins with `p` and ends with `q`. */
  lemma Framed(p: string, m: string, q: string)
    ensures var w := p + m + q;
            |p| + |q| <= |w| && w[..|p|] == p && w[|w| - |q|..] == q
  {
    var w := p + m + q;
    assert w == p + (m + q);
  }

  /** `c.lower()` for the ASCII letters; every other character is kept. */
  function LowerChar(c: char): char {
    if 'A' <= c <= 'Z' then (c as int + 32) as char else c
  }

  /** `s.lower()`, with case mapping restricted to ASCII. */
  function Lower(s: string): (r: string)
    ensures |r| == |s|
    ensures forall i :: 0 <= i < |s| ==> r[i] == LowerChar(s[i])
    ensures forall i :: 0 <= i < |r| ==> !('A' <= r[i] <= 'Z')
    ensures forall i :: 0 <= i < |s| && !('A' <= s[i] <= 'Z') ==> r[i] == s[i]
  {
    seq(|s|, i requires 0 <= i < |s| => LowerChar(s[i]))
  }

  /** The only strings that lower-case to "q" are "q" and "Q". */
  lemma LowerIsQ(t: string)
    ensures Lower(t) == "q" <==> t == "q" || t == "Q"
  {
    if Lower(t) == "q" {
      assert |t| == 1 && LowerChar(t[0]) == 'q';
      assert t == [t[0]];
    }
    if t == "Q" {
      assert Lower(t)[0] == 'q';
    }
  }

  /** `sep.join(xs)`. */
  function Join(sep: string, xs: seq<string>): (r: string)
    ensures xs == [] ==> r == ""
    ensures xs != [] ==> |xs[0]| <= |r| && r[..|xs[0]|] == xs[0]
  {
    if |xs| == 0 then ""
    else if |xs| == 1 then xs[0]
    else xs[0] + sep + Join(sep, xs[1..])
  }

  /** A join ends with its last item. (A lemma rather than part of Join's
      contract, so that unfolding a join does not bring suffixes along.) */
  lemma {:induction false} JoinEndsWithLast(sep: string, xs: seq<string>)
    requires xs != []
    ensures var r, last := Join(sep, xs), xs[|xs| - 1];
            |last| <= |r| && r[|r| - |last|..] == last
  {
    if |xs| >= 2 {
      var rest := xs[1..];
      JoinEndsWithLast(sep, rest);
      assert rest[|rest| - 1] == xs[|xs| - 1];
      var r, last, tail := Join(sep, xs), xs[|xs| - 1], Join(sep, rest);
      assert r == (xs[0] + sep) + tail;
      assert r[|r| - |last|..] == tail[|tail| - |last|..];
    }
  }

  /** Joining two, three, four and five items, spelled out one length at
      a time. */
  lemma JoinTwo(sep: string, d: string, f: string)
    ensures Join(sep, [d, f]) == d + sep + f
  {
    assert [d, f][1..] == [f];
  }

  lemma JoinThree(sep: string, c: string, d: string, f: string)
    ensures Join(sep, [c, d, f]) == c + sep + d + sep + f
  {
    assert [c, d, f][1..] == [d, f];
    assert Join(sep, [c, d, f]) == c + sep + Join(sep, [d, f]);
    JoinTwo(sep, d, f);
  }

  lemma JoinFour(sep: string, b: string, c: string, d: string, f: string)
    ensures Join(sep, [b, c, d, f]) == b + sep + c + sep + d + sep + f
  {
    assert [b, c, d, f][1..] == [c, d, f];
    assert Join(sep, [b, c, d, f]) == b + sep + Join(sep, [c, d, f]);
    JoinThree(sep, c, d, f);
  }

  lemma JoinFive(sep: string, a: string, b: string, c: string, d: string, f: string)
    ensures Join(sep, [a, b, c, d, f]) == a + sep + b + sep + c + sep + d + sep + f
  {
    assert [a, b, c, d, f][1..] == [b, c, d, f];
    assert Join(sep, [a, b, c, d, f]) == a + sep + Join(sep, [b, c, d, f]);
    JoinFour(sep, b, c, d, f);
  }

  /** With a non-empty separator the join is empty exactly when there is
      nothing to join or the only item is itself empty. */
  lemma JoinIsEmpty(sep: string, xs: seq<string>)
    requires sep != ""
    ensures Join(sep, xs) == "" <==> xs == [] || xs == [""]
  {
    if |xs| == 1 {
      assert xs == [xs[0]];
    }
  }

  /** Joining one more item appends the separator and the item. */
  lemma {:induction false} JoinSnoc(sep: string, xs: seq<string>, x: string)
    requires xs != []
    ensures Join(sep, xs + [x]) == Join(sep, xs) + sep + x
  {
    if |xs| == 1 {
      assert xs + [x] == [xs[0], x];
    } else {
      assert (xs + [x])[1..] == xs[1..] + [x];
      JoinSnoc(sep, xs[1..], x);
    }
  }

  predicate IsDigit(c: char) {
    '0' <= c <= '9'
  }

  predicate IsDigits(s: string) {
    forall i :: 0 <= i < |s| ==> IsDigit(s[i])
  }

  function DigitChar(d: nat): (c: char)
    requires d < 10
    ensures IsDigit(c)
  {
    (d + '0' as int) as char
  }

  function DigitValue(c: char): (d: nat)
    requires IsDigit(c)
    ensures d < 10
  {
    c as int - '0' as int
  }

  /** `str(n)` for a non-negative integer: decimal digits, no leading zero. */
  function NatToString(n: nat): (r: string)
    ensures r != [] && IsDigits(r)
    ensures r[0] == '0' ==> n == 0
    decreases n
  {
    if n < 10 then [DigitChar(n)] else NatToString(n / 10) + [DigitChar(n % 10)]
  }

  /** Reads a string of decimal digits back as a number. */
  function ParseDigits(s: string): nat
    requires IsDigits(s)
  {
    if s == [] then 0 else 10 * ParseDigits(s[..|s| - 1]) + DigitValue(s[|s| - 1])
  }

  /** Decimal formatting loses nothing: reading the digits back gives `n`. */
  lemma {:induction false} NatToStringRoundTrip(n: nat)
    ensures ParseDigits(NatToString(n)) == n
    decreases n
  {
    var r := NatToString(n);
    if n >= 10 {
      NatToStringRoundTrip(n / 10);
      assert r[..|r| - 1] == NatToString(n / 10);
    }
  }

  /** `f"{n:02d}"` as used by `%H` and `%M`: two digits, zero padded. */
  function Pad2(n: nat): (r: string)
    requires n < 100
    ensures |r| == 2 && IsDigits(r)
  {
    [DigitChar(n / 10), DigitChar(n % 10)]
  }

  lemma Pad2RoundTrip(n: nat)
    requires n < 100
    ensures ParseDigits(Pad2(n)) == n
  {
    var r := Pad2(n);
    assert r[..1] == [r[0]];
    assert [r[0]][..0] == [];
    assert ParseDigits([r[0]]) == n / 10;
    assert ParseDigits(r) == 10 * ParseDigits([r[0]]) + n % 10;
  }

  /** The strings of `parts`, one after another. */
  function Concat(parts: seq<string>): string {
    if parts == [] then [] else Concat(parts[..|parts| - 1]) + parts[|parts| - 1]
  }

  /** `h` appears in `s` starting at offset `i`. */
  predicate Occurs(h: string, s: string, i: nat) {
    i + |h| <= |s| && s[i..i + |h|] == h
  }

  /** Where part `j` starts in the concatenation. */
  function Offset(parts: seq<string>, j: nat): nat
    requires j <= |parts|
  {
    |Concat(parts[..j])|
  }

  lemma {:induction false} ConcatAppend(a: seq<string>, b: seq<string>)
    ensures Concat(a + b) == Concat(a) + Concat(b)
    decreases |b|
  {
    if b == [] {
      assert a + b == a;
    } else {
      var b' := b[..|b| - 1];
      assert (a + b)[..|a + b| - 1] == a + b';
      assert Concat(a + b) == Concat(a + b') + b[|b| - 1];
      ConcatAppend(a, b');
      assert Concat(b) == Concat(b') + b[|b| - 1];
    }
  }

  /** A prefix of the middle string occurs where the middle string starts. */
  lemma MiddleOccurs(a: string, b: string, c: string, h: string)
    requires |h| <= |b| && b[..|h|] == h
    ensures Occurs(h, a + b + c, |a|)
  {
    var w := a + b + c;
    assert forall i :: 0 <= i < |h| ==> w[|a| + i] == b[i];
    assert w[|a|..|a| + |h|] == b[..|h|];
  }

  /** Part `j` sits at its offset in the concatenation, so any prefix of it
      does too, and the next part starts right after it. */
  lemma PartOccurs(parts: seq<string>, j: nat, h: string)
    requires j < |parts| && |h| <= |parts[j]| && parts[j][..|h|] == h
    ensures Occurs(h, Concat(parts), Offset(parts, j))
    ensures Offset(parts, j + 1) == Offset(parts, j) + |parts[j]|
  {
    var upTo, rest := parts[..j + 1], parts[j + 1..];
    assert upTo[..|upTo| - 1] == parts[..j];
    var pre := Concat(parts[..j]);
    assert Concat(upTo) == pre + parts[j];
    assert parts == upTo + rest;
    ConcatAppend(upTo, rest);
    assert Concat(parts) == pre + parts[j] + Concat(rest);
    MiddleOccurs(pre, parts[j], Concat(rest), h);
  }

  /** Offsets never decrease along the parts. */
  lemma OffsetMonotone(parts: seq<string>, i: nat, j: nat)
    requires i <= j <= |parts|
    ensures Offset(parts, i) <= Offset(parts, j)
  {
    assert parts[..j] == parts[..i] + parts[i..j];
    ConcatAppend(parts[..i], parts[i..j]);
  }

  /** Part `j` of a concatenation sits at its offset, and the next part
      starts right after it. */
  lemma PartAt(parts: seq<string>, j: nat)
    requires j < |parts|
    ensures Occurs(parts[j], Concat(parts), Offset(parts, j))
    ensures Offset(parts, j + 1) == Offset(parts, j) + |parts[j]|
  {
    assert parts[j][..|parts[j]|] == parts[j];
    PartOccurs(parts, j, parts[j]);
  }

  lemma ConcatThree(a: string, b: string, c: string)
    ensures Concat([a, b, c]) == a + b + c
  {
    assert [a, b, c][..2] == [a, b];
    assert [a, b][..1] == [a];
    assert [a][..0] == [];
    assert Concat([a]) == a;
    assert Concat([a, b]) == a + b;
  }

  /** A concatenation of at least six parts begins with its first three
      parts and ends with its last three. */
  lemma ConcatEnds(parts: seq<string>)
    requires |parts| >= 6
    ensures var w, n := Concat(parts), |parts|;
            var head, tail := parts[0] + parts[1] + parts[2], parts[n - 3] + parts[n - 2] + parts[n - 1];
            && |head| + |tail| <= |w| && w[..|head|] == head && w[|w| - |tail|..] == tail
  {
    var n := |parts|;
    var front, middle, back := parts[..3], parts[3..n - 3], parts[n - 3..];
    assert front == [parts[0], parts[1], parts[2]];
    ConcatThree(parts[0], parts[1], parts[2]);
    assert back == [parts[n - 3], parts[n - 2], parts[n - 1]];
    ConcatThree(parts[n - 3], parts[n - 2], parts[n - 1]);
    assert parts == front + middle + back;
    ConcatAppend(front, middle);
    ConcatAppend(front + middle, back);
    Framed(Concat(front), Concat(middle), Concat(back));
  }
}
