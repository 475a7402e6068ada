/** The Python string built-ins the bot relies on, restated over `seq<char>`:
    `str.isspace`, `str.lower`, `str.strip`, `str.split`, `str.partition`,
    the no-argument `str.split(maxsplit=1)` used by the command filter, and
    `str.isdigit` restricted to ASCII digits. */
module Text {

  /** `c.isspace()` in CPython: the Unicode whitespace code points. */
  predicate IsSpace(c: char) {
    || c == ' '
    || ('\t' <= c <= '\r')
    || ('\U{1C}' <= c <= '\U{1F}')
    || c == '\U{85}'
    || c == '\U{A0}'
    || c == '\U{1680}'
    || ('\U{2000}' <= c <= '\U{200A}')
    || c == '\U{2028}'
    || c == '\U{2029}'
    || c == '\U{202F}'
    || c == '\U{205F}'
    || c == '\U{3000}'
  }

  predicate AllSpace(s: string) {
    forall i :: 0 <= i < |s| ==> IsSpace(s[i])
  }

  /** Neither end of `s` is whitespace (what `strip` leaves behind). */
  predicate Trimmed(s: string) {
    s == [] || (!IsSpace(s[0]) && !IsSpace(s[|s| - 1]))
  }

  /** `c.lower()` for ASCII letters and the Cyrillic capitals U+0400..U+042F;
      every other character is left as it is. */
  function LowerChar(c: char): char {
    if 'A' <= c <= 'Z' then (c as int + 0x20) as char
    else if '\U{0410}' <= c <= '\U{042F}' then (c as int + 0x20) as char
    else if '\U{0400}' <= c <= '\U{040F}' then (c as int + 0x50) as char
    else c
  }

  function Lower(s: string): string {
    seq(|s|, i requires 0 <= i < |s| => LowerChar(s[i]))
  }

  lemma LowerCharKeepsSpace(c: char)
    ensures IsSpace(LowerChar(c)) <==> IsSpace(c)
  {
  }

  /** The first position at or after `i` that does not hold whitespace, or `|s|`. */
  function SkipSpace(s: string, i: nat): (a: nat)
    requires i <= |s|
    ensures i <= a <= |s|
    ensures forall k :: i <= k < a ==> IsSpace(s[k])
    ensures a < |s| ==> !IsSpace(s[a])
    decreases |s| - i
  {
    if i < |s| && IsSpace(s[i]) then SkipSpace(s, i + 1) else i
  }

  /** The position just past the last non-whitespace character before `j`, or 0. */
  function SkipSpaceBack(s: string, j: nat): (b: nat)
    requires j <= |s|
    ensures b <= j
    ensures forall k :: b <= k < j ==> IsSpace(s[k])
    ensures b > 0 ==> !IsSpace(s[b - 1])
    decreases j
  {
    if j > 0 && IsSpace(s[j - 1]) then SkipSpaceBack(s, j - 1) else j
  }

  /** `s.lstrip()`. */
  function TrimStart(s: string): string {
    s[SkipSpace(s, 0)..]
  }

  /** `s.strip()`: the slice from the first to the last non-whitespace character,
      or "" when there is none. It is the slice of `s` that has only whitespace
      on both sides and whitespace at neither end (`StripUnique`). */
  function Strip(s: string): (r: string)
    ensures var a := SkipSpace(s, 0);
      && a + |r| <= |s|
      && r == s[a..a + |r|]
      && (forall k :: 0 <= k < a ==> IsSpace(s[k]))
      && (forall k :: a + |r| <= k < |s| ==> IsSpace(s[k]))
      && Trimmed(r)
  {
    var a := SkipSpace(s, 0);
    var b := SkipSpaceBack(s, |s|);
    if a < b then s[a..b] else []
  }

  /** Any trimmed slice of `s` that has only whitespace on both sides is `s.strip()`. */
  lemma StripUnique(s: string, i: nat, r: string)
    requires i + |r| <= |s| && r == s[i..i + |r|]
    requires forall k :: 0 <= k < i ==> IsSpace(s[k])
    requires forall k :: i + |r| <= k < |s| ==> IsSpace(s[k])
    requires Trimmed(r)
    ensures Strip(s) == r
  {
    var a := SkipSpace(s, 0);
    var b := SkipSpaceBack(s, |s|);
    if r == [] {
      if a < |s| {
        assert false;
      }
    } else {
      var j := i + |r|;
      assert s[i] == r[0] && s[j - 1] == r[|r| - 1];
      assert a == i by {
        if a < i { assert false; }
        if a > i { assert false; }
      }
      assert b == j by {
        if b < j { assert false; }
        if b > j { assert false; }
      }
    }
  }

  /** `strip` leaves a string with whitespace at neither end as it is. */
  lemma StripTrimmed(x: string)
    requires Trimmed(x)
    ensures Strip(x) == x
  {
    assert x[0..0 + |x|] == x;
    StripUnique(x, 0, x);
  }

  /** Whitespace on either side of a string never changes what `strip` returns. */
  lemma StripIgnoresPadding(pre: string, t: string, post: string)
    requires AllSpace(pre) && AllSpace(post)
    ensures Strip(pre + t + post) == Strip(t)
  {
    var r := Strip(t);
    var a := SkipSpace(t, 0);
    var u := pre + t + post;
    var j := |pre| + a;
    assert u[j..j + |r|] == t[a..a + |r|];
    forall k | 0 <= k < j ensures IsSpace(u[k]) {
      if k < |pre| { assert u[k] == pre[k]; } else { assert u[k] == t[k - |pre|]; }
    }
    forall k | j + |r| <= k < |u| ensures IsSpace(u[k]) {
      if k < |pre| + |t| { assert u[k] == t[k - |pre|]; } else { assert u[k] == post[k - |pre| - |t|]; }
    }
    StripUnique(u, j, r);
  }

  /** `text.lower().strip()`, the normalisation the handlers apply before comparing
      a message with one of their fixed phrases. */
  function Norm(text: string): string {
    Strip(Lower(text))
  }

  lemma LowerAllSpace(s: string)
    requires AllSpace(s)
    ensures AllSpace(Lower(s))
  {
    forall k | 0 <= k < |s| ensures IsSpace(Lower(s)[k]) {
      LowerCharKeepsSpace(s[k]);
    }
  }

  /** The match is insensitive to surrounding whitespace: padding a message on
      either side never changes its normal form. */
  lemma NormIgnoresPadding(pre: string, t: string, post: string)
    requires AllSpace(pre) && AllSpace(post)
    ensures Norm(pre + t + post) == Norm(t)
  {
    assert Lower(pre + t + post) == Lower(pre) + Lower(t) + Lower(post);
    LowerAllSpace(pre);
    LowerAllSpace(post);
    StripIgnoresPadding(Lower(pre), Lower(t), Lower(post));
  }

  /** Lower-casing keeps every character's whitespace status, so it skips the
      same leading whitespace. */
  lemma {:induction false} SkipSpaceLower(s: string, i: nat)
    requires i <= |s|
    ensures SkipSpace(Lower(s), i) == SkipSpace(s, i)
    decreases |s| - i
  {
    if i < |s| {
      LowerCharKeepsSpace(s[i]);
      SkipSpaceLower(s, i + 1);
    }
  }

  /** A non-empty normal form starts with the lower-cased first non-space
      character of the message, and that character is where `TrimStart` begins. */
  lemma NormHead(text: string)
    requires Norm(text) != []
    ensures TrimStart(text) != []
    ensures Norm(text)[0] == LowerChar(TrimStart(text)[0])
  {
    SkipSpaceLower(text, 0);
    var a := SkipSpace(text, 0);
    assert Norm(text)[0] == Lower(text)[a];
  }

  predicate IsAsciiDigit(c: char) {
    '0' <= c <= '9'
  }

  /** `s.isdigit()` over ASCII digits: true only for a non-empty run of digits. */
  predicate IsDigits(s: string) {
    s != [] && forall i :: 0 <= i < |s| ==> IsAsciiDigit(s[i])
  }

  /** The position of the first `c` in `s`, or `|s|` when there is none. */
  function IndexOf(s: string, c: char): (i: nat)
    ensures i <= |s|
    ensures c !in s[..i]
    ensures i < |s| ==> s[i] == c
    ensures i == |s| <==> c !in s
    decreases |s|
  {
    if s == [] then 0
    else if s[0] == c then 0
    else
      var j := IndexOf(s[1..], c);
      assert s[..j + 1] == [s[0]] + s[1..][..j];
      j + 1
  }

  /** `s.split(sep)` with an explicit separator: never empty, and no piece holds `sep`. */
  function Split(s: string, sep: char): (r: seq<string>)
    ensures |r| >= 1
    ensures forall k :: 0 <= k < |r| ==> sep !in r[k]
    decreases |s|
  {
    if s == [] then [[]]
    else
      var rest := Split(s[1..], sep);
      if s[0] == sep then [[]] + rest
      else [[s[0]] + rest[0]] + rest[1..]
  }

  /** `sep.join(ps)`. */
  function Join(ps: seq<string>, sep: char): string
    decreases |ps|
  {
    if ps == [] then []
    else if |ps| == 1 then ps[0]
    else ps[0] + [sep] + Join(ps[1..], sep)
  }

  /** Joining the pieces of a split gives back the original string. */
  lemma {:induction false} JoinSplit(s: string, sep: char)
    ensures Join(Split(s, sep), sep) == s
    decreases |s|
  {
    if s != [] {
      var rest := Split(s[1..], sep);
      JoinSplit(s[1..], sep);
      if s[0] != sep && |rest| > 1 {
        assert rest == [rest[0]] + rest[1..];
        assert Join(rest, sep) == rest[0] + [sep] + Join(rest[1..], sep);
      }
    }
  }

  lemma {:induction false} SplitNoSeparator(s: string, sep: char)
    requires sep !in s
    ensures Split(s, sep) == [s]
    decreases |s|
  {
    if s != [] {
      SplitNoSeparator(s[1..], sep);
      assert [s[0]] + s[1..] == s;
    }
  }

  lemma {:induction false} SplitAtSeparator(x: string, sep: char, y: string)
    requires sep !in x
    ensures Split(x + [sep] + y, sep) == [x] + Split(y, sep)
    decreases |x|
  {
    var s := x + [sep] + y;
    if x == [] {
      assert s[1..] == y;
    } else {
      assert s[1..] == x[1..] + [sep] + y;
      SplitAtSeparator(x[1..], sep, y);
      assert [x[0]] + x[1..] == x;
    }
  }

  /** Splitting a join of separator-free pieces gives back the pieces. */
  lemma {:induction false} SplitJoin(ps: seq<string>, sep: char)
    requires |ps| >= 1
    requires forall k :: 0 <= k < |ps| ==> sep !in ps[k]
    ensures Split(Join(ps, sep), sep) == ps
    decreases |ps|
  {
    if |ps| == 1 {
      SplitNoSeparator(ps[0], sep);
    } else {
      SplitJoin(ps[1..], sep);
      SplitAtSeparator(ps[0], sep, Join(ps[1..], sep));
    }
  }

  /** The first piece of a split is everything before the first separator. */
  lemma {:induction false} SplitHead(s: string, sep: char)
    ensures Split(s, sep)[0] == s[..IndexOf(s, sep)]
    decreases |s|
  {
    if s != [] && s[0] != sep {
      SplitHead(s[1..], sep);
    }
  }

  /** `s.partition(sep)` without the middle part: the text before the first
      `sep` and the text after it (empty when there is no `sep`). */
  function Partition(s: string, sep: char): (string, string) {
    var i := IndexOf(s, sep);
    if i < |s| then (s[..i], s[i + 1..]) else (s, [])
  }

  /** The leading run of non-space characters of `s`. */
  function TakeWord(s: string): (w: string)
    ensures |w| <= |s| && w == s[..|w|]
    ensures forall k :: 0 <= k < |w| ==> !IsSpace(w[k])
    ensures |w| < |s| ==> IsSpace(s[|w|])
    decreases |s|
  {
    if s == [] || IsSpace(s[0]) then [] else [s[0]] + TakeWord(s[1..])
  }

  /** `s.split(maxsplit=1)[0]`, or the empty string when `s` is blank (where
      Python's split returns no pieces at all). */
  function FirstWord(s: string): string {
    TakeWord(TrimStart(s))
  }
}
