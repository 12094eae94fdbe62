/** Character classes and string operations shared by the Python services and
    the browser helpers: Python's `str.strip`, `str.replace`, `str.split`,
    `str.join`, the `in` substring test, ASCII digit handling and the
    zero-padded decimal rendering that `strftime` produces. */
module Text {

  import opened Wrappers
  import opened Seqs

  /* ---------------------------------------------------------------------- */
  /* Character classes                                                       */
  /* ---------------------------------------------------------------------- */

  /** The characters for which Python's `str.isspace()` holds; `str.strip()`
      and the regular-expression class `\s` on `str` patterns use this set. */
  predicate IsPyWhitespace(c: char) {
    ('\t' <= c <= '\r') || ('\U{1c}' <= c <= '\U{1f}') || c == ' '
    || c == '\U{85}' || c == '\U{a0}' || c == '\U{1680}'
    || ('\U{2000}' <= c <= '\U{200a}') || c == '\U{2028}' || c == '\U{2029}'
    || c == '\U{202f}' || c == '\U{205f}' || c == '\U{3000}'
  }

  /** The characters JavaScript's `String.prototype.trim` removes
      (WhiteSpace and LineTerminator of ECMA-262). */
  predicate IsJsWhitespace(c: char) {
    ('\t' <= c <= '\r') || c == ' ' || c == '\U{a0}' || c == '\U{1680}'
    || ('\U{2000}' <= c <= '\U{200a}') || c == '\U{2028}' || c == '\U{2029}'
    || c == '\U{202f}' || c == '\U{205f}' || c == '\U{3000}' || c == '\U{feff}'
  }

  /** An ASCII decimal digit: JavaScript's `\d`, and the digits this model
      lets Python's `\d` match. */
  predicate IsDigit(c: char) {
    '0' <= c <= '9'
  }

  predicate AllDigits(s: string) {
    forall i :: 0 <= i < |s| ==> IsDigit(s[i])
  }

  predicate NoDigits(s: string) {
    forall i :: 0 <= i < |s| ==> !IsDigit(s[i])
  }

  /* ---------------------------------------------------------------------- */
  /* Trimming                                                                */
  /* ---------------------------------------------------------------------- */

  /** Drops the longest prefix whose characters all satisfy `p`. */
  function DropLeading(s: string, p: char -> bool): (r: string)
    ensures |r| <= |s| && r == s[|s| - |r|..]
    ensures r == [] || !p(r[0])
    ensures forall i :: 0 <= i < |s| - |r| ==> p(s[i])
  {
    if s != [] && p(s[0]) then DropLeading(s[1..], p) else s
  }

  /** Drops the longest suffix whose characters all satisfy `p`. */
  function DropTrailing(s: string, p: char -> bool): (r: string)
    ensures |r| <= |s| && r == s[..|r|]
    ensures r == [] || !p(r[|r| - 1])
    ensures forall i :: |r| <= i < |s| ==> p(s[i])
  {
    if s != [] && p(s[|s| - 1]) then DropTrailing(s[..|s| - 1], p) else s
  }

  /** Python's `str.rstrip()`. */
  function RStrip(s: string): (r: string)
    ensures |r| <= |s| && r == s[..|r|]
    ensures r == [] || !IsPyWhitespace(r[|r| - 1])
    ensures forall i :: |r| <= i < |s| ==> IsPyWhitespace(s[i])
  {
    DropTrailing(s, IsPyWhitespace)
  }

  /** Python's `str.strip()`: the result is a contiguous piece of `s` that
      neither starts nor ends with whitespace, and everything cut away is
      whitespace. */
  function Strip(s: string): (r: string)
    ensures |r| <= |s|
    ensures r == [] || (!IsPyWhitespace(r[0]) && !IsPyWhitespace(r[|r| - 1]))
    ensures (s == [] || (!IsPyWhitespace(s[0]) && !IsPyWhitespace(s[|s| - 1]))) ==> r == s
    ensures r == [] <==> forall i :: 0 <= i < |s| ==> IsPyWhitespace(s[i])
  {
    var l := DropLeading(s, IsPyWhitespace);
    var r := DropTrailing(l, IsPyWhitespace);
    assert r == [] ==> forall i :: 0 <= i < |s| ==> IsPyWhitespace(s[i]) by {
      if r == [] {
        forall i | 0 <= i < |s| ensures IsPyWhitespace(s[i]) {
        }
      }
    }
    r
  }

  /** Where the stripped text starts in `s`. */
  function StripStart(s: string): nat {
    |s| - |DropLeading(s, IsPyWhitespace)|
  }

  /** The stripped text is the piece of `s` starting at `StripStart(s)`. */
  lemma StripPiece(s: string)
    ensures StripStart(s) + |Strip(s)| <= |s|
    ensures forall j :: 0 <= j < |Strip(s)| ==> Strip(s)[j] == s[StripStart(s) + j]
  {
    var l := DropLeading(s, IsPyWhitespace);
    var r := DropTrailing(l, IsPyWhitespace);
    assert Strip(s) == r;
    forall j | 0 <= j < |r| ensures r[j] == s[StripStart(s) + j] {
      assert r[j] == l[j];
    }
  }

  /** `s` with every whitespace character deleted: what is left when only
      the visible characters count. */
  function DropWs(s: string): (r: string)
    ensures |r| <= |s|
    ensures forall i :: 0 <= i < |r| ==> !IsPyWhitespace(r[i])
  {
    if s == [] then []
    else if IsPyWhitespace(s[0]) then DropWs(s[1..])
    else [s[0]] + DropWs(s[1..])
  }

  lemma {:induction false} DropWsAppend(a: string, b: string)
    ensures DropWs(a + b) == DropWs(a) + DropWs(b)
    decreases |a|
  {
    if a == [] {
      assert a + b == b;
    } else {
      assert (a + b)[0] == a[0] && (a + b)[1..] == a[1..] + b;
      DropWsAppend(a[1..], b);
      if !IsPyWhitespace(a[0]) {
        assert DropWs(a + b) == [a[0]] + (DropWs(a[1..]) + DropWs(b));
      }
    }
  }

  /** Dropping a leading run of whitespace-only characters deletes no
      visible character. */
  lemma {:induction false} DropLeadingKeepsInk(s: string, p: char -> bool)
    requires forall x :: p(x) ==> IsPyWhitespace(x)
    ensures DropWs(DropLeading(s, p)) == DropWs(s)
    decreases |s|
  {
    if s != [] && p(s[0]) {
      DropLeadingKeepsInk(s[1..], p);
    }
  }

  /** Likewise for a trailing run. */
  lemma {:induction false} DropTrailingKeepsInk(s: string, p: char -> bool)
    requires forall x :: p(x) ==> IsPyWhitespace(x)
    ensures DropWs(DropTrailing(s, p)) == DropWs(s)
    decreases |s|
  {
    if s != [] && p(s[|s| - 1]) {
      var init := s[..|s| - 1];
      DropTrailingKeepsInk(init, p);
      assert s == init + [s[|s| - 1]];
      DropWsAppend(init, [s[|s| - 1]]);
      assert DropWs([s[|s| - 1]]) == [];
    }
  }

  /** `strip` deletes only whitespace. */
  lemma StripKeepsInk(s: string)
    ensures DropWs(Strip(s)) == DropWs(s)
  {
    DropLeadingKeepsInk(s, IsPyWhitespace);
    DropTrailingKeepsInk(DropLeading(s, IsPyWhitespace), IsPyWhitespace);
  }

  /** JavaScript's `String.prototype.trim`. */
  function JsTrim(s: string): (r: string)
    ensures |r| <= |s|
    ensures r == [] || (!IsJsWhitespace(r[0]) && !IsJsWhitespace(r[|r| - 1]))
    ensures (s == [] || (!IsJsWhitespace(s[0]) && !IsJsWhitespace(s[|s| - 1]))) ==> r == s
  {
    DropTrailing(DropLeading(s, IsJsWhitespace), IsJsWhitespace)
  }

  /* ---------------------------------------------------------------------- */
  /* Substrings, replace, split and join                                     */
  /* ---------------------------------------------------------------------- */

  predicate StartsWith(s: string, prefix: string) {
    |prefix| <= |s| && s[..|prefix|] == prefix
  }

  /** Python's `sub in s`. */
  predicate Contains(s: string, sub: string)
    decreases |s|
  {
    StartsWith(s, sub) || (s != [] && Contains(s[1..], sub))
  }

  /** Python's `"".join(parts)`. */
  function Concat(parts: seq<string>): string {
    if parts == [] then "" else parts[0] + Concat(parts[1..])
  }

  /** Python's `sep.join(parts)`. */
  function Join(parts: seq<string>, sep: string): string {
    if |parts| == 0 then ""
    else if |parts| == 1 then parts[0]
    else parts[0] + sep + Join(parts[1..], sep)
  }

  /** Python's `s.split(sep)`: scans left to right and cuts at every
      non-overlapping occurrence of `sep`; an empty separator raises in
      Python, hence the precondition. */
  function Split(s: string, sep: string): (r: seq<string>)
    requires |sep| > 0
    ensures |r| >= 1
    decreases |s|
  {
    if |s| < |sep| then [s]
    else if s[..|sep|] == sep then [""] + Split(s[|sep|..], sep)
    else
      var rest := Split(s[1..], sep);
      [[s[0]] + rest[0]] + rest[1..]
  }

  /** Python's `s.replace(pat, rep)`: every non-overlapping occurrence of
      `pat`, found left to right, becomes `rep`. Every token this model
      replaces is non-empty. */
  function Replace(s: string, pat: string, rep: string): string
    requires |pat| > 0
    decreases |s|
  {
    if |s| < |pat| then s
    else if s[..|pat|] == pat then rep + Replace(s[|pat|..], pat, rep)
    else [s[0]] + Replace(s[1..], pat, rep)
  }

  lemma JoinConsHead(c: char, x: string, xs: seq<string>, sep: string)
    ensures Join([[c] + x] + xs, sep) == [c] + Join([x] + xs, sep)
  {
    if |xs| > 0 {
      assert ([[c] + x] + xs)[1..] == xs;
      assert ([x] + xs)[1..] == xs;
    }
  }

  /** Joining the pieces of a split with the same separator gives back the
      original text. */
  lemma {:induction false} JoinSplit(s: string, sep: string)
    requires |sep| > 0
    ensures Join(Split(s, sep), sep) == s
    decreases |s|
  {
    if |s| < |sep| {
    } else if s[..|sep|] == sep {
      var rest := Split(s[|sep|..], sep);
      JoinSplit(s[|sep|..], sep);
      assert ([""] + rest)[1..] == rest;
      assert s == sep + s[|sep|..];
    } else {
      var rest := Split(s[1..], sep);
      JoinSplit(s[1..], sep);
      JoinConsHead(s[0], rest[0], rest[1..], sep);
      assert [rest[0]] + rest[1..] == rest;
      assert s == [s[0]] + s[1..];
    }
  }

  /** Replacing is splitting at the pattern and joining with the
      replacement: `s.replace(pat, rep) == rep.join(s.split(pat))`. */
  lemma {:induction false} ReplaceIsJoinOfSplit(s: string, pat: string, rep: string)
    requires |pat| > 0
    ensures Replace(s, pat, rep) == Join(Split(s, pat), rep)
    decreases |s|
  {
    if |s| < |pat| {
    } else if s[..|pat|] == pat {
      var rest := Split(s[|pat|..], pat);
      ReplaceIsJoinOfSplit(s[|pat|..], pat, rep);
      assert ([""] + rest)[1..] == rest;
    } else {
      var rest := Split(s[1..], pat);
      ReplaceIsJoinOfSplit(s[1..], pat, rep);
      JoinConsHead(s[0], rest[0], rest[1..], rep);
      assert [rest[0]] + rest[1..] == rest;
    }
  }

  /** Replacing a substring that does not occur changes nothing. */
  lemma {:induction false} ReplaceAbsent(s: string, pat: string, rep: string)
    requires |pat| > 0
    requires !Contains(s, pat)
    ensures Replace(s, pat, rep) == s
    decreases |s|
  {
    if |s| >= |pat| {
      assert s[..|pat|] != pat;
      ReplaceAbsent(s[1..], pat, rep);
      assert s == [s[0]] + s[1..];
    }
  }

  lemma {:induction false} SplitWithoutSeparator(s: string, c: char)
    requires c !in s
    ensures Split(s, [c]) == [s]
    decreases |s|
  {
    if |s| >= 1 {
      assert s[..1] != [c] by { assert s[0] in s; }
      SplitWithoutSeparator(s[1..], c);
      assert s == [s[0]] + s[1..];
    }
  }

  lemma {:induction false} SplitAtFirst(x: string, c: char, y: string)
    requires c !in x
    ensures Split(x + [c] + y, [c]) == [x] + Split(y, [c])
    decreases |x|
  {
    var s := x + [c] + y;
    if x == [] {
      assert s[..1] == [c];
      assert s[1..] == y;
    } else {
      assert s[..1] != [c] by { assert s[0] == x[0]; assert x[0] in x; }
      assert s[1..] == x[1..] + [c] + y;
      assert c !in x[1..] by {
        forall i | 0 <= i < |x[1..]| ensures x[1..][i] != c { assert x[1..][i] == x[i + 1]; }
      }
      SplitAtFirst(x[1..], c, y);
      assert [x[0]] + x[1..] == x;
    }
  }

  /** Splitting a `c`-joined list at `c` recovers the list, provided no item
      contains `c` itself (an empty list joins to "" and splits to [""], so it
      is excluded). */
  lemma {:induction false} SplitJoinSingleChar(parts: seq<string>, c: char)
    requires |parts| >= 1
    requires forall i :: 0 <= i < |parts| ==> c !in parts[i]
    ensures Split(Join(parts, [c]), [c]) == parts
    decreases |parts|
  {
    if |parts| == 1 {
      SplitWithoutSeparator(parts[0], c);
    } else {
      SplitAtFirst(parts[0], c, Join(parts[1..], [c]));
      SplitJoinSingleChar(parts[1..], c);
      assert [parts[0]] + parts[1..] == parts;
    }
  }

  lemma ConcatAppend(a: seq<string>, b: seq<string>)
    ensures Concat(a + b) == Concat(a) + Concat(b)
  {
    if a != [] {
      assert (a + b)[1..] == a[1..] + b;
      ConcatAppend(a[1..], b);
    } else {
      assert a + b == b;
    }
  }

  /* ---------------------------------------------------------------------- */
  /* Digits and numbers                                                      */
  /* ---------------------------------------------------------------------- */

  /** Every digit of `s`, in order: what `re.sub(r"\D+", "", s)` and
      JavaScript's `s.replace(/\D+/g, "")` leave. */
  function DigitsOf(s: string): (r: string)
    ensures AllDigits(r)
    ensures |r| <= |s|
    ensures AllDigits(s) ==> r == s
    ensures r == [] <==> NoDigits(s)
    ensures |r| == DigitCount(s)
  {
    if s == [] then ""
    else if IsDigit(s[0]) then [s[0]] + DigitsOf(s[1..])
    else DigitsOf(s[1..])
  }

  /** How many characters of `s` are digits. */
  function DigitCount(s: string): nat {
    if s == [] then 0 else (if IsDigit(s[0]) then 1 else 0) + DigitCount(s[1..])
  }

  /** The digits of a text are a subsequence of it. */
  lemma {:induction false} DigitsSubseq(s: string)
    ensures IsSubseq(DigitsOf(s), s)
  {
    if s != [] {
      DigitsSubseq(s[1..]);
      SubseqCons(IsDigit(s[0]), s[0], DigitsOf(s[1..]), s[1..]);
      assert [s[0]] + s[1..] == s;
      assert DigitsOf(s) == (if IsDigit(s[0]) then [s[0]] else []) + DigitsOf(s[1..]);
    }
  }

  /** Stripping non-digits distributes over concatenation, so the digits of
      a text are the digits of its pieces, in order. */
  lemma {:induction false} DigitsOfAppend(a: string, b: string)
    ensures DigitsOf(a + b) == DigitsOf(a) + DigitsOf(b)
  {
    if a == [] {
      assert a + b == b;
    } else {
      assert (a + b)[0] == a[0];
      assert (a + b)[1..] == a[1..] + b;
      DigitsOfAppend(a[1..], b);
    }
  }

  function DigitValue(c: char): nat
    requires IsDigit(c)
  {
    c as nat - '0' as nat
  }

  function DigitChar(d: nat): (c: char)
    requires d < 10
    ensures IsDigit(c) && DigitValue(c) == d
  {
    ('0' as nat + d) as char
  }

  /** The number an all-digit string denotes (Python's `int`, JavaScript's
      `Number`, on ASCII digits). */
  function NatValue(s: string): nat
    requires AllDigits(s)
  {
    if s == [] then 0 else 10 * NatValue(s[..|s| - 1]) + DigitValue(s[|s| - 1])
  }

  function Pow10(n: nat): (r: nat)
    ensures r >= 1
  {
    if n == 0 then 1 else 10 * Pow10(n - 1)
  }

  /** `n` written with exactly `width` digits, zero-padded on the left, as
      `%02d`, `%04d` and `strftime`'s `%d %m %Y %H %M` produce it. */
  function Pad(n: nat, width: nat): (r: string)
    requires n < Pow10(width)
    ensures |r| == width && AllDigits(r)
  {
    if width == 0 then "" else Pad(n / 10, width - 1) + [DigitChar(n % 10)]
  }

  /** Reading a padded number back gives the number. */
  lemma {:induction false} PadValue(n: nat, width: nat)
    requires n < Pow10(width)
    ensures NatValue(Pad(n, width)) == n
  {
    if width > 0 {
      var r := Pad(n, width);
      assert r[..|r| - 1] == Pad(n / 10, width - 1);
      PadValue(n / 10, width - 1);
    }
  }

  /** Python's `str(n)` for an integer. */
  function IntToString(n: int): (r: string)
    ensures r != []
  {
    if n < 0 then "-" + NatToString(-n) else NatToString(n)
  }

  function NatToString(n: nat): (r: string)
    ensures r != [] && AllDigits(r)
  {
    if n < 10 then [DigitChar(n)] else NatToString(n / 10) + [DigitChar(n % 10)]
  }

  /* ---------------------------------------------------------------------- */
  /* Case                                                                    */
  /* ---------------------------------------------------------------------- */

  function UpperChar(c: char): char {
    if 'a' <= c <= 'z' then (c as int - 32) as char else c
  }

  /** Upper-casing on ASCII letters (Python's `str.upper`, JavaScript's
      `toUpperCase`, restricted to the letters the model can see). */
  function Upper(s: string): (r: string)
    ensures |r| == |s|
    ensures forall i :: 0 <= i < |s| ==> r[i] == UpperChar(s[i])
  {
    if s == [] then "" else [UpperChar(s[0])] + Upper(s[1..])
  }

  /** Python's `s.split(c, 1)[1]` when `c in s`: the text after the first `c`. */
  function AfterFirst(s: string, c: char): (r: Option<string>)
    ensures r.None? <==> c !in s
    ensures r.Some? ==> exists i :: 0 <= i < |s| && s[i] == c && c !in s[..i] && r.value == s[i + 1..]
  {
    if s == [] then None
    else if s[0] == c then Some(s[1..])
    else
      var rest := AfterFirst(s[1..], c);
      if rest.Some? then
        ghost var i :| 0 <= i < |s[1..]| && s[1..][i] == c && c !in s[1..][..i] && rest.value == s[1..][i + 1..];
        assert s[i + 1] == c && s[..i + 1] == [s[0]] + s[1..][..i];
        assert s[i + 2..] == s[1..][i + 1..];
        rest
      else
        assert s == [s[0]] + s[1..];
        rest
  }


  lemma UpperAppend(a: string, b: string)
    ensures Upper(a + b) == Upper(a) + Upper(b)
  {
  }

  /** Upper-casing twice is upper-casing once. */
  lemma UpperIdempotent(s: string)
    ensures Upper(Upper(s)) == Upper(s)
  {
  }

  /** The text after the first `c` when `c` does not occur before it. */
  lemma {:induction false} AfterFirstAppend(x: string, c: char, y: string)
    requires c !in x
    ensures AfterFirst(x + [c] + y, c) == Some(y)
    decreases |x|
  {
    var s := x + [c] + y;
    if x == [] {
      assert s == [c] + y;
    } else {
      assert s[0] == x[0] && x[0] in x;
      assert s[1..] == x[1..] + [c] + y;
      assert c !in x[1..] by {
        forall i | 0 <= i < |x[1..]| ensures x[1..][i] != c { assert x[1..][i] == x[i + 1]; }
      }
      AfterFirstAppend(x[1..], c, y);
    }
  }

  /** Stripping text that already has no whitespace at its ends, after
      putting a space in front of it, removes just that space. */
  lemma StripLeadingSpace(v: string)
    requires v != [] && !IsPyWhitespace(v[0]) && !IsPyWhitespace(v[|v| - 1])
    ensures Strip(" " + v) == v
  {
    assert (" " + v)[1..] == v;
    assert DropLeading(" " + v, IsPyWhitespace) == DropLeading(v, IsPyWhitespace);
    assert DropLeading(v, IsPyWhitespace) == v;
  }
}
