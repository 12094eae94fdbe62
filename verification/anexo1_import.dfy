/** Post-processing of an imported Anexo I (the travel request) into an
    Anexo II (the travel report) prefill, as `app/services/anexo1_import.py`
    does it once the document's text has been extracted and its labelled
    fields located. Text extraction and the regular-expression field
    extractors are not modelled: their output arrives as a `ParsedDocument`
    of optional strings. */
module Anexo1Import {

  import opened Wrappers
  import opened Text
  import opened Json
  import Dates
  import opened Seqs

  /* ---------------------------------------------------------------------- */
  /* normalize_text                                                          */
  /* ---------------------------------------------------------------------- */

  /** The class `[ \t]`. */
  predicate IsBlank(c: char) {
    c == ' ' || c == '\t'
  }

  predicate IsNewline(c: char) {
    c == '\n'
  }

  /** `s.replace(a, b)` for single characters: a character-wise map. */
  function ReplaceChar(s: string, a: char, b: char): (r: string)
    ensures |r| == |s|
    ensures forall i :: 0 <= i < |s| ==> r[i] == (if s[i] == a then b else s[i])
    ensures a != b ==> a !in r
  {
    if s == [] then [] else [if s[0] == a then b else s[0]] + ReplaceChar(s[1..], a, b)
  }

  /** `re.sub(P + "+", c, s)` for a one-character class `P`: every maximal
      run of characters satisfying `p` becomes the single character `c`.
      (`\n{2,}` replaced by `\n` is the same as `\n+` replaced by `\n`.) */
  function CollapseRuns(s: string, p: char -> bool, c: char): (r: string)
    ensures |r| <= |s|
    ensures r == [] <==> s == []
    ensures s != [] && !p(s[0]) ==> r[0] == s[0]
    ensures s != [] && p(s[0]) ==> r[0] == c
    ensures forall i :: 0 <= i < |r| ==> r[i] == c || r[i] in s
    decreases |s|
  {
    if s == [] then []
    else if p(s[0]) then
      var t := DropLeading(s, p);
      var rest := CollapseRuns(t, p, c);
      assert forall i :: 0 <= i < |t| ==> t[i] == s[|s| - |t| + i];
      [c] + rest
    else
      [s[0]] + CollapseRuns(s[1..], p, c)
  }

  /** No two characters of class `p` are adjacent, and the only member of
      the class that occurs is `c`. */
  predicate RunFree(s: string, p: char -> bool, c: char) {
    (forall i :: 0 <= i < |s| && p(s[i]) ==> s[i] == c)
    && (forall i :: 0 <= i < |s| - 1 ==> !(p(s[i]) && p(s[i + 1])))
  }

  lemma {:induction false} CollapseRunsRunFree(s: string, p: char -> bool, c: char)
    requires p(c)
    ensures RunFree(CollapseRuns(s, p, c), p, c)
    decreases |s|
  {
    if s != [] {
      if p(s[0]) {
        var t := DropLeading(s, p);
        CollapseRunsRunFree(t, p, c);
      } else {
        CollapseRunsRunFree(s[1..], p, c);
      }
    }
  }

  lemma RunFreeSlice(s: string, p: char -> bool, c: char, a: nat, b: nat)
    requires a <= b <= |s|
    requires RunFree(s, p, c)
    ensures RunFree(s[a..b], p, c)
  {
    var t := s[a..b];
    assert forall i :: 0 <= i < |t| ==> t[i] == s[a + i];
  }

  /** Putting a character in front of a run-free text keeps it run-free,
      unless it starts or extends a run. */
  lemma RunFreeCons(x: char, rest: string, q: char -> bool, d: char)
    requires RunFree(rest, q, d)
    requires q(x) ==> x == d && (rest == [] || !q(rest[0]))
    ensures RunFree([x] + rest, q, d)
  {
    var s := [x] + rest;
    assert forall i :: 1 <= i < |s| ==> s[i] == rest[i - 1];
  }

  /** Collapsing one class keeps another, disjoint, class run-free. */
  lemma {:induction false} CollapseRunsKeeps(s: string, p: char -> bool, c: char, q: char -> bool, d: char)
    requires RunFree(s, q, d)
    requires forall x :: q(x) ==> !p(x)
    requires !q(c)
    ensures RunFree(CollapseRuns(s, p, c), q, d)
    decreases |s|
  {
    if s != [] {
      if p(s[0]) {
        var t := DropLeading(s, p);
        RunFreeSlice(s, q, d, |s| - |t|, |s|);
        assert t == s[|s| - |t|..|s|];
        CollapseRunsKeeps(t, p, c, q, d);
        RunFreeCons(c, CollapseRuns(t, p, c), q, d);
      } else {
        RunFreeSlice(s, q, d, 1, |s|);
        assert s[1..] == s[1..|s|];
        CollapseRunsKeeps(s[1..], p, c, q, d);
        if q(s[0]) && |s| > 1 {
          assert !(q(s[0]) && q(s[1]));
        }
        RunFreeCons(s[0], CollapseRuns(s[1..], p, c), q, d);
      }
    }
  }

  /** A run-free text is left alone by collapsing. */
  lemma {:induction false} CollapseRunsFixed(s: string, p: char -> bool, c: char)
    requires RunFree(s, p, c)
    ensures CollapseRuns(s, p, c) == s
    decreases |s|
  {
    if s != [] {
      RunFreeSlice(s, p, c, 1, |s|);
      assert s[1..] == s[1..|s|];
      if p(s[0]) {
        assert DropLeading(s[1..], p) == s[1..];
        assert DropLeading(s, p) == s[1..];
      }
      CollapseRunsFixed(s[1..], p, c);
    }
  }

  /** Replacing one whitespace character by another keeps the visible
      text. */
  lemma {:induction false} ReplaceCharKeepsInk(s: string, a: char, b: char)
    requires IsPyWhitespace(a) && IsPyWhitespace(b)
    ensures DropWs(ReplaceChar(s, a, b)) == DropWs(s)
    decreases |s|
  {
    if s != [] {
      var r := ReplaceChar(s, a, b);
      assert r[1..] == ReplaceChar(s[1..], a, b);
      ReplaceCharKeepsInk(s[1..], a, b);
    }
  }

  /** Collapsing runs of whitespace into one whitespace character keeps the
      visible text. */
  lemma {:induction false} CollapseRunsKeepsInk(s: string, p: char -> bool, c: char)
    requires forall x :: p(x) ==> IsPyWhitespace(x)
    requires IsPyWhitespace(c)
    ensures DropWs(CollapseRuns(s, p, c)) == DropWs(s)
    decreases |s|
  {
    if s != [] {
      var r := CollapseRuns(s, p, c);
      if p(s[0]) {
        var t := DropLeading(s, p);
        assert r == [c] + CollapseRuns(t, p, c);
        assert r[1..] == CollapseRuns(t, p, c);
        CollapseRunsKeepsInk(t, p, c);
        DropLeadingKeepsInk(s, p);
      } else {
        assert r[1..] == CollapseRuns(s[1..], p, c);
        CollapseRunsKeepsInk(s[1..], p, c);
      }
    }
  }

  /** What `normalize_text` promises of its output. */
  predicate Normalized(t: string) {
    '\r' !in t
    && RunFree(t, IsBlank, ' ')
    && RunFree(t, IsNewline, '\n')
    && (t == [] || (!IsPyWhitespace(t[0]) && !IsPyWhitespace(t[|t| - 1])))
  }

  /** `normalize_text`: carriage returns become newlines, runs of spaces and
      tabs become one space, runs of newlines become one newline, and the
      ends are stripped. Nothing else happens; in particular no label is
      joined to the value on the next line. */
  function NormalizeText(s: string): (r: string)
    ensures Normalized(r)
    ensures '\r' !in r && '\t' !in r
    ensures forall i :: 0 <= i < |r| - 1 ==> !(r[i] == ' ' && r[i + 1] == ' ')
    ensures forall i :: 0 <= i < |r| - 1 ==> !(r[i] == '\n' && r[i + 1] == '\n')
    ensures DropWs(r) == DropWs(s)
  {
    var s1 := ReplaceChar(s, '\r', '\n');
    var s2 := CollapseRuns(s1, IsBlank, ' ');
    var s3 := CollapseRuns(s2, IsNewline, '\n');
    var r := Strip(s3);
    CollapseBoth(s1, s2, s3);
    StripCollapsed(s3);
    ReplaceCharKeepsInk(s, '\r', '\n');
    CollapseRunsKeepsInk(s1, IsBlank, ' ');
    CollapseRunsKeepsInk(s2, IsNewline, '\n');
    StripKeepsInk(s3);
    r
  }

  /** In a run-free text no character of the class follows itself. */
  lemma NoPair(s: string, p: char -> bool, c: char)
    requires RunFree(s, p, c) && p(c)
    ensures forall i :: 0 <= i < |s| - 1 ==> !(s[i] == c && s[i + 1] == c)
  {
  }

  lemma CollapseRunsAbsent(s: string, p: char -> bool, c: char, x: char)
    requires x !in s && x != c
    ensures x !in CollapseRuns(s, p, c)
  {
    var r := CollapseRuns(s, p, c);
    assert forall i :: 0 <= i < |r| ==> r[i] != x;
  }

  lemma RunFreeAbsent(s: string, p: char -> bool, c: char, x: char)
    requires RunFree(s, p, c) && p(x) && x != c
    ensures x !in s
  {
    assert forall i :: 0 <= i < |s| ==> s[i] != x;
  }

  /** A piece of a run-free text is run-free. */
  lemma PieceRunFree(s: string, r: string, k: nat, p: char -> bool, c: char)
    requires k + |r| <= |s| && forall j :: 0 <= j < |r| ==> r[j] == s[k + j]
    requires RunFree(s, p, c)
    ensures RunFree(r, p, c)
  {
    forall i | 0 <= i < |r| - 1
      ensures !(p(r[i]) && p(r[i + 1]))
    {
      assert r[i] == s[k + i] && r[i + 1] == s[(k + i) + 1];
    }
  }

  /** Stripping keeps a text run-free. */
  lemma StripRunFree(s: string, p: char -> bool, c: char)
    requires RunFree(s, p, c)
    ensures RunFree(Strip(s), p, c)
  {
    StripPiece(s);
    PieceRunFree(s, Strip(s), StripStart(s), p, c);
  }

  /** Stripping adds no character. */
  lemma StripAbsent(s: string, x: char)
    requires x !in s
    ensures x !in Strip(s)
  {
    StripPiece(s);
    var r := Strip(s);
    assert forall j :: 0 <= j < |r| ==> r[j] == s[StripStart(s) + j];
  }

  /** Stripping a collapsed text yields normalised text. */
  lemma StripCollapsed(s: string)
    requires '\r' !in s && '\t' !in s
    requires RunFree(s, IsBlank, ' ') && RunFree(s, IsNewline, '\n')
    ensures Normalized(Strip(s)) && '\t' !in Strip(s)
    ensures forall i :: 0 <= i < |Strip(s)| - 1 ==> !(Strip(s)[i] == ' ' && Strip(s)[i + 1] == ' ')
    ensures forall i :: 0 <= i < |Strip(s)| - 1 ==> !(Strip(s)[i] == '\n' && Strip(s)[i + 1] == '\n')
  {
    var r := Strip(s);
    StripRunFree(s, IsBlank, ' ');
    StripRunFree(s, IsNewline, '\n');
    StripAbsent(s, '\r');
    StripAbsent(s, '\t');
    NormalizedIntro(r);
    NoPair(r, IsBlank, ' ');
    NoPair(r, IsNewline, '\n');
  }

  lemma NormalizedIntro(t: string)
    requires '\r' !in t && RunFree(t, IsBlank, ' ') && RunFree(t, IsNewline, '\n')
    requires t == [] || (!IsPyWhitespace(t[0]) && !IsPyWhitespace(t[|t| - 1]))
    ensures Normalized(t)
  {
  }

  /** The two collapsing passes leave a text without carriage returns or
      tabs in which neither class has a run. */
  lemma CollapseBoth(s1: string, s2: string, s3: string)
    requires '\r' !in s1
    requires s2 == CollapseRuns(s1, IsBlank, ' ')
    requires s3 == CollapseRuns(s2, IsNewline, '\n')
    ensures '\r' !in s3 && '\t' !in s3
    ensures RunFree(s3, IsBlank, ' ') && RunFree(s3, IsNewline, '\n')
  {
    CollapseRunsRunFree(s1, IsBlank, ' ');
    CollapseRunsAbsent(s1, IsBlank, ' ', '\r');
    RunFreeAbsent(s2, IsBlank, ' ', '\t');
    CollapseRunsRunFree(s2, IsNewline, '\n');
    CollapseRunsKeeps(s2, IsNewline, '\n', IsBlank, ' ');
    CollapseRunsAbsent(s2, IsNewline, '\n', '\r');
    CollapseRunsAbsent(s2, IsNewline, '\n', '\t');
  }

  /** Normalised text is a fixed point of `normalize_text`. */
  lemma NormalizeTextFixed(t: string)
    requires Normalized(t)
    ensures NormalizeText(t) == t
  {
    var s1 := ReplaceChar(t, '\r', '\n');
    assert s1 == t;
    CollapseRunsFixed(t, IsBlank, ' ');
    CollapseRunsFixed(t, IsNewline, '\n');
  }

  /** Normalising twice is normalising once. */
  lemma NormalizeTextIdempotent(s: string)
    ensures NormalizeText(NormalizeText(s)) == NormalizeText(s)
  {
    NormalizeTextFixed(NormalizeText(s));
  }

  /* ---------------------------------------------------------------------- */
  /* clean                                                                   */
  /* ---------------------------------------------------------------------- */

  /** The values `clean` drops from a dict: `v2 in (None, "", {}, [])`. */
  predicate IsEmptyValue(v: Value) {
    v == Null || v == Str("") || v == Obj([]) || v == Arr([])
  }

  /** The values `clean` drops from a list: `v not in (None, "")`, tested
      on the element before it is cleaned. */
  predicate IsBlankItem(v: Value) {
    v == Null || v == Str("")
  }

  /** `clean`'s output shape: no dict at any depth holds an empty value, and
      no list at any depth holds `None` or `""`. */
  predicate Pruned(v: Value) {
    match v
    case Obj(ms) => forall i :: 0 <= i < |ms| ==> !IsEmptyValue(ms[i].value) && Pruned(ms[i].value)
    case Arr(xs) => forall i :: 0 <= i < |xs| ==> !IsBlankItem(xs[i]) && Pruned(xs[i])
    case _ => true
  }

  /** The list elements `clean` keeps, before they are cleaned. */
  function KeptItems(xs: seq<Value>): (r: seq<Value>)
    ensures |r| <= |xs|
    ensures forall i :: 0 <= i < |r| ==> !IsBlankItem(r[i]) && r[i] in xs
  {
    if xs == [] then []
    else if IsBlankItem(xs[0]) then KeptItems(xs[1..])
    else [xs[0]] + KeptItems(xs[1..])
  }

  /** `clean`: recursively drop empty dict values and blank list elements.
      A list element is tested before it is cleaned, so `[{"a": None}]`
      becomes `[{}]`: empty containers survive inside lists. */
  function Clean(v: Value): (r: Value)
    ensures Pruned(r)
    ensures v.Obj? <==> r.Obj?
    ensures v.Arr? <==> r.Arr?
    ensures !v.Obj? && !v.Arr? ==> r == v
  {
    match v
    case Obj(ms) => Obj(CleanMembers(ms))
    case Arr(xs) => Arr(CleanItems(xs))
    case _ => v
  }

  function CleanMembers(ms: seq<Member>): (r: seq<Member>)
    ensures forall i :: 0 <= i < |r| ==> !IsEmptyValue(r[i].value) && Pruned(r[i].value)
    ensures |r| <= |ms|
  {
    if ms == [] then []
    else
      var v2 := Clean(ms[0].value);
      var rest := CleanMembers(ms[1..]);
      if IsEmptyValue(v2) then rest else [Member(ms[0].key, v2)] + rest
  }

  function CleanItems(xs: seq<Value>): (r: seq<Value>)
    ensures |r| == |KeptItems(xs)|
    ensures forall i :: 0 <= i < |r| ==> r[i] == Clean(KeptItems(xs)[i])
    ensures forall i :: 0 <= i < |r| ==> !IsBlankItem(r[i]) && Pruned(r[i])
  {
    if xs == [] then []
    else
      var rest := CleanItems(xs[1..]);
      if IsBlankItem(xs[0]) then rest
      else
        var c := Clean(xs[0]);
        assert KeptItems(xs) == [xs[0]] + KeptItems(xs[1..]);
        [c] + rest
  }

  /** Pruned values are left alone by `clean`. */
  lemma {:induction false} CleanFixed(v: Value)
    requires Pruned(v)
    ensures Clean(v) == v
  {
    match v
    case Obj(ms) => CleanMembersFixed(ms);
    case Arr(xs) => CleanItemsFixed(xs);
    case _ =>
  }

  lemma {:induction false} CleanMembersFixed(ms: seq<Member>)
    requires forall i :: 0 <= i < |ms| ==> !IsEmptyValue(ms[i].value) && Pruned(ms[i].value)
    ensures CleanMembers(ms) == ms
  {
    if ms != [] {
      CleanFixed(ms[0].value);
      CleanMembersFixed(ms[1..]);
      assert [Member(ms[0].key, ms[0].value)] + ms[1..] == ms;
    }
  }

  lemma {:induction false} CleanItemsFixed(xs: seq<Value>)
    requires forall i :: 0 <= i < |xs| ==> !IsBlankItem(xs[i]) && Pruned(xs[i])
    ensures CleanItems(xs) == xs
  {
    if xs != [] {
      CleanFixed(xs[0]);
      CleanItemsFixed(xs[1..]);
      assert [xs[0]] + xs[1..] == xs;
    }
  }

  /** Cleaning twice is cleaning once. */
  lemma CleanIdempotent(v: Value)
    ensures Clean(Clean(v)) == Clean(v)
  {
    CleanFixed(Clean(v));
  }

  lemma {:induction false} CleanMembersKeys(ms: seq<Member>, k: string)
    requires k !in Keys(ms)
    ensures k !in Keys(CleanMembers(ms))
  {
    if ms != [] {
      assert Keys(ms) == [ms[0].key] + Keys(ms[1..]);
      CleanMembersKeys(ms[1..], k);
      var rest := CleanMembers(ms[1..]);
      if !IsEmptyValue(Clean(ms[0].value)) {
        assert Keys([Member(ms[0].key, Clean(ms[0].value))] + rest) == [ms[0].key] + Keys(rest);
      }
    }
  }

  /** What a key holds after cleaning a dict: the cleaned value, unless that
      is empty, in which case the key is gone. */
  lemma {:induction false} CleanLookup(ms: seq<Member>, k: string)
    requires DistinctKeys(ms)
    ensures Lookup(CleanMembers(ms), k) ==
      (match Lookup(ms, k)
       case None => None
       case Some(v) => if IsEmptyValue(Clean(v)) then None else Some(Clean(v)))
  {
    if ms != [] {
      var rest := CleanMembers(ms[1..]);
      assert DistinctKeys(ms[1..]) by {
        forall i, j | 0 <= i < j < |ms[1..]| ensures ms[1..][i].key != ms[1..][j].key {
          assert ms[1..][i] == ms[i + 1] && ms[1..][j] == ms[j + 1];
        }
      }
      CleanLookup(ms[1..], k);
      if ms[0].key == k {
        assert k !in Keys(ms[1..]) by {
          forall i | 0 <= i < |ms[1..]| ensures Keys(ms[1..])[i] != k {
            assert ms[1..][i] == ms[i + 1];
          }
        }
        CleanMembersKeys(ms[1..], k);
      }
    }
  }

  /** `clean` keeps an empty dict that sits inside a list: only the dict
      members are tested after cleaning. */
  lemma CleanKeepsEmptyDictInList()
    ensures Clean(Arr([Obj([Member("a", Null)])])) == Arr([Obj([])])
    ensures Clean(Obj([Member("a", Obj([Member("b", Null)]))])) == Obj([])
  {
    assert KeptItems([Obj([Member("a", Null)])]) == [Obj([Member("a", Null)])];
  }

  /** Following a path of dict keys through a cleaned value: a cleaned
      value is reached exactly where the original held one that does not
      clean to empty. */
  lemma {:induction false} CleanAt(v: Value, path: seq<string>)
    requires |path| >= 1
    requires DeepDistinct(v)
    ensures At(Clean(v), path) ==
      (match At(v, path)
       case None => None
       case Some(w) => if IsEmptyValue(Clean(w)) then None else Some(Clean(w)))
    decreases |path|
  {
    if v.Obj? {
      var ms := v.members;
      var k := path[0];
      assert Clean(v) == Obj(CleanMembers(ms));
      CleanLookup(ms, k);
      if Lookup(ms, k).Some? {
        var c := Lookup(ms, k).value;
        LookupIn(ms, k);
        assert DeepDistinct(c);
        assert At(v, path) == At(c, path[1..]);
        if IsEmptyValue(Clean(c)) {
          assert At(Clean(v), path) == None;
          if |path| > 1 {
            CleanAt(c, path[1..]);
            if c.Obj? {
              assert Clean(c) == Obj([]);
              assert At(Clean(c), path[1..]) == None;
            }
          }
        } else {
          assert At(Clean(v), path) == At(Clean(c), path[1..]);
          if |path| > 1 {
            CleanAt(c, path[1..]);
          }
        }
      }
    }
  }

  lemma {:induction false} LookupIn(ms: seq<Member>, k: string)
    requires Lookup(ms, k).Some?
    ensures exists i :: 0 <= i < |ms| && ms[i].value == Lookup(ms, k).value
  {
    if ms[0].key != k {
      LookupIn(ms[1..], k);
      var i :| 0 <= i < |ms[1..]| && ms[1..][i].value == Lookup(ms, k).value;
      assert ms[i + 1].value == Lookup(ms, k).value;
    }
  }

  /* ---------------------------------------------------------------------- */
  /* _only_digits                                                            */
  /* ---------------------------------------------------------------------- */

  /** `_only_digits`: the digits of the text, or `None` when there are none
      (which covers `None` and `""`). */
  function OnlyDigits(value: Option<string>): (r: Option<string>)
    ensures r.None? <==> value.None? || NoDigits(value.value)
    ensures r.Some? ==> r.value != [] && AllDigits(r.value) && |r.value| <= |value.value|
    ensures r.Some? ==> IsSubseq(r.value, value.value)
    ensures r.Some? ==> |r.value| == DigitCount(value.value)
    ensures value.Some? && value.value != [] && AllDigits(value.value) ==> r == value
  {
    if value.None? || value.value == "" then None
    else
      var digits := DigitsOf(value.value);
      DigitsSubseq(value.value);
      if digits == "" then None else Some(digits)
  }

  /** Stripping non-digits again changes nothing. */
  lemma OnlyDigitsIdempotent(value: Option<string>)
    ensures OnlyDigits(OnlyDigits(value)) == OnlyDigits(value)
  {
  }

  /* ---------------------------------------------------------------------- */
  /* _parse_br_datetime                                                      */
  /* ---------------------------------------------------------------------- */

  /** The longest prefix of ASCII digits. */
  function LeadingDigits(s: string): (d: string)
    ensures |d| <= |s| && d == s[..|d|] && AllDigits(d)
    ensures |d| == |s| || !IsDigit(s[|d|])
  {
    if s != [] && IsDigit(s[0]) then [s[0]] + LeadingDigits(s[1..]) else ""
  }

  /** A numeric `strptime` directive followed by a non-digit (or the end):
      the regular expression has to consume the whole run of digits, so the
      run must be 1 to `maxLen` digits long and its value in `lo..hi`. */
  function ReadField(s: string, maxLen: nat, lo: int, hi: int): (r: Option<(int, string)>)
    ensures r.Some? ==> lo <= r.value.0 <= hi && |r.value.1| < |s|
  {
    var d := LeadingDigits(s);
    if 1 <= |d| <= maxLen && lo <= NatValue(d) <= hi then Some((NatValue(d) as int, s[|d|..])) else None
  }

  /** `%Y` followed by whitespace: exactly four digits. */
  function ReadYear(s: string): (r: Option<(int, string)>)
    ensures r.Some? ==> |r.value.1| < |s|
  {
    var d := LeadingDigits(s);
    if |d| == 4 then Some((NatValue(d) as int, s[4..])) else None
  }

  /** A literal character of the format. */
  function Expect(s: string, c: char): (r: Option<string>)
    ensures r.Some? ==> s != [] && s[0] == c && r.value == s[1..]
  {
    if s != [] && s[0] == c then Some(s[1..]) else None
  }

  /** A space in a `strptime` format, which matches `\s+`. */
  function SkipSpaces(s: string): (r: Option<string>)
    ensures r.Some? ==> |r.value| < |s|
  {
    var t := DropLeading(s, IsPyWhitespace);
    if |t| < |s| then Some(t) else None
  }

  /** `%d/%m/%Y`: day, month, year and the text after them. */
  function ReadBrDate(s: string): Option<(int, int, int, string)> {
    var day :- ReadField(s, 2, 1, 31);
    var s1 :- Expect(day.1, '/');
    var month :- ReadField(s1, 2, 1, 12);
    var s2 :- Expect(month.1, '/');
    var year :- ReadYear(s2);
    Some((day.0, month.0, year.0, year.1))
  }

  /** `%H:%M:%S` when `withSeconds`, else `%H:%M` (seconds 0), and the text
      after them. */
  function ReadBrTime(s: string, withSeconds: bool): Option<(int, int, int, string)> {
    var hour :- ReadField(s, 2, 0, 23);
    var s4 :- Expect(hour.1, ':');
    var minute :- ReadField(s4, 2, 0, 59);
    if withSeconds then
      var s5 :- Expect(minute.1, ':');
      var second :- ReadField(s5, 2, 0, 59);
      Some((hour.0, minute.0, second.0, second.1))
    else Some((hour.0, minute.0, 0, minute.1))
  }

  /** `datetime.strptime(s, "%d/%m/%Y %H:%M:%S")` when `withSeconds`, and
      `datetime.strptime(s, "%d/%m/%Y %H:%M")` otherwise; `None` where
      Python raises `ValueError` (no match, unconverted data, or a date or
      time `datetime` refuses, such as 31/02 or second 60). */
  function ParseBrFormat(s: string, withSeconds: bool): (r: Option<Dates.DateTime>)
    ensures r.Some? ==> Dates.ValidDateTime(r.value)
    ensures r.Some? && !withSeconds ==> r.value.second == 0
  {
    var date :- ReadBrDate(s);
    var s3 :- SkipSpaces(date.3);
    var time :- ReadBrTime(s3, withSeconds);
    var t := Dates.DateTime(Dates.Date(date.2, date.1, date.0), time.0, time.1, time.2);
    if time.3 == [] && Dates.ValidDateTime(t) then Some(t) else None
  }

  /** `_parse_br_datetime`: the stripped text read as `DD/MM/YYYY HH:MM:SS`
      or else as `DD/MM/YYYY HH:MM`, written back as `YYYY-MM-DDTHH:MM`
      (seconds dropped); `None` for missing, empty or unreadable input. */
  function ParseBrDatetime(value: Option<string>): (r: Option<string>)
    ensures value.None? || value == Some("") ==> r.None?
    ensures r.Some? ==> |r.value| == 16
    ensures r.Some? ==> Dates.ParseIsoDateTime(r.value).Some? && Dates.ParseIsoDateTime(r.value).value.second == 0
  {
    if value.None? || value.value == "" then None
    else
      var s := Strip(value.value);
      var parsed := match ParseBrFormat(s, true)
        case Some(t) => Some(t)
        case None => ParseBrFormat(s, false);
      match parsed
      case None => None
      case Some(t) =>
        Dates.IsoMinuteRoundTrip(t);
        Some(Dates.IsoMinute(t))
  }

  lemma {:induction false} LeadingDigitsOf(d: string, rest: string)
    requires AllDigits(d)
    requires rest == [] || !IsDigit(rest[0])
    ensures LeadingDigits(d + rest) == d
  {
    if d != [] {
      assert (d + rest)[1..] == d[1..] + rest;
      LeadingDigitsOf(d[1..], rest);
      assert [d[0]] + d[1..] == d;
    } else {
      assert d + rest == rest;
    }
  }

  lemma ReadFieldPad(n: nat, w: nat, rest: string, maxLen: nat, lo: int, hi: int)
    requires 1 <= w <= maxLen && n < Pow10(w) && lo <= n <= hi
    requires rest == [] || !IsDigit(rest[0])
    ensures ReadField(Pad(n, w) + rest, maxLen, lo, hi) == Some((n as int, rest))
  {
    LeadingDigitsOf(Pad(n, w), rest);
    PadValue(n, w);
    assert (Pad(n, w) + rest)[w..] == rest;
  }

  lemma ReadYearPad(n: nat, rest: string)
    requires n < Pow10(4)
    requires rest == [] || !IsDigit(rest[0])
    ensures ReadYear(Pad(n, 4) + rest) == Some((n as int, rest))
  {
    LeadingDigitsOf(Pad(n, 4), rest);
    PadValue(n, 4);
    assert (Pad(n, 4) + rest)[4..] == rest;
  }

  lemma ReadBrDateOf(d: Dates.Date, tail: string)
    requires Dates.ValidDate(d)
    requires tail == [] || !IsDigit(tail[0])
    ensures ReadBrDate(Dates.BrDate(d) + tail) == Some((d.day, d.month, d.year, tail))
  {
    var r4 := Pad(d.year, 4) + tail;
    var r3 := "/" + r4;
    var r2 := Pad(d.month, 2) + r3;
    var r1 := "/" + r2;
    var s := Pad(d.day, 2) + r1;
    assert s == Dates.BrDate(d) + tail;
    ReadFieldPad(d.day, 2, r1, 2, 1, 31);
    assert Expect(r1, '/') == Some(r2) by { assert r1[1..] == r2; }
    ReadFieldPad(d.month, 2, r3, 2, 1, 12);
    assert Expect(r3, '/') == Some(r4) by { assert r3[1..] == r4; }
    ReadYearPad(d.year, tail);
    assert ReadField(s, 2, 1, 31).value == (d.day, r1);
    assert ReadField(r2, 2, 1, 12).value == (d.month, r3);
    assert ReadYear(r4).value == (d.year, tail);
  }

  lemma ReadBrTimeOf(h: nat, m: nat, tail: string, withSeconds: bool)
    requires h < 24 && m < 60
    requires tail == [] || !IsDigit(tail[0])
    requires withSeconds ==> tail == [] || tail[0] != ':'
    ensures ReadBrTime(Pad(h, 2) + ":" + Pad(m, 2) + tail, withSeconds) ==
      if withSeconds then None else Some((h as int, m as int, 0, tail))
  {
    var rest2 := Pad(m, 2) + tail;
    var rest1 := ":" + rest2;
    var s := Pad(h, 2) + rest1;
    Assoc4(Pad(h, 2), ":", Pad(m, 2), tail);
    ReadFieldPad(h, 2, rest1, 2, 0, 23);
    ReadFieldPad(m, 2, tail, 2, 0, 59);
    ReadBrTimeFields(s, rest1, rest2, tail, h, m, withSeconds);
  }

  /** `ReadBrTime` once the hour and the minute fields have been read. */
  lemma ReadBrTimeFields(s: string, rest1: string, rest2: string, tail: string, h: int, m: int, withSeconds: bool)
    requires ReadField(s, 2, 0, 23) == Some((h, rest1)) && rest1 == ":" + rest2
    requires ReadField(rest2, 2, 0, 59) == Some((m, tail))
    requires withSeconds ==> tail == [] || tail[0] != ':'
    ensures ReadBrTime(s, withSeconds) == if withSeconds then None else Some((h, m, 0, tail))
  {
    assert Expect(rest1, ':') == Some(rest2) by { assert rest1[1..] == rest2; }
  }

  lemma Assoc3<T>(a: seq<T>, b: seq<T>, c: seq<T>)
    ensures a + b + c == a + (b + c)
  {
  }

  lemma Assoc4<T>(a: seq<T>, b: seq<T>, c: seq<T>, d: seq<T>)
    ensures a + b + c + d == a + (b + (c + d))
  {
  }

  lemma Assoc5<T>(a: seq<T>, b: seq<T>, c: seq<T>, d: seq<T>, e: seq<T>)
    ensures a + (b + (c + (d + e))) == a + b + c + d + e
  {
  }

  lemma ReadBrTimeSteps(s: string, r1: string, r2: string, r3: string, r4: string, h: int, m: int, sec: int)
    requires ReadField(s, 2, 0, 23) == Some((h, r1))
    requires Expect(r1, ':') == Some(r2)
    requires ReadField(r2, 2, 0, 59) == Some((m, r3))
    requires Expect(r3, ':') == Some(r4)
    requires ReadField(r4, 2, 0, 59) == Some((sec, ""))
    ensures ReadBrTime(s, true) == Some((h, m, sec, ""))
  {
  }

  lemma ReadBrTimeSecondsOf(h: nat, m: nat, sec: nat)
    requires h < 24 && m < 60 && sec < 60
    ensures ReadBrTime(Pad(h, 2) + ":" + Pad(m, 2) + ":" + Pad(sec, 2), true) ==
      Some((h as int, m as int, sec as int, ""))
  {
    var r4 := Pad(sec, 2);
    var r3 := ":" + r4;
    var r2 := Pad(m, 2) + r3;
    var r1 := ":" + r2;
    var s := Pad(h, 2) + r1;
    Assoc5(Pad(h, 2), ":", Pad(m, 2), ":", Pad(sec, 2));
    ReadFieldPad(h, 2, r1, 2, 0, 23);
    assert Expect(r1, ':') == Some(r2) by { assert r1[1..] == r2; }
    ReadFieldPad(m, 2, r3, 2, 0, 59);
    assert Expect(r3, ':') == Some(r4) by { assert r3[1..] == r4; }
    ReadFieldPad(sec, 2, "", 2, 0, 59);
    assert r4 + "" == r4;
    ReadBrTimeSteps(s, r1, r2, r3, r4, h, m, sec);
  }

  lemma StripDigitEnds(s: string)
    requires s != [] && IsDigit(s[0]) && IsDigit(s[|s| - 1])
    ensures Strip(s) == s
  {
  }

  lemma DigitHead(a: string, b: string)
    requires a != [] && AllDigits(a)
    ensures IsDigit((a + b)[0])
  {
  }

  lemma SkipOneSpace(time: string)
    requires time != [] && IsDigit(time[0])
    ensures SkipSpaces(" " + time) == Some(time)
  {
    assert !IsPyWhitespace(time[0]);
    LeadingSpaceDropped(time);
  }

  lemma LeadingSpaceDropped(t: string)
    requires t != [] && !IsPyWhitespace(t[0])
    ensures DropLeading(" " + t, IsPyWhitespace) == t
  {
    assert (" " + t)[0] == ' ';
    assert (" " + t)[1..] == t;
  }

  /** One `strptime` attempt, given what its fields read. */
  lemma ParseBrFormatSteps(s: string, withSeconds: bool, d: Dates.Date, rest: string, time: string, tm: (int, int, int, string))
    requires ReadBrDate(s) == Some((d.day, d.month, d.year, rest))
    requires SkipSpaces(rest) == Some(time)
    requires ReadBrTime(time, withSeconds) == Some(tm)
    ensures ParseBrFormat(s, withSeconds) ==
      var t := Dates.DateTime(d, tm.0, tm.1, tm.2);
      if tm.3 == [] && Dates.ValidDateTime(t) then Some(t) else None
  {
  }

  lemma ParseBrFormatFails(s: string, d: Dates.Date, rest: string, time: string)
    requires ReadBrDate(s) == Some((d.day, d.month, d.year, rest))
    requires SkipSpaces(rest) == Some(time)
    requires ReadBrTime(time, true) == None
    ensures ParseBrFormat(s, true) == None
  {
  }

  /** `_parse_br_datetime` on stripped text, given the two attempts. */
  lemma ParseBrDatetimeOf(s: string, first: Option<Dates.DateTime>, second: Option<Dates.DateTime>)
    requires Strip(s) == s && s != []
    requires ParseBrFormat(s, true) == first
    requires ParseBrFormat(s, false) == second
    ensures ParseBrDatetime(Some(s)) ==
      if first.Some? then Some(Dates.IsoMinute(first.value))
      else if second.Some? then Some(Dates.IsoMinute(second.value))
      else None
  {
  }

  /** How `DD/MM/YYYY HH:MM[:SS]` text is put together. */
  lemma BrShape(t: Dates.DateTime, tail: string) returns (date: string, time: string)
    requires Dates.ValidDateTime(t)
    requires tail == [] || IsDigit(tail[|tail| - 1])
    ensures date == Dates.BrDate(t.date)
    ensures time == Pad(t.hour, 2) + ":" + Pad(t.minute, 2) + tail
    ensures Dates.BrDateTime(t) + tail == date + (" " + time)
    ensures IsDigit(time[0])
    ensures var s := date + (" " + time); s != [] && IsDigit(s[0]) && IsDigit(s[|s| - 1])
  {
    date := Dates.BrDate(t.date);
    var hh := Pad(t.hour, 2);
    var mm := Pad(t.minute, 2);
    time := hh + ":" + mm + tail;
    DigitHead(hh, ":" + mm + tail);
    assert time == hh + (":" + mm + tail);
    var s := date + (" " + time);
    assert s[0] == date[0];
    assert s[|s| - 1] == (if tail == [] then mm[1] else tail[|tail| - 1]);
  }

  /** A date-time written as `DD/MM/YYYY HH:MM` reads back as the same
      minute. */
  lemma ParseBrRoundTrip(t: Dates.DateTime)
    requires Dates.ValidDateTime(t)
    ensures ParseBrDatetime(Some(Dates.BrDateTime(t))) == Some(Dates.IsoMinute(t))
  {
    var date, time := BrShape(t, "");
    var s := date + (" " + time);
    StripDigitEnds(s);
    ReadBrDateOf(t.date, " " + time);
    SkipOneSpace(time);
    ReadBrTimeOf(t.hour, t.minute, "", true);
    ReadBrTimeOf(t.hour, t.minute, "", false);
    ParseBrFormatFails(s, t.date, " " + time, time);
    ParseBrFormatSteps(s, false, t.date, " " + time, time, (t.hour, t.minute, 0, ""));
    ParseBrDatetimeOf(s, None, Some(t.(second := 0)));
  }

  /** With seconds, the first format applies and the seconds are dropped. */
  lemma ParseBrSecondsRoundTrip(t: Dates.DateTime)
    requires Dates.ValidDateTime(t)
    ensures ParseBrDatetime(Some(Dates.BrDateTime(t) + ":" + Pad(t.second, 2))) == Some(Dates.IsoMinute(t))
  {
    var ss := Pad(t.second, 2);
    var date, time := BrShape(t, ":" + ss);
    var s := date + (" " + time);
    Assoc3(Dates.BrDateTime(t), ":", ss);
    StripDigitEnds(s);
    ReadBrDateOf(t.date, " " + time);
    SkipOneSpace(time);
    ReadBrTimeSecondsOf(t.hour, t.minute, t.second);
    Assoc3(Pad(t.hour, 2) + ":" + Pad(t.minute, 2), ":", ss);
    ParseBrFormatSteps(s, true, t.date, " " + time, time, (t.hour, t.minute, t.second, ""));
    ParseBrDatetimeOf(s, Some(t), ParseBrFormat(s, false));
  }

  lemma MonthFirstFields()
    ensures ReadField("12/25/2024 14:30", 2, 1, 31) == Some((12, "/25/2024 14:30"))
    ensures Expect("/25/2024 14:30", '/') == Some("25/2024 14:30")
    ensures ReadField("25/2024 14:30", 2, 1, 12) == None
  {
    DayField();
    MonthField();
  }

  lemma DayField()
    ensures ReadField("12/25/2024 14:30", 2, 1, 31) == Some((12, "/25/2024 14:30"))
  {
    assert NatValue("12") == 12 by { assert "12"[..1] == "1"; }
    LeadingDigitsOf("12", "/25/2024 14:30");
    assert "12" + "/25/2024 14:30" == "12/25/2024 14:30";
  }

  lemma MonthField()
    ensures ReadField("25/2024 14:30", 2, 1, 12) == None
  {
    assert NatValue("25") == 25 by { assert "25"[..1] == "2"; }
    LeadingDigitsOf("25", "/2024 14:30");
    assert "25" + "/2024 14:30" == "25/2024 14:30";
  }

  /** Month-first text is refused rather than read with a default: there is
      no month 25. */
  lemma ParseBrRejectsMonthFirst()
    ensures ParseBrDatetime(Some("12/25/2024 14:30")) == None
  {
    MonthFirstFields();
    StripDigitEnds("12/25/2024 14:30");
  }

  /* ---------------------------------------------------------------------- */
  /* parse_debito_recurso and _map_orgao                                     */
  /* ---------------------------------------------------------------------- */

  /** What the regular expressions of `parse_debito_recurso` find in the
      "DÉBITO DO RECURSO" block: whether CCHSA, CAVN and PROJETO are marked
      with `(x)`, the text captured after a marked `Outros:`, and the text
      captured after any `Outros:`. */
  datatype DebitoMarkers = DebitoMarkers(
    cchsa: bool,
    cavn: bool,
    projeto: bool,
    markedOutros: Option<string>,
    outros: Option<string>)

  /** `parse_debito_recurso`: the first marked option in the fixed order
      CCHSA, CAVN, PROJETO, marked "Outros", then an unmarked "Outros" with
      a non-blank detail. */
  function ParseDebitoRecurso(m: DebitoMarkers): (r: Option<string>)
    ensures m.cchsa ==> r == Some("CCHSA")
    ensures !m.cchsa && m.cavn ==> r == Some("CAVN")
    ensures !m.cchsa && !m.cavn && m.projeto ==> r == Some("PROJETO")
    ensures !m.cchsa && !m.cavn && !m.projeto && m.markedOutros.Some? ==>
      r == Some(if Strip(m.markedOutros.value) == "" then "OUTROS" else "OUTROS: " + Strip(m.markedOutros.value))
    ensures !m.cchsa && !m.cavn && !m.projeto && m.markedOutros.None? && m.outros.Some? && Strip(m.outros.value) != "" ==>
      r == Some("OUTROS: " + Strip(m.outros.value))
    ensures r.None? <==>
      !m.cchsa && !m.cavn && !m.projeto && m.markedOutros.None? && (m.outros.None? || Strip(m.outros.value) == "")
  {
    if m.cchsa then Some("CCHSA")
    else if m.cavn then Some("CAVN")
    else if m.projeto then Some("PROJETO")
    else if m.markedOutros.Some? then
      var val := Strip(m.markedOutros.value);
      if val != "" then Some("OUTROS: " + val) else Some("OUTROS")
    else if m.outros.Some? && Strip(m.outros.value) != "" then
      Some("OUTROS: " + Strip(m.outros.value))
    else None
  }

  /** The funding body of a trip, as `_map_orgao` reports it. */
  datatype Orgao = NoOrgao | Cchsa | Cavn | Projetos | Outros(detalhe: Option<string>) {

    /** The value stored under `"tipo"`. */
    function Tipo(): string
      requires !NoOrgao?
    {
      match this
      case Cchsa => "cchsa"
      case Cavn => "cavn"
      case Projetos => "projetos"
      case Outros(_) => "outros"
    }
  }

  /** The option a funding line names, by its prefix. */
  datatype Prefix = CchsaPrefix | CavnPrefix | ProjetoPrefix | OutrosPrefix | NoPrefix

  /** The prefix tests of `_map_orgao`, in its order, on upper-cased text. */
  function PrefixOf(deb: string): Prefix {
    if StartsWith(deb, "CCHSA") then CchsaPrefix
    else if StartsWith(deb, "CAVN") then CavnPrefix
    else if StartsWith(deb, "PROJETO") then ProjetoPrefix
    else if StartsWith(deb, "OUTROS") then OutrosPrefix
    else NoPrefix
  }

  /** The text is present and its upper-cased form starts with `prefix`. */
  predicate Names(debito: Option<string>, prefix: string) {
    debito.Some? && StartsWith(Upper(debito.value), prefix)
  }

  /** No text starts with two of the four prefixes: they differ in their
      first or second letter. */
  lemma PrefixesExclusive(deb: string)
    ensures StartsWith(deb, "CCHSA") ==> PrefixOf(deb) == CchsaPrefix
    ensures StartsWith(deb, "CAVN") ==> PrefixOf(deb) == CavnPrefix
    ensures StartsWith(deb, "PROJETO") ==> PrefixOf(deb) == ProjetoPrefix
    ensures StartsWith(deb, "OUTROS") ==> PrefixOf(deb) == OutrosPrefix
  {
    if StartsWith(deb, "CAVN") {
      assert deb[1] == "CAVN"[1];
    }
    if StartsWith(deb, "PROJETO") {
      assert deb[0] == "PROJETO"[0];
    }
    if StartsWith(deb, "OUTROS") {
      assert deb[0] == "OUTROS"[0];
    }
  }


  /** The detail of an Outros line: the stripped text after the first
      colon, kept only when non-empty. */
  function OutrosDetail(d: string): (r: Option<string>)
    ensures r.Some? ==> r.value != "" && Strip(r.value) == r.value && ':' in d
  {
    var after := AfterFirst(d, ':');
    var detalhe := if after.Some? then Strip(after.value) else "";
    if detalhe != "" then Some(detalhe) else None
  }

  /** `_map_orgao`: classify by a case-insensitive prefix, tried in the
      order CCHSA, CAVN, PROJETO, OUTROS; for OUTROS the detail is the
      stripped text after the first colon, kept only when non-empty. */
  function MapOrgao(debito: Option<string>): (r: Orgao)
    ensures debito.None? || debito == Some("") ==> r == NoOrgao
    ensures r.Cchsa? <==> Names(debito, "CCHSA")
    ensures r.Cavn? <==> Names(debito, "CAVN")
    ensures r.Projetos? <==> Names(debito, "PROJETO")
    ensures r.Outros? <==> Names(debito, "OUTROS")
    ensures r.NoOrgao? <==>
      !Names(debito, "CCHSA") && !Names(debito, "CAVN") && !Names(debito, "PROJETO") && !Names(debito, "OUTROS")
    ensures r.Outros? ==> r.detalhe == OutrosDetail(debito.value)
    ensures r.Outros? && r.detalhe.Some? ==>
      r.detalhe.value != "" && Strip(r.detalhe.value) == r.detalhe.value && ':' in debito.value
  {
    if debito.None? || debito.value == "" then NoOrgao
    else
      PrefixesExclusive(Upper(debito.value));
      match PrefixOf(Upper(debito.value))
      case CchsaPrefix => Cchsa
      case CavnPrefix => Cavn
      case ProjetoPrefix => Projetos
      case OutrosPrefix => Outros(OutrosDetail(debito.value))
      case NoPrefix => NoOrgao
  }

  /** The dict `_map_orgao` returns. */
  function OrgaoJson(o: Orgao): (r: Value)
    ensures r.Obj? && DistinctKeys(r.members)
    ensures o.NoOrgao? <==> r == Obj([])
  {
    match o
    case NoOrgao => Obj([])
    case Outros(d) => Obj([Member("tipo", Str("outros")), Member("detalhe", OptStr(d))])
    case _ => Obj([Member("tipo", Str(o.Tipo()))])
  }

  /** The classification only looks at the letters' case-folded form. */
  lemma MapOrgaoCaseInsensitive(d: string)
    ensures MapOrgao(Some(Upper(d))).NoOrgao? == MapOrgao(Some(d)).NoOrgao?
    ensures !MapOrgao(Some(d)).NoOrgao? ==> MapOrgao(Some(Upper(d))).Tipo() == MapOrgao(Some(d)).Tipo()
  {
    UpperIdempotent(d);
    assert |Upper(d)| == |d|;
  }

  /** The órgão a set of markers designates, by the same priority. */
  function MarkedOrgao(m: DebitoMarkers): Orgao {
    if m.cchsa then Cchsa
    else if m.cavn then Cavn
    else if m.projeto then Projetos
    else if m.markedOutros.Some? then
      Outros(if Strip(m.markedOutros.value) == "" then None else Some(Strip(m.markedOutros.value)))
    else if m.outros.Some? && Strip(m.outros.value) != "" then Outros(Some(Strip(m.outros.value)))
    else NoOrgao
  }

  /** Text whose upper-cased form starts with OUTROS is classified by its
      detail alone. */
  lemma MapOrgaoOutrosOf(d: string)
    requires |d| >= 6 && Upper(d)[..6] == "OUTROS"
    ensures MapOrgao(Some(d)) == Outros(OutrosDetail(d))
  {
    OutrosPrefixOf(Upper(d));
  }

  /** A text starting with OUTROS matches none of the earlier prefixes. */
  lemma OutrosPrefixOf(deb: string)
    requires |deb| >= 6 && deb[..6] == "OUTROS"
    ensures PrefixOf(deb) == OutrosPrefix
  {
    assert deb[0] == 'O';
  }

  /** A text without lower-case letters is its own upper-cased form. */
  lemma UpperNoLower(s: string)
    requires forall i :: 0 <= i < |s| ==> !('a' <= s[i] <= 'z')
    ensures Upper(s) == s
  {
  }

  /** The first six letters of a text that begins with OUTROS are already
      upper case. */
  lemma UpperOutros(d: string)
    requires |d| >= 6 && d[..6] == "OUTROS"
    ensures Upper(d)[..6] == "OUTROS"
  {
    var head := d[..6];
    assert d == head + d[6..];
    UpperAppend(head, d[6..]);
    UpperNoLower(head);
  }

  lemma AfterOutros(val: string)
    ensures AfterFirst("OUTROS: " + val, ':') == Some(" " + val)
  {
    var x := "OUTROS";
    assert ':' !in x;
    assert "OUTROS: " + val == x + [':'] + (" " + val);
    AfterFirstAppend(x, ':', " " + val);
  }

  lemma MapOrgaoOutrosDetail(val: string)
    requires val != "" && Strip(val) == val
    ensures MapOrgao(Some("OUTROS: " + val)) == Outros(Some(val))
  {
    var d := "OUTROS: " + val;
    assert d[..6] == "OUTROS";
    UpperOutros(d);
    MapOrgaoOutrosOf(d);
    AfterOutros(val);
    StripLeadingSpace(val);
  }

  lemma MapOrgaoOutrosBare()
    ensures MapOrgao(Some("OUTROS")) == Outros(None)
  {
    var d := "OUTROS";
    assert d[..6] == "OUTROS";
    UpperOutros(d);
    MapOrgaoOutrosOf(d);
    OutrosHasNoColon(d);
  }

  lemma OutrosHasNoColon(d: string)
    requires d == "OUTROS"
    ensures ':' !in d
  {
    assert forall i | 0 <= i < |d| :: d[i] in "OUTRS";
  }

  /** The string `parse_debito_recurso` writes is read back by `_map_orgao`
      as the órgão the markers designate, detail included. */
  lemma DebitoRoundTrip(m: DebitoMarkers)
    ensures MapOrgao(ParseDebitoRecurso(m)) == MarkedOrgao(m)
  {
    if !m.cchsa && !m.cavn && !m.projeto {
      if m.markedOutros.Some? {
        var val := Strip(m.markedOutros.value);
        if val != "" {
          MapOrgaoOutrosDetail(val);
        } else {
          MapOrgaoOutrosBare();
        }
      } else if m.outros.Some? && Strip(m.outros.value) != "" {
        MapOrgaoOutrosDetail(Strip(m.outros.value));
      }
    }
  }

  /* ---------------------------------------------------------------------- */
  /* build_anexo2_prefill                                                    */
  /* ---------------------------------------------------------------------- */

  predicate IsHash(c: char) {
    c == '#'
  }

  /** The pattern `\s*#+\s*` matched against the whole of `t`, left to
      right: white space, then at least one `#`, then white space. `phase`
      is 0 before the first `#`, 1 inside the run of `#` and 2 in the white
      space after it. */
  predicate HashPattern(t: string, phase: nat)
    decreases |t|
  {
    if t == [] then phase >= 1
    else if IsPyWhitespace(t[0]) then HashPattern(t[1..], if phase == 0 then 0 else 2)
    else if IsHash(t[0]) then phase <= 1 && HashPattern(t[1..], 1)
    else false
  }

  /** `r"\s*#+\s*$"` matches the text from position `k` on. Since `\s*`
      also takes a final newline, a match that `$` lets end before that
      newline can always be extended to the end, so the positions where a
      match starts are exactly these. */
  predicate HashTailAt(s: string, k: int) {
    0 <= k <= |s| && HashPattern(s[k..], 0)
  }

  /** `k` is where `re.sub` finds the pattern: its leftmost match. */
  predicate FirstHashTail(s: string, k: int) {
    HashTailAt(s, k) && forall j :: 0 <= j < k ==> !HashTailAt(s, j)
  }

  /** The pattern matches nowhere, so `re.sub` leaves the text alone. */
  predicate NoHashTail(s: string) {
    forall k :: 0 <= k <= |s| ==> !HashTailAt(s, k)
  }

  /** `re.sub(r"\s*#+\s*$", "", s).strip()`. */
  function StripTrailingHashes(s: string): (r: string)
    ensures NoHashTail(s) ==> r == Strip(s)
    ensures forall k :: FirstHashTail(s, k) ==> r == Strip(s[..k])
    ensures r == [] || (!IsPyWhitespace(r[0]) && !IsPyWhitespace(r[|r| - 1]))
    ensures |r| <= |s|
  {
    Strip(SubHashTail(s))
  }

  /** `re.sub(r"\s*#+\s*$", "", s)`: the leftmost match is cut off, and
      with no match the text is left alone. The match exists exactly when
      the text, without its trailing white space, ends in `#`, and it starts
      at the white space before that last run of `#`. */
  function SubHashTail(s: string): (r: string)
    ensures NoHashTail(s) ==> r == s
    ensures forall k :: FirstHashTail(s, k) ==> r == s[..k]
    ensures |r| <= |s|
  {
    HashTailFacts(s);
    match HashCut(s)
    case None => s
    case Some(k) => s[..k]
  }

  /** Where `re.sub` cuts: before the white space that precedes the trailing
      run of `#` of the right-stripped text, if it ends in `#` at all. */
  function HashCut(s: string): Option<nat> {
    var x := RStrip(s);
    var y := DropTrailing(x, IsHash);
    if |y| == |x| then None else Some(|RStrip(y)|)
  }

  /** Where the pattern matches: nowhere when the right-stripped text does
      not end in `#`, and otherwise first at the white space before its
      trailing run of `#`. */
  lemma HashTailFacts(s: string)
    ensures HashCut(s).None? ==> NoHashTail(s)
    ensures HashCut(s).Some? ==> FirstHashTail(s, HashCut(s).value) && !NoHashTail(s)
    ensures HashCut(s).Some? ==> forall k :: FirstHashTail(s, k) ==> k == HashCut(s).value
  {
    var x := RStrip(s);
    var y := DropTrailing(x, IsHash);
    if |y| == |x| {
      NoHashTailFound(s, x);
    } else {
      HashTailFound(s, x, y);
    }
  }

  lemma NoHashTailFound(s: string, x: string)
    requires x == RStrip(s) && (x == [] || !IsHash(x[|x| - 1]))
    ensures NoHashTail(s)
  {
    forall j | 0 <= j <= |s| ensures !HashTailAt(s, j) {
      if j < |x| {
        assert s[j..][|x| - 1 - j] == x[|x| - 1];
        BadCharRejected(s[j..], |x| - 1 - j, 0);
      } else {
        WhiteRejected(s[j..]);
      }
    }
  }

  lemma HashTailFound(s: string, x: string, y: string)
    requires x == RStrip(s) && y == DropTrailing(x, IsHash) && |y| < |x|
    ensures FirstHashTail(s, |RStrip(y)|)
  {
    var k := |RStrip(y)|;
    forall i | k <= i < |y| ensures IsPyWhitespace(s[i]) {
      assert s[i] == y[i];
    }
    forall i | |y| <= i < |x| ensures IsHash(s[i]) {
      assert s[i] == x[i];
    }
    HashTailMatches(s, k, |y|, |x|);
    forall j | 0 <= j < k ensures !HashTailAt(s, j) {
      EarlierRejected(s, x, y, k, j);
    }
  }

  lemma EarlierRejected(s: string, x: string, y: string, k: nat, j: nat)
    requires x == RStrip(s) && y == DropTrailing(x, IsHash) && |y| < |x|
    requires k == |RStrip(y)| && j < k
    ensures !HashTailAt(s, j)
  {
    var t := s[j..];
    assert t[k - 1 - j] == y[k - 1];
    if !IsHash(y[k - 1]) {
      BadCharRejected(t, k - 1 - j, 0);
    } else {
      assert k < |y|;
      assert t[k - j] == y[k] && t[|y| - j] == x[|y|];
      HashGapHashRejected(t, k - 1 - j, k - j, |y| - j, 0);
    }
  }

  /** White space from `k` to `m`, a run of `#` from `m` to `n` and white
      space to the end: the pattern matches from `k`. */
  lemma HashTailMatches(s: string, k: nat, m: nat, n: nat)
    requires k <= m < n <= |s|
    requires forall i :: k <= i < m ==> IsPyWhitespace(s[i])
    requires forall i :: m <= i < n ==> IsHash(s[i])
    requires forall i :: n <= i < |s| ==> IsPyWhitespace(s[i])
    ensures HashTailAt(s, k)
  {
    var w, h, t := s[k..m], s[m..n], s[n..];
    assert s[k..] == w + (h + t);
    WhiteSkipped(w, h + t);
    HashesSkipped(h, t, 0);
    WhiteAccepted(t, 1);
  }

  lemma {:induction false} WhiteSkipped(w: string, rest: string)
    requires forall i :: 0 <= i < |w| ==> IsPyWhitespace(w[i])
    ensures HashPattern(w + rest, 0) == HashPattern(rest, 0)
    decreases |w|
  {
    if w != [] {
      assert (w + rest)[1..] == w[1..] + rest;
      WhiteSkipped(w[1..], rest);
    } else {
      assert w + rest == rest;
    }
  }

  lemma {:induction false} HashesSkipped(h: string, rest: string, phase: nat)
    requires h != [] && phase <= 1
    requires forall i :: 0 <= i < |h| ==> IsHash(h[i])
    ensures HashPattern(h + rest, phase) == HashPattern(rest, 1)
    decreases |h|
  {
    assert (h + rest)[0] == '#';
    assert (h + rest)[1..] == h[1..] + rest;
    if |h| > 1 {
      HashesSkipped(h[1..], rest, 1);
    } else {
      assert h[1..] + rest == rest;
    }
  }

  lemma {:induction false} WhiteAccepted(t: string, phase: nat)
    requires phase >= 1
    requires forall i :: 0 <= i < |t| ==> IsPyWhitespace(t[i])
    ensures HashPattern(t, phase)
    decreases |t|
  {
    if t != [] {
      WhiteAccepted(t[1..], 2);
    }
  }

  /** White space alone holds no `#`. */
  lemma {:induction false} WhiteRejected(t: string)
    requires forall i :: 0 <= i < |t| ==> IsPyWhitespace(t[i])
    ensures !HashPattern(t, 0)
    decreases |t|
  {
    if t != [] {
      WhiteRejected(t[1..]);
    }
  }

  /** A character that is neither white space nor `#` rules a match out. */
  lemma {:induction false} BadCharRejected(t: string, i: nat, phase: nat)
    requires i < |t| && !IsPyWhitespace(t[i]) && !IsHash(t[i])
    ensures !HashPattern(t, phase)
    decreases i
  {
    if i > 0 {
      BadCharRejected(t[1..], i - 1, if IsPyWhitespace(t[0]) then (if phase == 0 then 0 else 2) else 1);
    }
  }

  /** So does a `#` that comes after white space that comes after a `#`. */
  lemma {:induction false} HashGapHashRejected(t: string, i1: nat, i2: nat, i3: nat, phase: nat)
    requires i1 < i2 < i3 < |t| && IsHash(t[i1]) && IsPyWhitespace(t[i2]) && IsHash(t[i3])
    ensures !HashPattern(t, phase)
    decreases i1
  {
    if i1 > 0 {
      HashGapHashRejected(t[1..], i1 - 1, i2 - 1, i3 - 1, if IsPyWhitespace(t[0]) then (if phase == 0 then 0 else 2) else 1);
    } else {
      GapHashRejected(t[1..], i2 - 1, i3 - 1, 1);
    }
  }

  lemma {:induction false} GapHashRejected(t: string, i2: nat, i3: nat, phase: nat)
    requires phase >= 1
    requires i2 < i3 < |t| && IsPyWhitespace(t[i2]) && IsHash(t[i3])
    ensures !HashPattern(t, phase)
    decreases i2
  {
    if i2 > 0 {
      GapHashRejected(t[1..], i2 - 1, i3 - 1, if IsPyWhitespace(t[0]) then 2 else 1);
    } else {
      LateHashRejected(t[1..], i3 - 1);
    }
  }

  lemma {:induction false} LateHashRejected(t: string, i3: nat)
    requires i3 < |t| && IsHash(t[i3])
    ensures !HashPattern(t, 2)
    decreases i3
  {
    if i3 > 0 && IsPyWhitespace(t[0]) {
      LateHashRejected(t[1..], i3 - 1);
    }
  }

  /** One itinerary leg as the extractor reports it. */
  datatype Leg = Leg(origem: Option<string>, destino: Option<string>, dataHora: Option<string>)

  /** The fields of an Anexo I that `parse_doc_to_json` extracts and the
      prefill reads: the requester's name, CPF and SIAPE, the travel
      purpose, the two legs, the mission window and the funding line. A
      field the document does not show is `None`. */
  datatype ParsedDocument = ParsedDocument(
    nome: Option<string>,
    cpf: Option<string>,
    siape: Option<string>,
    motivo: Option<string>,
    ida: Leg,
    retorno: Leg,
    inicio: Option<string>,
    termino: Option<string>,
    debito: Option<string>)

  /** Python's `a or b` on two optional strings. */
  function OrElse(a: Option<string>, b: Option<string>): (r: Option<string>)
    ensures a.Some? && a.value != "" ==> r == a
    ensures !(a.Some? && a.value != "") ==> r == b
  {
    if a.Some? && a.value != "" then a else b
  }

  /** The outbound date-time: the leg's own, or else the mission start. */
  function IdaDataHora(p: ParsedDocument): Option<string> {
    OrElse(ParseBrDatetime(p.ida.dataHora), ParseBrDatetime(p.inicio))
  }

  /** The return date-time: the leg's own, or else the mission end. */
  function RetornoDataHora(p: ParsedDocument): Option<string> {
    OrElse(ParseBrDatetime(p.retorno.dataHora), ParseBrDatetime(p.termino))
  }

  function Atividades(p: ParsedDocument): Option<string> {
    if p.motivo.Some? then Some(StripTrailingHashes(p.motivo.value)) else None
  }

  function LegJson(l: Leg, dataHora: Option<string>): Value {
    Obj([Member("origem", OptStr(l.origem)), Member("destino", OptStr(l.destino)), Member("data_hora", OptStr(dataHora))])
  }

  /** The values `build_anexo2_prefill` writes into its dict: the name as
      read, CPF and SIAPE as digits, the classified funding line, both legs
      with their date-times after the fallback, and the purpose without its
      trailing `#` run. */
  datatype PrefillFields = PrefillFields(
    nome: Option<string>,
    cpf: Option<string>,
    siape: Option<string>,
    orgao: Orgao,
    ida: Leg,
    idaDataHora: Option<string>,
    retorno: Leg,
    retornoDataHora: Option<string>,
    atividades: Option<string>)

  function FieldsOf(p: ParsedDocument): PrefillFields {
    PrefillFields(p.nome, OnlyDigits(p.cpf), OnlyDigits(p.siape), MapOrgao(p.debito),
                  p.ida, IdaDataHora(p), p.retorno, RetornoDataHora(p), Atividades(p))
  }

  /** The leg a direction key names, and its date-time. */
  function LegOf(f: PrefillFields, leg: string): Leg {
    if leg == "ida" then f.ida else f.retorno
  }

  function DataHoraOf(f: PrefillFields, leg: string): Option<string> {
    if leg == "ida" then f.idaDataHora else f.retornoDataHora
  }

  function PropostoJson(f: PrefillFields): Value {
    Obj([
      Member("nome", OptStr(f.nome)),
      Member("cpf", OptStr(f.cpf)),
      Member("siape", OptStr(f.siape)),
      Member("orgao", OrgaoJson(f.orgao))])
  }

  function AfastamentoJson(f: PrefillFields): Value {
    Obj([Member("ida", LegJson(f.ida, f.idaDataHora)), Member("retorno", LegJson(f.retorno, f.retornoDataHora))])
  }

  /** The dict `build_anexo2_prefill` assembles before cleaning it. */
  function PrefillTree(f: PrefillFields): Value {
    Obj([
      Member("proposto", PropostoJson(f)),
      Member("afastamento", AfastamentoJson(f)),
      Member("atividades_desenvolvidas", OptStr(f.atividades)),
      Member("viagem_realizada", Str("sim"))])
  }

  /** A text field as it survives `clean`: present only when non-empty. */
  function Present(o: Option<string>): (r: Option<Value>)
    ensures r.Some? <==> o.Some? && o.value != ""
  {
    if o.Some? && o.value != "" then Some(Str(o.value)) else None
  }

  /** `build_anexo2_prefill`. */
  function BuildPrefill(p: ParsedDocument): (r: Value)
    ensures r.Obj? && Pruned(r)
  {
    Clean(PrefillTree(FieldsOf(p)))
  }

  lemma LegDistinct(l: Leg, d: Option<string>)
    ensures DeepDistinct(LegJson(l, d))
  {
  }

  lemma OrgaoDistinct(o: Orgao)
    ensures DeepDistinct(OrgaoJson(o))
  {
  }

  lemma PrefillTreeDistinct(f: PrefillFields)
    ensures DeepDistinct(PrefillTree(f))
  {
    OrgaoDistinct(f.orgao);
    assert DeepDistinct(PropostoJson(f));
    LegDistinct(f.ida, f.idaDataHora);
    LegDistinct(f.retorno, f.retornoDataHora);
    assert DeepDistinct(AfastamentoJson(f));
  }

  /** A leaf holding an optional string survives cleaning exactly when it
      is non-empty. */
  lemma CleanLeaf(v: Value, path: seq<string>, o: Option<string>)
    requires |path| >= 1 && DeepDistinct(v)
    requires At(v, path) == Some(OptStr(o))
    ensures At(Clean(v), path) == Present(o)
  {
    CleanAt(v, path);
  }

  lemma PropostoAt(f: PrefillFields, k: string)
    ensures At(PrefillTree(f), ["proposto", k]) == Lookup(PropostoJson(f).members, k)
  {
    var t := PrefillTree(f);
    PrefillTreeDistinct(f);
    LookupMember(t.members, 0);
    assert ["proposto", k][1..] == [k];
    assert At(t, ["proposto", k]) == At(PropostoJson(f), [k]);
    AtKey(PropostoJson(f), k);
  }

  lemma AfastamentoAt(f: PrefillFields, leg: string, k: string)
    ensures At(PrefillTree(f), ["afastamento", leg, k]) == At(AfastamentoJson(f), [leg, k])
  {
    var t := PrefillTree(f);
    PrefillTreeDistinct(f);
    LookupMember(t.members, 1);
    assert ["afastamento", leg, k][1..] == [leg, k];
  }

  lemma LegAt(l: Leg, d: Option<string>, k: string)
    ensures At(LegJson(l, d), [k]) == Lookup(LegJson(l, d).members, k)
  {
  }

  lemma TreeTop(f: PrefillFields)
    ensures At(Clean(PrefillTree(f)), ["viagem_realizada"]) == Some(Str("sim"))
    ensures At(Clean(PrefillTree(f)), ["atividades_desenvolvidas"]) == Present(f.atividades)
  {
    TreeMarked(f);
    TreeActivities(f);
  }

  lemma TreeMarked(f: PrefillFields)
    ensures At(Clean(PrefillTree(f)), ["viagem_realizada"]) == Some(Str("sim"))
  {
    var t := PrefillTree(f);
    PrefillTreeDistinct(f);
    LookupMember(t.members, 3);
    CleanAt(t, ["viagem_realizada"]);
  }

  lemma TreeActivities(f: PrefillFields)
    ensures At(Clean(PrefillTree(f)), ["atividades_desenvolvidas"]) == Present(f.atividades)
  {
    var t := PrefillTree(f);
    PrefillTreeDistinct(f);
    LookupMember(t.members, 2);
    CleanLeaf(t, ["atividades_desenvolvidas"], f.atividades);
  }

  /** The report is always marked as a trip that took place, and the
      activities text is the purpose with its trailing `#` run removed. */
  lemma PrefillTop(p: ParsedDocument)
    ensures At(BuildPrefill(p), ["viagem_realizada"]) == Some(Str("sim"))
    ensures At(BuildPrefill(p), ["atividades_desenvolvidas"]) == Present(Atividades(p))
  {
    TreeTop(FieldsOf(p));
  }

  lemma TreeProposto(f: PrefillFields)
    ensures At(Clean(PrefillTree(f)), ["proposto", "nome"]) == Present(f.nome)
    ensures At(Clean(PrefillTree(f)), ["proposto", "cpf"]) == Present(f.cpf)
    ensures At(Clean(PrefillTree(f)), ["proposto", "siape"]) == Present(f.siape)
  {
    var t := PrefillTree(f);
    PrefillTreeDistinct(f);
    var m := PropostoJson(f).members;
    assert DistinctKeys(m);
    LookupMember(m, 0);
    LookupMember(m, 1);
    LookupMember(m, 2);
    PropostoAt(f, "nome");
    CleanLeaf(t, ["proposto", "nome"], f.nome);
    PropostoAt(f, "cpf");
    CleanLeaf(t, ["proposto", "cpf"], f.cpf);
    PropostoAt(f, "siape");
    CleanLeaf(t, ["proposto", "siape"], f.siape);
  }

  /** The requester's fields: the name as read, CPF and SIAPE as digits
      only, each absent when empty. */
  lemma PrefillProposto(p: ParsedDocument)
    ensures At(BuildPrefill(p), ["proposto", "nome"]) == Present(p.nome)
    ensures At(BuildPrefill(p), ["proposto", "cpf"]) == Present(OnlyDigits(p.cpf))
    ensures At(BuildPrefill(p), ["proposto", "siape"]) == Present(OnlyDigits(p.siape))
  {
    TreeProposto(FieldsOf(p));
  }

  lemma TreeLegField(f: PrefillFields, leg: string, k: string, o: Option<string>)
    requires leg == "ida" || leg == "retorno"
    requires Lookup(LegJson(LegOf(f, leg), DataHoraOf(f, leg)).members, k) == Some(OptStr(o))
    ensures At(Clean(PrefillTree(f)), ["afastamento", leg, k]) == Present(o)
  {
    var t := PrefillTree(f);
    var l := LegOf(f, leg);
    var d := DataHoraOf(f, leg);
    PrefillTreeDistinct(f);
    LookupMember(AfastamentoJson(f).members, if leg == "ida" then 0 else 1);
    assert [leg, k][1..] == [k];
    assert At(AfastamentoJson(f), [leg, k]) == At(LegJson(l, d), [k]);
    AfastamentoAt(f, leg, k);
    LegAt(l, d, k);
    CleanLeaf(t, ["afastamento", leg, k], o);
  }

  lemma TreeLeg(f: PrefillFields, leg: string)
    requires leg == "ida" || leg == "retorno"
    ensures At(Clean(PrefillTree(f)), ["afastamento", leg, "origem"]) == Present(LegOf(f, leg).origem)
    ensures At(Clean(PrefillTree(f)), ["afastamento", leg, "destino"]) == Present(LegOf(f, leg).destino)
    ensures At(Clean(PrefillTree(f)), ["afastamento", leg, "data_hora"]) == Present(DataHoraOf(f, leg))
  {
    var l := LegOf(f, leg);
    var d := DataHoraOf(f, leg);
    var lm := LegJson(l, d).members;
    assert DistinctKeys(lm);
    LookupMember(lm, 0);
    LookupMember(lm, 1);
    LookupMember(lm, 2);
    TreeLegField(f, leg, "origem", l.origem);
    TreeLegField(f, leg, "destino", l.destino);
    TreeLegField(f, leg, "data_hora", d);
  }

  /** Each leg's origin, destination and date-time, each absent when
      empty. */
  lemma PrefillLeg(p: ParsedDocument, leg: string, l: Leg, d: Option<string>)
    requires leg == "ida" || leg == "retorno"
    requires leg == "ida" ==> l == p.ida && d == IdaDataHora(p)
    requires leg == "retorno" ==> l == p.retorno && d == RetornoDataHora(p)
    ensures At(BuildPrefill(p), ["afastamento", leg, "origem"]) == Present(l.origem)
    ensures At(BuildPrefill(p), ["afastamento", leg, "destino"]) == Present(l.destino)
    ensures At(BuildPrefill(p), ["afastamento", leg, "data_hora"]) == Present(d)
  {
    var f := FieldsOf(p);
    assert LegOf(f, leg) == l && DataHoraOf(f, leg) == d;
    TreeLeg(f, leg);
  }

  /** The outbound date-time falls back to the mission start exactly when
      the leg's own does not parse. */
  lemma PrefillIdaFallback(p: ParsedDocument)
    ensures ParseBrDatetime(p.ida.dataHora).Some? ==>
      At(BuildPrefill(p), ["afastamento", "ida", "data_hora"]) == Some(Str(ParseBrDatetime(p.ida.dataHora).value))
    ensures ParseBrDatetime(p.ida.dataHora).None? ==>
      At(BuildPrefill(p), ["afastamento", "ida", "data_hora"]) == Present(ParseBrDatetime(p.inicio))
  {
    PrefillLeg(p, "ida", p.ida, IdaDataHora(p));
  }

  /** The return date-time falls back to the mission end exactly when the
      leg's own does not parse. */
  lemma PrefillRetornoFallback(p: ParsedDocument)
    ensures ParseBrDatetime(p.retorno.dataHora).Some? ==>
      At(BuildPrefill(p), ["afastamento", "retorno", "data_hora"]) == Some(Str(ParseBrDatetime(p.retorno.dataHora).value))
    ensures ParseBrDatetime(p.retorno.dataHora).None? ==>
      At(BuildPrefill(p), ["afastamento", "retorno", "data_hora"]) == Present(ParseBrDatetime(p.termino))
  {
    PrefillLeg(p, "retorno", p.retorno, RetornoDataHora(p));
  }

  /** How an `orgao` dict looks after `clean`: the detail is dropped when
      it is missing or empty, and nothing is left of "no funding line". */
  function CleanOrgaoOf(o: Orgao): Value {
    match o
    case NoOrgao => Obj([])
    case Outros(d) =>
      if d.Some? && d.value != "" then Obj([Member("tipo", Str("outros")), Member("detalhe", Str(d.value))])
      else Obj([Member("tipo", Str("outros"))])
    case _ => Obj([Member("tipo", Str(o.Tipo()))])
  }

  lemma CleanOrgaoJson(o: Orgao)
    ensures Clean(OrgaoJson(o)) == CleanOrgaoOf(o)
  {
    match o
    case NoOrgao =>
    case Outros(d) =>
      var ms := [Member("tipo", Str("outros")), Member("detalhe", OptStr(d))];
      assert CleanMembers(ms[1..]) == if d.Some? && d.value != "" then [Member("detalhe", Str(d.value))] else [];
    case _ =>
  }

  lemma TreeOrgaoAt(f: PrefillFields)
    ensures At(PrefillTree(f), ["proposto", "orgao"]) == Some(OrgaoJson(f.orgao))
  {
    var m := PropostoJson(f).members;
    assert DistinctKeys(m);
    LookupMember(m, 3);
    PropostoAt(f, "orgao");
  }

  lemma CleanOrgaoEmpty(o: Orgao)
    ensures IsEmptyValue(CleanOrgaoOf(o)) <==> o.NoOrgao?
  {
  }

  lemma TreeOrgao(f: PrefillFields)
    ensures f.orgao.NoOrgao? ==> At(Clean(PrefillTree(f)), ["proposto", "orgao"]) == None
    ensures !f.orgao.NoOrgao? ==> At(Clean(PrefillTree(f)), ["proposto", "orgao"]) == Some(CleanOrgaoOf(f.orgao))
  {
    var t := PrefillTree(f);
    PrefillTreeDistinct(f);
    TreeOrgaoAt(f);
    CleanAt(t, ["proposto", "orgao"]);
    CleanOrgaoJson(f.orgao);
    CleanOrgaoEmpty(f.orgao);
  }

  /** The funding line in the prefill: absent when the document has none,
      otherwise the cleaned classification. */
  lemma PrefillOrgao(p: ParsedDocument)
    ensures MapOrgao(p.debito).NoOrgao? ==> At(BuildPrefill(p), ["proposto", "orgao"]) == None
    ensures !MapOrgao(p.debito).NoOrgao? ==> At(BuildPrefill(p), ["proposto", "orgao"]) == Some(CleanOrgaoOf(MapOrgao(p.debito)))
  {
    TreeOrgao(FieldsOf(p));
  }

  /* ---------------------------------------------------------------------- */
  /* _build_warnings                                                         */
  /* ---------------------------------------------------------------------- */

  const WarnNome := "Nome do proposto não identificado no Anexo I."
  const WarnCpf := "CPF não identificado ou ilegível no Anexo I."
  const WarnSiape := "SIAPE não encontrado no Anexo I."
  const WarnOrgao := "Órgão (débito do recurso) não localizado; selecione manualmente."
  const WarnDetalhe := "Detalhe do órgão para Projetos/Outros não foi identificado."
  const WarnIda := "Trecho de ida incompleto; revise origem/destino."
  const WarnRetorno := "Trecho de retorno incompleto; revise origem/destino."
  const WarnDatas := "Datas/horários não foram lidos; informe manualmente."
  const WarnAtividades := "Motivo/atividades não encontrados; escreva o relatório."

  /** Every warning, in the order the checks run. */
  const AllWarnings := [WarnNome, WarnCpf, WarnSiape, WarnOrgao, WarnDetalhe, WarnIda, WarnRetorno, WarnDatas, WarnAtividades]

  function Flag(c: bool, w: string): (r: seq<string>)
    ensures w in r <==> c
    ensures |r| <= 1
  {
    if c then [w] else []
  }

  lemma SubseqFlag(c: bool, w: string, a: seq<string>, b: seq<string>)
    requires IsSubseq(a, b)
    ensures IsSubseq(Flag(c, w) + a, [w] + b)
  {
    SubseqCons(c, w, a, b);
  }


  /** `d.get(k) or {}` on a dict `d`. */
  function Sub(d: Value, k: string): (r: Value)
    requires d.Obj?
    ensures Truthy(r) || r == Obj([])
  {
    OrEmptyObj(GetOrNull(d.members, k))
  }

  /** The funding-line part of `_build_warnings`: a missing line, or a
      Projetos/Outros line without its detail. */
  function OrgaoWarnings(orgao: Value): (r: Result<seq<string>>)
    ensures !Truthy(orgao) ==> r == Ok([WarnOrgao])
    ensures r.Ok? ==> r.value == [] || r.value == [WarnOrgao] || r.value == [WarnDetalhe]
    ensures r.Raised? <==> Truthy(orgao) && !orgao.Obj?
  {
    if !Truthy(orgao) then Ok([WarnOrgao])
    else if !orgao.Obj? then Raised
    else
      var tipo := GetOrNull(orgao.members, "tipo");
      if tipo == Str("projetos") || tipo == Str("outros") then
        Ok(Flag(!Truthy(GetOrNull(orgao.members, "detalhe")), WarnDetalhe))
      else Ok([])
  }

  /** The warning list, in the order `_build_warnings` checks, from which
      parts are missing and what the funding-line check said. */
  function ComposeWarnings(nome: bool, cpf: bool, siape: bool, orgaoWarnings: seq<string>,
                           ida: bool, retorno: bool, datas: bool, atividades: bool): (r: seq<string>)
    requires orgaoWarnings == [] || orgaoWarnings == [WarnOrgao] || orgaoWarnings == [WarnDetalhe]
    ensures IsSubseq(r, AllWarnings)
  {
    var tail := Flag(ida, WarnIda) + Flag(retorno, WarnRetorno) + Flag(datas, WarnDatas) + Flag(atividades, WarnAtividades);
    var r := Flag(nome, WarnNome) + Flag(cpf, WarnCpf) + Flag(siape, WarnSiape) + orgaoWarnings + tail;
    ComposeSubseq(r, nome, cpf, siape, orgaoWarnings, tail, ida, retorno, datas, atividades);
    r
  }

  lemma ComposeSubseq(r: seq<string>, nome: bool, cpf: bool, siape: bool, orgaoWarnings: seq<string>, tail: seq<string>,
                      ida: bool, retorno: bool, datas: bool, atividades: bool)
    requires orgaoWarnings == [] || orgaoWarnings == [WarnOrgao] || orgaoWarnings == [WarnDetalhe]
    requires tail == Flag(ida, WarnIda) + Flag(retorno, WarnRetorno) + Flag(datas, WarnDatas) + Flag(atividades, WarnAtividades)
    requires r == Flag(nome, WarnNome) + Flag(cpf, WarnCpf) + Flag(siape, WarnSiape) + orgaoWarnings + tail
    ensures IsSubseq(r, AllWarnings)
  {
    var b5 := [WarnIda, WarnRetorno, WarnDatas, WarnAtividades];
    TailSubseq(tail, ida, retorno, datas, atividades);
    SubseqOrgao(orgaoWarnings, tail, b5);
    var g3 := Flag(siape, WarnSiape);
    var g2 := Flag(cpf, WarnCpf);
    var g1 := Flag(nome, WarnNome);
    var b3 := [WarnOrgao, WarnDetalhe] + b5;
    SubseqFlag(siape, WarnSiape, orgaoWarnings + tail, b3);
    SubseqFlag(cpf, WarnCpf, g3 + (orgaoWarnings + tail), [WarnSiape] + b3);
    SubseqFlag(nome, WarnNome, g2 + (g3 + (orgaoWarnings + tail)), [WarnCpf] + ([WarnSiape] + b3));
    Assoc5(g1, g2, g3, orgaoWarnings, tail);
    assert AllWarnings == [WarnNome] + ([WarnCpf] + ([WarnSiape] + b3));
  }

  lemma TailSubseq(tail: seq<string>, ida: bool, retorno: bool, datas: bool, atividades: bool)
    requires tail == Flag(ida, WarnIda) + Flag(retorno, WarnRetorno) + Flag(datas, WarnDatas) + Flag(atividades, WarnAtividades)
    ensures IsSubseq(tail, [WarnIda, WarnRetorno, WarnDatas, WarnAtividades])
  {
    var f4 := Flag(atividades, WarnAtividades);
    var f3 := Flag(datas, WarnDatas);
    var f2 := Flag(retorno, WarnRetorno);
    var f1 := Flag(ida, WarnIda);
    var c4: seq<string> := [WarnAtividades];
    var c3 := [WarnDatas] + c4;
    var c2 := [WarnRetorno] + c3;
    SubseqFlag(atividades, WarnAtividades, [], []);
    assert f4 + [] == f4 && c4 == [WarnAtividades] + [];
    SubseqFlag(datas, WarnDatas, f4, c4);
    SubseqFlag(retorno, WarnRetorno, f3 + f4, c3);
    SubseqFlag(ida, WarnIda, f2 + (f3 + f4), c2);
    Assoc5(f1, f2, f3, f4, []);
    assert [WarnIda, WarnRetorno, WarnDatas, WarnAtividades] == [WarnIda] + c2;
  }

  lemma SubseqOrgao(o: seq<string>, a: seq<string>, b: seq<string>)
    requires o == [] || o == [WarnOrgao] || o == [WarnDetalhe]
    requires IsSubseq(a, b)
    ensures IsSubseq(o + a, [WarnOrgao, WarnDetalhe] + b)
  {
    var b1 := [WarnDetalhe] + b;
    assert [WarnOrgao, WarnDetalhe] + b == [WarnOrgao] + b1;
    if o == [WarnOrgao] {
      SubseqFlag(false, WarnDetalhe, a, b);
      SubseqFlag(true, WarnOrgao, a, b1);
    } else {
      SubseqFlag(o == [WarnDetalhe], WarnDetalhe, a, b);
      SubseqFlag(false, WarnOrgao, o + a, b1);
    }
  }

  /** `_build_warnings`: one message per missing part of the prefill, in a
      fixed order. A `proposto`, `afastamento`, leg or `orgao` entry that is
      a truthy non-dict makes the `.get` on it raise; which `.get` raises
      first is immaterial, since the exception escapes either way. */
  function BuildWarnings(prefill: Value): (r: Result<seq<string>>)
    ensures r.Ok? ==> prefill.Obj?
    ensures r.Ok? ==> IsSubseq(r.value, AllWarnings)
  {
    if !prefill.Obj? then Raised
    else
      var prop := Sub(prefill, "proposto");
      var afast := Sub(prefill, "afastamento");
      if !prop.Obj? || !afast.Obj? then Raised
      else
        var orgaoWarnings :- OrgaoWarnings(Sub(prop, "orgao"));
        var ida := Sub(afast, "ida");
        var ret := Sub(afast, "retorno");
        if !ida.Obj? || !ret.Obj? then Raised
        else
          Ok(ComposeWarnings(
            !Truthy(GetOrNull(prop.members, "nome")),
            !Truthy(GetOrNull(prop.members, "cpf")),
            !Truthy(GetOrNull(prop.members, "siape")),
            orgaoWarnings,
            !Truthy(GetOrNull(ida.members, "origem")) || !Truthy(GetOrNull(ida.members, "destino")),
            !Truthy(GetOrNull(ret.members, "origem")) || !Truthy(GetOrNull(ret.members, "destino")),
            !Truthy(GetOrNull(ida.members, "data_hora")) || !Truthy(GetOrNull(ret.members, "data_hora")),
            !Truthy(GetOrNull(prefill.members, "atividades_desenvolvidas"))))
  }

  /** An optional text field the warnings treat as not read. */
  predicate Missing(o: Option<string>) {
    o.None? || o.value == ""
  }

  /** The funding-line warning, in terms of the classification. */
  function OrgaoWarning(o: Orgao): (r: seq<string>)
    ensures r == [] || r == [WarnOrgao] || r == [WarnDetalhe]
  {
    match o
    case NoOrgao => [WarnOrgao]
    case Projetos => [WarnDetalhe]
    case Outros(d) => Flag(Missing(d), WarnDetalhe)
    case _ => []
  }

  /** The warnings a prefill calls for, stated on the values it was built
      from. */
  function ExpectedOf(f: PrefillFields): seq<string> {
    ComposeWarnings(
      Missing(f.nome),
      Missing(f.cpf),
      Missing(f.siape),
      OrgaoWarning(f.orgao),
      Missing(f.ida.origem) || Missing(f.ida.destino),
      Missing(f.retorno.origem) || Missing(f.retorno.destino),
      Missing(f.idaDataHora) || Missing(f.retornoDataHora),
      Missing(f.atividades))
  }

  /** The warnings a parsed document should produce: one per part that is
      missing once the document's fields are converted. */
  function ExpectedWarnings(p: ParsedDocument): seq<string> {
    ExpectedOf(FieldsOf(p))
  }

  /** A leaf read through the `(x or {}).get(k)` chain is truthy exactly
      when the field it holds is present. */
  lemma GetPresent(v: Value, path: seq<string>, k: string, o: Option<string>)
    requires At(v, path).None? || At(v, path).value.Obj?
    requires At(v, path + [k]) == Present(o)
    ensures Truthy(GetOrNull(OrEmptyObj(At(v, path).GetOr(Null)).members, k)) <==> !Missing(o)
  {
    GetAfter(v, path, k);
  }

  lemma OrgaoWarningsOf(o: Orgao)
    requires !o.NoOrgao?
    ensures OrgaoWarnings(CleanOrgaoOf(o)) == Ok(OrgaoWarning(o))
  {
    var ms := CleanOrgaoOf(o).members;
    assert ms[0] == Member("tipo", Str(o.Tipo()));
    if o.Outros? && !Missing(o.detalhe) {
      assert Lookup(ms, "detalhe") == Some(Str(o.detalhe.value));
    }
  }

  /** The `proposto` and `afastamento` parts of a prefill, as the warnings
      read them. */
  lemma TreeParts(f: PrefillFields)
    ensures var v := Clean(PrefillTree(f));
      && Sub(v, "proposto") == OrEmptyObj(At(v, ["proposto"]).GetOr(Null))
      && (At(v, ["proposto"]).None? || At(v, ["proposto"]).value.Obj?)
      && Sub(v, "afastamento") == OrEmptyObj(At(v, ["afastamento"]).GetOr(Null))
      && (At(v, ["afastamento"]).None? || At(v, ["afastamento"]).value.Obj?)
  {
    var t := PrefillTree(f);
    var v := Clean(t);
    PrefillTreeDistinct(f);
    LookupMember(t.members, 0);
    LookupMember(t.members, 1);
    AtKey(t, "proposto");
    AtKey(t, "afastamento");
    CleanAt(t, ["proposto"]);
    CleanAt(t, ["afastamento"]);
    AtKey(v, "proposto");
    AtKey(v, "afastamento");
  }

  lemma TreeLegObj(f: PrefillFields, leg: string)
    requires leg == "ida" || leg == "retorno"
    ensures var v := Clean(PrefillTree(f));
      At(v, ["afastamento", leg]).None? || At(v, ["afastamento", leg]).value.Obj?
  {
    var t := PrefillTree(f);
    PrefillTreeDistinct(f);
    LookupMember(t.members, 1);
    LookupMember(AfastamentoJson(f).members, if leg == "ida" then 0 else 1);
    assert ["afastamento", leg][1..] == [leg];
    AtKey(AfastamentoJson(f), leg);
    CleanAt(t, ["afastamento", leg]);
  }

  lemma WarnLeaf(f: PrefillFields, sec: string, k: string, o: Option<string>)
    requires sec == "proposto" || sec == "afastamento"
    requires At(Clean(PrefillTree(f)), [sec, k]) == Present(o)
    ensures Sub(Clean(PrefillTree(f)), sec).Obj?
    ensures Truthy(GetOrNull(Sub(Clean(PrefillTree(f)), sec).members, k)) <==> !Missing(o)
  {
    var v := Clean(PrefillTree(f));
    TreeParts(f);
    assert [sec] + [k] == [sec, k];
    GetPresent(v, [sec], k, o);
  }

  lemma WarnOrgaoOf(f: PrefillFields)
    ensures Sub(Clean(PrefillTree(f)), "proposto").Obj?
    ensures OrgaoWarnings(Sub(Sub(Clean(PrefillTree(f)), "proposto"), "orgao")) == Ok(OrgaoWarning(f.orgao))
  {
    var v := Clean(PrefillTree(f));
    TreeParts(f);
    TreeOrgao(f);
    assert ["proposto"] + ["orgao"] == ["proposto", "orgao"];
    GetAfter(v, ["proposto"], "orgao");
    if !f.orgao.NoOrgao? {
      OrgaoWarningsOf(f.orgao);
    }
  }

  /** The requester part of the warnings: name, CPF, SIAPE and funding
      line, each decided by its own field. */
  lemma WarnPropostoOf(f: PrefillFields)
    ensures var prop := Sub(Clean(PrefillTree(f)), "proposto");
      && prop.Obj?
      && (Truthy(GetOrNull(prop.members, "nome")) <==> !Missing(f.nome))
      && (Truthy(GetOrNull(prop.members, "cpf")) <==> !Missing(f.cpf))
      && (Truthy(GetOrNull(prop.members, "siape")) <==> !Missing(f.siape))
      && OrgaoWarnings(Sub(prop, "orgao")) == Ok(OrgaoWarning(f.orgao))
  {
    TreeProposto(f);
    WarnLeaf(f, "proposto", "nome", f.nome);
    WarnLeaf(f, "proposto", "cpf", f.cpf);
    WarnLeaf(f, "proposto", "siape", f.siape);
    WarnOrgaoOf(f);
  }

  lemma WarnLegField(f: PrefillFields, leg: string, k: string, o: Option<string>)
    requires leg == "ida" || leg == "retorno"
    requires At(Clean(PrefillTree(f)), ["afastamento", leg]).None? || At(Clean(PrefillTree(f)), ["afastamento", leg]).value.Obj?
    requires At(Clean(PrefillTree(f)), ["afastamento", leg, k]) == Present(o)
    ensures Sub(Clean(PrefillTree(f)), "afastamento").Obj?
    ensures Sub(Sub(Clean(PrefillTree(f)), "afastamento"), leg).Obj?
    ensures Truthy(GetOrNull(Sub(Sub(Clean(PrefillTree(f)), "afastamento"), leg).members, k)) <==> !Missing(o)
  {
    var v := Clean(PrefillTree(f));
    TreeParts(f);
    assert ["afastamento"] + [leg] == ["afastamento", leg];
    GetAfter(v, ["afastamento"], leg);
    assert ["afastamento", leg] + [k] == ["afastamento", leg, k];
    GetPresent(v, ["afastamento", leg], k, o);
  }

  /** One leg of the warnings: origin, destination and date-time, each
      decided by the leg's own field. */
  lemma WarnLegOf(f: PrefillFields, leg: string)
    requires leg == "ida" || leg == "retorno"
    ensures Sub(Clean(PrefillTree(f)), "afastamento").Obj?
    ensures var legObj := Sub(Sub(Clean(PrefillTree(f)), "afastamento"), leg);
      && legObj.Obj?
      && (Truthy(GetOrNull(legObj.members, "origem")) <==> !Missing(LegOf(f, leg).origem))
      && (Truthy(GetOrNull(legObj.members, "destino")) <==> !Missing(LegOf(f, leg).destino))
      && (Truthy(GetOrNull(legObj.members, "data_hora")) <==> !Missing(DataHoraOf(f, leg)))
  {
    TreeLeg(f, leg);
    TreeLegObj(f, leg);
    WarnLegField(f, leg, "origem", LegOf(f, leg).origem);
    WarnLegField(f, leg, "destino", LegOf(f, leg).destino);
    WarnLegField(f, leg, "data_hora", DataHoraOf(f, leg));
  }

  /** `_build_warnings` on a dict whose parts are dicts, in terms of which
      of their fields are truthy. */
  lemma BuildWarningsOf(v: Value, orgaoWarnings: seq<string>)
    requires v.Obj? && Sub(v, "proposto").Obj? && Sub(v, "afastamento").Obj?
    requires Sub(Sub(v, "afastamento"), "ida").Obj? && Sub(Sub(v, "afastamento"), "retorno").Obj?
    requires orgaoWarnings == [] || orgaoWarnings == [WarnOrgao] || orgaoWarnings == [WarnDetalhe]
    requires OrgaoWarnings(Sub(Sub(v, "proposto"), "orgao")) == Ok(orgaoWarnings)
    ensures var prop := Sub(v, "proposto");
      var ida := Sub(Sub(v, "afastamento"), "ida");
      var ret := Sub(Sub(v, "afastamento"), "retorno");
      BuildWarnings(v) == Ok(ComposeWarnings(
        !Truthy(GetOrNull(prop.members, "nome")),
        !Truthy(GetOrNull(prop.members, "cpf")),
        !Truthy(GetOrNull(prop.members, "siape")),
        orgaoWarnings,
        !Truthy(GetOrNull(ida.members, "origem")) || !Truthy(GetOrNull(ida.members, "destino")),
        !Truthy(GetOrNull(ret.members, "origem")) || !Truthy(GetOrNull(ret.members, "destino")),
        !Truthy(GetOrNull(ida.members, "data_hora")) || !Truthy(GetOrNull(ret.members, "data_hora")),
        !Truthy(GetOrNull(v.members, "atividades_desenvolvidas"))))
  {
  }

  lemma TreeWarnings(f: PrefillFields)
    ensures BuildWarnings(Clean(PrefillTree(f))) == Ok(ExpectedOf(f))
  {
    var v := Clean(PrefillTree(f));
    WarnPropostoOf(f);
    WarnLegOf(f, "ida");
    WarnLegOf(f, "retorno");
    WarnActivitiesOf(f);
    BuildWarningsOf(v, OrgaoWarning(f.orgao));
  }

  lemma WarnActivitiesOf(f: PrefillFields)
    ensures Clean(PrefillTree(f)).Obj?
    ensures Truthy(GetOrNull(Clean(PrefillTree(f)).members, "atividades_desenvolvidas")) <==> !Missing(f.atividades)
  {
    TreeTop(f);
    AtKey(Clean(PrefillTree(f)), "atividades_desenvolvidas");
  }

  /** The warnings on a prefill built from a document are exactly the ones
      its missing fields call for, and computing them never raises. */
  lemma WarningsOfPrefill(p: ParsedDocument)
    ensures BuildWarnings(BuildPrefill(p)) == Ok(ExpectedWarnings(p))
  {
    TreeWarnings(FieldsOf(p));
  }

  /** The funding-line warning names the case that caused it, given that
      a detail is never empty. */
  lemma OrgaoWarningMeaning(o: Orgao)
    requires o.Outros? && o.detalhe.Some? ==> o.detalhe.value != ""
    ensures OrgaoWarning(o) == [WarnDetalhe] <==> o == Projetos || o == Outros(None)
    ensures OrgaoWarning(o) == [WarnOrgao] <==> o == NoOrgao
  {
  }

  lemma OrgaoIff(f: PrefillFields)
    ensures WarnDetalhe in ExpectedOf(f) <==> OrgaoWarning(f.orgao) == [WarnDetalhe]
    ensures WarnOrgao in ExpectedOf(f) <==> OrgaoWarning(f.orgao) == [WarnOrgao]
  {
    ComposeOrgao(Missing(f.nome), Missing(f.cpf), Missing(f.siape), OrgaoWarning(f.orgao),
      Missing(f.ida.origem) || Missing(f.ida.destino),
      Missing(f.retorno.origem) || Missing(f.retorno.destino),
      Missing(f.idaDataHora) || Missing(f.retornoDataHora),
      Missing(f.atividades));
  }

  /** The detail warning fires exactly for a Projetos line, which never
      carries a detail, and for an Outros line without text after its
      colon; the missing-line warning fires exactly when no line was
      classified. */
  lemma OrgaoWarningIff(p: ParsedDocument)
    ensures WarnDetalhe in ExpectedWarnings(p) <==> MapOrgao(p.debito) == Projetos || MapOrgao(p.debito) == Outros(None)
    ensures WarnOrgao in ExpectedWarnings(p) <==> MapOrgao(p.debito) == NoOrgao
  {
    var f := FieldsOf(p);
    OrgaoIff(f);
    OrgaoWarningMeaning(f.orgao);
  }

  /** Only the funding-line check contributes its two messages. */
  lemma ComposeOrgao(nome: bool, cpf: bool, siape: bool, orgaoWarnings: seq<string>,
                     ida: bool, retorno: bool, datas: bool, atividades: bool)
    requires orgaoWarnings == [] || orgaoWarnings == [WarnOrgao] || orgaoWarnings == [WarnDetalhe]
    ensures WarnOrgao in ComposeWarnings(nome, cpf, siape, orgaoWarnings, ida, retorno, datas, atividades) <==> orgaoWarnings == [WarnOrgao]
    ensures WarnDetalhe in ComposeWarnings(nome, cpf, siape, orgaoWarnings, ida, retorno, datas, atividades) <==> orgaoWarnings == [WarnDetalhe]
  {
    var r := ComposeWarnings(nome, cpf, siape, orgaoWarnings, ida, retorno, datas, atividades);
    var others := [WarnNome, WarnCpf, WarnSiape, WarnIda, WarnRetorno, WarnDatas, WarnAtividades];
    assert WarnOrgao !in others && WarnDetalhe !in others;
    assert forall w :: w in r ==> w in others || w in orgaoWarnings;
  }

  /** Nothing extracted: every warning but the detail one. */
  lemma EmptyPrefillWarnings()
    ensures BuildWarnings(Obj([])) == Ok([WarnNome, WarnCpf, WarnSiape, WarnOrgao, WarnIda, WarnRetorno, WarnDatas, WarnAtividades])
  {
    assert Sub(Obj([]), "proposto") == Obj([]);
    assert OrgaoWarnings(Obj([])) == Ok([WarnOrgao]);
    assert BuildWarnings(Obj([])) == Ok(ComposeWarnings(true, true, true, [WarnOrgao], true, true, true, true));
    assert Flag(true, WarnNome) == [WarnNome] && Flag(true, WarnCpf) == [WarnCpf] && Flag(true, WarnSiape) == [WarnSiape];
    assert Flag(true, WarnIda) == [WarnIda] && Flag(true, WarnRetorno) == [WarnRetorno];
    assert Flag(true, WarnDatas) == [WarnDatas] && Flag(true, WarnAtividades) == [WarnAtividades];
    assert ComposeWarnings(true, true, true, [WarnOrgao], true, true, true, true)
      == [WarnNome] + [WarnCpf] + [WarnSiape] + [WarnOrgao] + ([WarnIda] + [WarnRetorno] + [WarnDatas] + [WarnAtividades]);
    assert [WarnIda] + [WarnRetorno] + [WarnDatas] + [WarnAtividades] == [WarnIda, WarnRetorno, WarnDatas, WarnAtividades];
    assert [WarnNome] + [WarnCpf] + [WarnSiape] + [WarnOrgao] == [WarnNome, WarnCpf, WarnSiape, WarnOrgao];
    assert [WarnNome, WarnCpf, WarnSiape, WarnOrgao] + [WarnIda, WarnRetorno, WarnDatas, WarnAtividades]
      == [WarnNome, WarnCpf, WarnSiape, WarnOrgao, WarnIda, WarnRetorno, WarnDatas, WarnAtividades];
  }
}
