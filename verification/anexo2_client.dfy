/** The pure helpers of the Anexo II page script: digit stripping, the CPF
    and SIAPE checks, the two date conversions between the Brazilian and the
    ISO form, joining a city and a state code, padding a minute-precision
    date-time with seconds, and normalising a leg list. A JavaScript value
    that may be `null` or `undefined` is an `Option`. */
module Anexo2Client {

  import opened Wrappers
  import opened Text
  import opened Seqs
  import opened Dates
  import Json
  import Placeholders

  /** `s || ""` for a string or a missing value. */
  function OrEmpty(s: Option<string>): (r: string)
    ensures s.None? ==> r == ""
    ensures s.Some? ==> r == s.value
  {
    if s.Some? then s.value else ""
  }

  /* ---------------------------------------------------------------------- */
  /* Digits, SIAPE and CPF                                                   */
  /* ---------------------------------------------------------------------- */

  /** `onlyDigits`: the digits of the text, in order; nothing for a
      missing value. */
  function OnlyDigits(s: Option<string>): (r: string)
    ensures s.None? ==> r == ""
    ensures AllDigits(r)
    ensures s.Some? ==> IsSubseq(r, s.value)
    ensures s.Some? ==> |r| == DigitCount(s.value)
    ensures s.Some? && AllDigits(s.value) ==> r == s.value
  {
    DigitsSubseq(OrEmpty(s));
    DigitsOf(OrEmpty(s))
  }

  /** Stripping twice is stripping once. */
  lemma OnlyDigitsIdempotent(s: Option<string>)
    ensures OnlyDigits(Some(OnlyDigits(s))) == OnlyDigits(s)
  {
  }

  /** `isSiape`: four to fifteen digits and nothing else. */
  function IsSiape(s: Option<string>): (r: bool)
    ensures r ==> s.Some? && OnlyDigits(s) == s.value
    ensures s.None? ==> !r
    ensures r <==> s.Some? && 4 <= |s.value| <= 15 && AllDigits(s.value)
  {
    var t := OrEmpty(s);
    4 <= |t| <= 15 && AllDigits(t)
  }

  /** The numbers the script rejects by name. Only the first two matter:
      the others repeat one digit and are already rejected. */
  const Blacklist: seq<string> := [
    "12345678909", "01234567890", "11111111111", "22222222222", "33333333333",
    "44444444444", "55555555555", "66666666666", "77777777777", "88888888888", "99999999999"]

  /** `/^(\d)\1{10}$/`: eleven copies of one digit. */
  predicate Repeated(d: string)
    requires |d| == 11
  {
    forall i :: 0 <= i < 11 ==> d[i] == d[0]
  }

  /** `sum += parseInt(cpf[i]) * (top - i)` for `i` below `n`. */
  function WeightedSum(d: string, n: nat, top: int): int
    requires n <= |d| && AllDigits(d)
  {
    if n == 0 then 0 else WeightedSum(d, n - 1, top) + DigitValue(d[n - 1]) * (top - (n - 1))
  }

  /** The script's check digit: `(sum * 10) % 11`, with 10 read as 0. */
  function ScriptCheckDigit(sum: int): (r: int)
    ensures 0 <= r <= 9
  {
    var x := (sum * 10) % 11;
    if x == 10 then 0 else x
  }

  /** The check digit as the Receita Federal states it: 11 minus the
      remainder of the sum by 11, and 0 when that remainder is 0 or 1. */
  function StandardCheckDigit(sum: int): (r: int)
    ensures 0 <= r <= 9
  {
    var rem := sum % 11;
    if rem < 2 then 0 else 11 - rem
  }

  /** The script's formula is the standard one, for every sum. */
  lemma CheckDigitStandard(sum: int)
    ensures ScriptCheckDigit(sum) == StandardCheckDigit(sum)
  {
    var rem := sum % 11;
    var q := sum / 11;
    assert sum == 11 * q + rem;
    assert sum * 10 == 11 * (10 * q) + 10 * rem;
    assert (sum * 10) % 11 == (10 * rem) % 11 by {
      ModShift(10 * rem, 10 * q);
    }
    if rem == 0 {
    } else {
      assert (10 * rem) % 11 == 11 - rem by {
        assert 10 * rem == 11 * (rem - 1) + (11 - rem);
        ModShift(11 - rem, rem - 1);
      }
    }
  }

  lemma ModShift(a: int, k: int)
    ensures (11 * k + a) % 11 == a % 11
  {
  }

  /** `isCPF` as the script computes it. */
  function IsCPF(cpf: Option<string>): (r: bool)
    ensures r ==> |OnlyDigits(cpf)| == 11
    ensures r ==> !Repeated(OnlyDigits(cpf)) && OnlyDigits(cpf) !in Blacklist
  {
    var d := OnlyDigits(cpf);
    if |d| != 11 then false
    else if Repeated(d) then false
    else if d in Blacklist then false
    else if ScriptCheckDigit(WeightedSum(d, 9, 10)) != DigitValue(d[9]) then false
    else ScriptCheckDigit(WeightedSum(d, 10, 11)) == DigitValue(d[10])
  }

  /** A CPF is valid exactly when it has eleven digits, is neither a
      repeated digit nor on the list, and both digits agree with the
      standard check-digit definition. */
  lemma IsCPFStandard(cpf: Option<string>)
    ensures var d := OnlyDigits(cpf);
      IsCPF(cpf) <==>
        && |d| == 11 && !Repeated(d) && d !in Blacklist
        && StandardCheckDigit(WeightedSum(d, 9, 10)) == DigitValue(d[9])
        && StandardCheckDigit(WeightedSum(d, 10, 11)) == DigitValue(d[10])
  {
    var d := OnlyDigits(cpf);
    if |d| == 11 {
      CheckDigitStandard(WeightedSum(d, 9, 10));
      CheckDigitStandard(WeightedSum(d, 10, 11));
    }
  }

  /** The two loops of `isCPF`, as the script writes them. */
  method IsCPFLoop(cpf: Option<string>) returns (ok: bool)
    ensures ok == IsCPF(cpf)
  {
    var d := OnlyDigits(cpf);
    if |d| != 11 || Repeated(d) || d in Blacklist {
      return false;
    }
    var sum := 0;
    var i := 0;
    while i < 9
      invariant 0 <= i <= 9
      invariant sum == WeightedSum(d, i, 10)
    {
      sum := sum + DigitValue(d[i]) * (10 - i);
      i := i + 1;
    }
    var d1 := (sum * 10) % 11;
    if d1 == 10 {
      d1 := 0;
    }
    if d1 != DigitValue(d[9]) {
      return false;
    }
    sum := 0;
    i := 0;
    while i < 10
      invariant 0 <= i <= 10
      invariant sum == WeightedSum(d, i, 11)
    {
      sum := sum + DigitValue(d[i]) * (11 - i);
      i := i + 1;
    }
    var d2 := (sum * 10) % 11;
    if d2 == 10 {
      d2 := 0;
    }
    ok := d2 == DigitValue(d[10]);
  }

  /** Past its first two entries the list holds only repeated digits, so
      for every other number the list check is just the two comparisons. */
  lemma ListedRest(d: string)
    requires |d| == 11 && d[0] != d[1]
    ensures d in Blacklist <==> d == "12345678909" || d == "01234567890"
  {
    forall i | 2 <= i < |Blacklist| ensures Blacklist[i] != d {
      assert Blacklist[i][0] == Blacklist[i][1];
    }
  }

  lemma PlainSums()
    ensures var d := "52998224725";
      WeightedSum(d, 9, 10) == 295 && WeightedSum(d, 10, 11) == 347
  {
    var d := "52998224725";
    assert WeightedSum(d, 3, 10) == 140;
    assert WeightedSum(d, 6, 10) == 261;
    assert WeightedSum(d, 9, 10) == 295;
    assert WeightedSum(d, 3, 11) == 156;
    assert WeightedSum(d, 6, 11) == 296;
    assert WeightedSum(d, 10, 11) == 347;
  }

  lemma CheckDigitValues()
    ensures ScriptCheckDigit(295) == 2 && ScriptCheckDigit(347) == 5
    ensures ScriptCheckDigit(210) == 0 && ScriptCheckDigit(255) == 9
  {
    assert 295 * 10 == 11 * 268 + 2;
    assert 347 * 10 == 11 * 315 + 5;
    assert 210 * 10 == 11 * 190 + 10;
    assert 255 * 10 == 11 * 231 + 9;
  }

  lemma PlainDigits()
    ensures var d := "52998224725";
      OnlyDigits(Some(d)) == d && !Repeated(d) && DigitValue(d[9]) == 2 && DigitValue(d[10]) == 5
  {
    var d := "52998224725";
    PlainAllDigits(d);
    assert d[1] != d[0];
  }

  lemma PlainAllDigits(d: string)
    requires d == "52998224725"
    ensures AllDigits(d)
  {
    assert forall i | 0 <= i < |d| :: d[i] in "0123456789";
  }

  /** A valid CPF written without punctuation. */
  lemma ValidPlainCPF()
    ensures IsCPF(Some("52998224725"))
  {
    var d := "52998224725";
    PlainDigits();
    ListedRest(d);
    PlainSums();
    CheckDigitValues();
  }

  /** Only the digits of the text matter to the check. */
  lemma DigitsOnlyMatter(t: string)
    ensures IsCPF(Some(t)) == IsCPF(Some(OnlyDigits(Some(t))))
  {
    OnlyDigitsIdempotent(Some(t));
  }

  /** Dots, dashes and any other non-digit put between the digits change
      nothing. */
  lemma {:induction false} SeparatorIgnored(a: string, sep: string, b: string)
    requires NoDigits(sep)
    ensures OnlyDigits(Some(a + sep + b)) == OnlyDigits(Some(a + b))
  {
    DigitsOfAppend(a + sep, b);
    DigitsOfAppend(a, sep);
    DigitsOfAppend(a, b);
  }

  /** So the same CPF written with the usual dots and dash is accepted
      too. */
  lemma ValidFormattedCPF(t: string)
    requires OnlyDigits(Some(t)) == "52998224725"
    ensures IsCPF(Some(t))
  {
    ValidPlainCPF();
    DigitsOnlyMatter(t);
  }

  /** The first listed number has correct check digits, so only the list
      keeps it out. */
  lemma ListedButWellFormed()
    ensures var d := "12345678909";
      && !Repeated(d)
      && ScriptCheckDigit(WeightedSum(d, 9, 10)) == DigitValue(d[9])
      && ScriptCheckDigit(WeightedSum(d, 10, 11)) == DigitValue(d[10])
      && !IsCPF(Some(d))
  {
    var d := "12345678909";
    assert d[1] != d[0];
    ListedSums();
    CheckDigitValues();
    ListedDigits();
  }

  lemma ListedDigits()
    ensures var d := "12345678909";
      OnlyDigits(Some(d)) == d && d in Blacklist
  {
    var d := "12345678909";
    assert AllDigits(d);
    assert d == Blacklist[0];
  }

  lemma ListedSums()
    ensures var d := "12345678909";
      WeightedSum(d, 9, 10) == 210 && WeightedSum(d, 10, 11) == 255
  {
    var d := "12345678909";
    assert WeightedSum(d, 3, 10) == 52;
    assert WeightedSum(d, 6, 10) == 140;
    assert WeightedSum(d, 9, 10) == 210;
    assert WeightedSum(d, 3, 11) == 58;
    assert WeightedSum(d, 6, 11) == 161;
    assert WeightedSum(d, 10, 11) == 255;
  }

  /** Eleven copies of one digit are never accepted. */
  lemma RepeatedRejected(c: char)
    requires IsDigit(c)
    ensures !IsCPF(Some(seq(11, _ => c)))
  {
    var d := seq(11, _ => c);
    assert OnlyDigits(Some(d)) == d;
  }

  /* ---------------------------------------------------------------------- */
  /* Dates                                                                   */
  /* ---------------------------------------------------------------------- */

  /** `^(\d{4})-(\d{2})-(\d{2})`: an ISO date at the start of the text. */
  predicate IsoPrefix(s: string) {
    |s| >= 10 && DigitsAt(s, 0, 4) && s[4] == '-' && DigitsAt(s, 5, 2) && s[7] == '-' && DigitsAt(s, 8, 2)
  }

  /** `^(\d{2})\/(\d{2})\/(\d{4})$`: exactly a Brazilian date. */
  predicate BrShape(s: string) {
    |s| == 10 && DigitsAt(s, 0, 2) && s[2] == '/' && DigitsAt(s, 3, 2) && s[5] == '/' && DigitsAt(s, 6, 4)
  }

  /** Day and month in the ranges the script accepts; it does not look at
      the month's length. */
  predicate BrInRange(s: string)
    requires BrShape(s)
  {
    1 <= NatValue(s[0..2]) <= 31 && 1 <= NatValue(s[3..5]) <= 12
  }

  /** `formatDateBR`: an ISO date at the start becomes `DD/MM/YYYY`
      (anything after it is dropped); other text is returned as it is. */
  function FormatDateBR(value: Option<string>): (r: string)
    ensures value.None? || value == Some("") ==> r == ""
    ensures value.Some? && !IsoPrefix(value.value) ==> r == value.value
    ensures value.Some? && IsoPrefix(value.value) ==>
      |r| == 10 && r[0..2] == value.value[8..10] && r[2] == '/' && r[3..5] == value.value[5..7] &&
      r[5] == '/' && r[6..10] == value.value[0..4]
  {
    var s := OrEmpty(value);
    if s == "" then ""
    else if IsoPrefix(s) then s[8..10] + "/" + s[5..7] + "/" + s[0..4]
    else s
  }

  /** `parseDateBRToISO`: a trimmed `DD/MM/YYYY` with day 1 to 31 and
      month 1 to 12 becomes `YYYY-MM-DD`, out of range it becomes `""`; an
      ISO date at the start is kept (without what follows); anything else
      is `""`. */
  function ParseDateBRToISO(value: Option<string>): (r: string)
    ensures r == "" || (|r| == 10 && IsoPrefix(r))
    ensures value.Some? && BrShape(JsTrim(value.value)) && BrInRange(JsTrim(value.value)) ==>
      var t := JsTrim(value.value); r == t[6..10] + "-" + t[3..5] + "-" + t[0..2]
    ensures value.Some? && BrShape(JsTrim(value.value)) && !BrInRange(JsTrim(value.value)) ==> r == ""
    ensures value.None? || (!BrShape(JsTrim(value.value)) && !IsoPrefix(JsTrim(value.value))) ==> r == ""
    ensures value.Some? && !BrShape(JsTrim(value.value)) && IsoPrefix(JsTrim(value.value)) ==>
      r == JsTrim(value.value)[..10]
  {
    var raw := OrEmpty(value);
    if raw == "" then ""
    else
      var s := JsTrim(raw);
      if BrShape(s) then
        if BrInRange(s) then BrToIso(s) else ""
      else if IsoPrefix(s) then IsoHead(s)
      else ""
  }

  /** `${y}-${m}-${d}` from the parts of a Brazilian date. */
  function BrToIso(s: string): (r: string)
    requires BrShape(s)
    ensures |r| == 10 && IsoPrefix(r)
    ensures r[0..4] == s[6..10] && r[5..7] == s[3..5] && r[8..10] == s[0..2]
  {
    var r := s[6..10] + "-" + s[3..5] + "-" + s[0..2];
    assert r[0..4] == s[6..10] && r[5..7] == s[3..5] && r[8..10] == s[0..2];
    r
  }

  /** The ISO date at the start of a text, without what follows. */
  function IsoHead(s: string): (r: string)
    requires IsoPrefix(s)
    ensures |r| == 10 && IsoPrefix(r) && r == s[..10]
  {
    assert s[..10][0..4] == s[0..4] && s[..10][5..7] == s[5..7] && s[..10][8..10] == s[8..10];
    s[..10]
  }

  /** A digit inside a run of digits is no white space, so trimming keeps
      a text that starts and ends with one. */
  lemma DigitAt(s: string, i: nat, n: nat, k: nat)
    requires DigitsAt(s, i, n) && i <= k < i + n
    ensures IsDigit(s[k]) && !IsJsWhitespace(s[k])
  {
    assert s[i..i + n][k - i] == s[k];
  }

  /** What an exact Brazilian date in range is turned into. */
  lemma ParseBr(s: string)
    requires BrShape(s) && BrInRange(s)
    ensures ParseDateBRToISO(Some(s)) == s[6..10] + "-" + s[3..5] + "-" + s[0..2]
  {
    DigitAt(s, 0, 2, 0);
    DigitAt(s, 6, 4, 9);
    assert JsTrim(s) == s;
  }

  /** Typing a Brazilian date in range and showing it again gives back
      what was typed. */
  lemma BrRoundTrip(s: string)
    requires BrShape(s) && BrInRange(s)
    ensures FormatDateBR(Some(ParseDateBRToISO(Some(s)))) == s
  {
    ParseBr(s);
    var iso := s[6..10] + "-" + s[3..5] + "-" + s[0..2];
    assert ParseDateBRToISO(Some(s)) == iso;
    assert iso[8..10] == s[0..2] && iso[5..7] == s[3..5] && iso[0..4] == s[6..10];
    assert s == s[0..2] + "/" + s[3..5] + "/" + s[6..10];
  }

  /** Showing an ISO date whose day and month are in range and reading it
      back gives the ISO date again. */
  lemma IsoRoundTrip(s: string)
    requires |s| == 10 && IsoPrefix(s)
    requires 1 <= NatValue(s[8..10]) <= 31 && 1 <= NatValue(s[5..7]) <= 12
    ensures ParseDateBRToISO(Some(FormatDateBR(Some(s)))) == s
  {
    var br := s[8..10] + "/" + s[5..7] + "/" + s[0..4];
    assert FormatDateBR(Some(s)) == br;
    assert br[0..2] == s[8..10] && br[3..5] == s[5..7] && br[6..10] == s[0..4];
    assert BrShape(br) && BrInRange(br);
    ParseBr(br);
    assert s == s[0..4] + "-" + s[5..7] + "-" + s[8..10];
  }

  /** Every date the server writes in ISO form is shown in the same
      Brazilian form the server itself prints. */
  lemma FormatMatchesServer(d: Date)
    requires ValidDate(d)
    ensures FormatDateBR(Some(IsoDate(d))) == BrDate(d)
  {
    var s := IsoDate(d);
    assert s[0..4] == Pad(d.year, 4) && s[5..7] == Pad(d.month, 2) && s[8..10] == Pad(d.day, 2);
    assert IsoPrefix(s);
  }

  /** `normalizeDT`: a minute-precision date-time (16 characters) gets
      `":00"`; anything else, and a missing value, is left alone. */
  function NormalizeDT(s: Option<string>): (r: Option<string>)
    ensures s.None? ==> r.None?
    ensures s.Some? ==> r.Some? && StartsWith(r.value, s.value)
    ensures s.Some? && |s.value| != 16 ==> r == s
    ensures s.Some? && |s.value| == 16 ==> r == Some(s.value + ":00")
  {
    if s.None? || s.value == "" then s
    else if |s.value| == 16 then
      assert (s.value + ":00")[..|s.value|] == s.value;
      Some(s.value + ":00")
    else s
  }

  /** Normalising twice is normalising once. */
  lemma NormalizeDTIdempotent(s: Option<string>)
    ensures NormalizeDT(NormalizeDT(s)) == NormalizeDT(s)
  {
  }

  /** The padded text still denotes the instant the form's minute-precision
      field held, as the server reads it. */
  lemma NormalizeDTSameInstant(t: DateTime)
    requires ValidDateTime(t)
    ensures NormalizeDT(Some(IsoMinute(t))).Some?
    ensures ParseIsoDateTime(NormalizeDT(Some(IsoMinute(t))).value) == Some(t.(second := 0))
  {
    IsoSecondsSuffix(t);
  }

  /* ---------------------------------------------------------------------- */
  /* Places                                                                  */
  /* ---------------------------------------------------------------------- */

  /** `composeLocal`: the trimmed city, then `/` and the trimmed state code
      in upper case when there is one; `""` when both are blank. */
  function ComposeLocal(cidade: Option<string>, uf: Option<string>): (r: string)
    ensures JsTrim(OrEmpty(uf)) == "" ==> r == JsTrim(OrEmpty(cidade))
    ensures JsTrim(OrEmpty(uf)) != "" ==> Place(r, JsTrim(OrEmpty(cidade)), JsTrim(OrEmpty(uf)))
  {
    Compose(JsTrim(OrEmpty(cidade)), JsTrim(OrEmpty(uf)))
  }

  /** `r` is the city, a `/` and the state code in upper case. */
  predicate Place(r: string, c: string, u: string) {
    |r| == |c| + 1 + |u| && r[..|c|] == c && r[|c|] == '/' && r[|c| + 1..] == Upper(u)
  }

  function Compose(c: string, uf: string): (r: string)
    ensures uf == "" ==> r == c
    ensures uf != "" ==> Place(r, c, uf)
  {
    var u := Upper(uf);
    if c == "" && u == "" then ""
    else if u != "" then
      assert (c + "/" + u)[..|c|] == c && (c + "/" + u)[|c| + 1..] == u;
      c + "/" + u
    else c
  }

  /** The text after the last `/`, and the text before it. */
  function SplitLastSlash(s: string): (r: Option<(string, string)>)
    ensures r.Some? ==> s == r.value.0 + "/" + r.value.1 && '/' !in r.value.1
    ensures r.None? <==> '/' !in s
  {
    if s == [] then None
    else if s[|s| - 1] == '/' then
      assert s == s[..|s| - 1] + "/" + "";
      Some((s[..|s| - 1], ""))
    else
      var rest := SplitLastSlash(s[..|s| - 1]);
      assert s == s[..|s| - 1] + [s[|s| - 1]];
      if rest.None? then None
      else
        assert s == rest.value.0 + "/" + (rest.value.1 + [s[|s| - 1]]);
        Some((rest.value.0, rest.value.1 + [s[|s| - 1]]))
  }

  /** Splitting a composed place at its last `/` gives back the city and
      the upper-cased state code, when the code itself has no `/`. */
  lemma ComposeLocalSplits(cidade: string, uf: string)
    requires JsTrim(uf) != "" && '/' !in JsTrim(uf)
    ensures SplitLastSlash(ComposeLocal(Some(cidade), Some(uf))) == Some((JsTrim(cidade), Upper(JsTrim(uf))))
  {
    var c := JsTrim(cidade);
    var u := Upper(JsTrim(uf));
    assert '/' !in u by {
      forall i | 0 <= i < |u| ensures u[i] != '/' {
        assert JsTrim(uf)[i] != '/';
      }
    }
    SplitSlashLast(c, u);
  }

  lemma {:induction false} SplitSlashLast(c: string, u: string)
    requires '/' !in u
    ensures SplitLastSlash(c + "/" + u) == Some((c, u))
    decreases |u|
  {
    var s := c + "/" + u;
    if u == [] {
      assert s[..|s| - 1] == c;
    } else {
      var u' := u[..|u| - 1];
      assert s[..|s| - 1] == c + "/" + u';
      assert '/' !in u' by {
        forall i | 0 <= i < |u'| ensures u'[i] != '/' { assert u'[i] == u[i]; }
      }
      SplitSlashLast(c, u');
      assert u' + [u[|u| - 1]] == u;
    }
  }

  /* ---------------------------------------------------------------------- */
  /* Leg lists                                                               */
  /* ---------------------------------------------------------------------- */

  /** `v && typeof v === "object"`: dicts and lists, empty ones included
      (they are truthy in JavaScript); `null` is not. */
  predicate IsObject(v: Json.Value) {
    v.Obj? || v.Arr?
  }

  /** How many elements of `xs` are objects. */
  function ObjectCount(xs: seq<Json.Value>): nat {
    if xs == [] then 0 else (if IsObject(xs[0]) then 1 else 0) + ObjectCount(xs[1..])
  }

  function ObjectsOf(xs: seq<Json.Value>): (r: seq<Json.Value>)
    ensures forall x :: x in r ==> x in xs && IsObject(x)
    ensures forall x :: x in xs && IsObject(x) ==> x in r
    ensures IsSubseq(r, xs)
    ensures |r| == ObjectCount(xs)
  {
    if xs == [] then []
    else
      var rest := ObjectsOf(xs[1..]);
      SubseqCons(IsObject(xs[0]), xs[0], rest, xs[1..]);
      assert [xs[0]] + xs[1..] == xs;
      (if IsObject(xs[0]) then [xs[0]] else []) + rest
  }

  /** `normalizeAfastList`: a list keeps its objects, a lone object becomes
      a one-element list, anything else gives an empty list. */
  function NormalizeAfastList(value: Json.Value): (r: seq<Json.Value>)
    ensures value.Obj? ==> r == [value]
    ensures !IsObject(value) ==> r == []
    ensures value.Arr? ==> IsSubseq(r, value.items) && |r| == ObjectCount(value.items)
    ensures value.Arr? ==> forall x :: x in value.items && IsObject(x) ==> x in r
    ensures forall x :: x in r ==> IsObject(x)
  {
    match value
    case Arr(xs) => ObjectsOf(xs)
    case Obj(_) => [value]
    case _ => []
  }

  /** On a list without nested lists the page and the server normalise
      alike. */
  lemma {:induction false} ObjectsOfDicts(xs: seq<Json.Value>)
    requires forall i :: 0 <= i < |xs| ==> !xs[i].Arr?
    ensures ObjectsOf(xs) == Placeholders.DictsOf(xs)
  {
    if xs != [] {
      ObjectsOfDicts(xs[1..]);
    }
  }

  lemma AgreesWithServer(value: Json.Value)
    requires value.Arr? ==> forall i :: 0 <= i < |value.items| ==> !value.items[i].Arr?
    ensures NormalizeAfastList(value) == Placeholders.NormalizeTrechos(value)
  {
    if value.Arr? {
      ObjectsOfDicts(value.items);
    }
  }

  /** A nested list is where they part: the page keeps it, the server
      drops it. */
  lemma NestedListDiffers()
    ensures NormalizeAfastList(Json.Arr([Json.Arr([])])) == [Json.Arr([])]
    ensures Placeholders.NormalizeTrechos(Json.Arr([Json.Arr([])])) == []
  {
  }
}
