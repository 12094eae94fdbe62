/** The application's `validate_and_enrich_anexo1`: the checks on a filled
    Anexo I request, the two request flags and, when nothing is wrong, the
    placeholders and the per-leg rows. The legs come as lists (or a single
    leg) under `trechos` and are normalised and stored back first. */
module ValidateAnexo1 {

  import opened Wrappers
  import opened Json
  import opened Dates
  import opened Validation
  import opened RequestChecks
  import Placeholders

  /** The payload key the legs live under, and the error field of the
      legs block. */
  const Field := "trechos"

  /** Everything up to `if errors:`. */
  datatype Checked = Checked(errors: seq<Error>, flags: seq<Member>, ida: seq<Value>, ret: seq<Value>, payload: seq<Member>)

  /** The checks in the program's order: header, legs, ends, mission, then
      the flags and the justifications they call for. A `trechos` that is
      neither empty nor a dict raises: unlike Anexo II, that read is outside
      any `try`. */
  function Check(payload: seq<Member>): (r: Result<Checked>)
    ensures !LegsReadable(payload, Field) ==> r.Raised?
    ensures r.Ok? <==>
      && LegsReadable(payload, Field)
      && var flags := RequestFlags(payload, ReadIda(ReadLegs(payload, Field, MsgDatasTrechos).ends));
         flags.Ok? && JustificationsErrors(payload, flags.value).Ok?
    ensures r.Ok? ==>
      var legs := ReadLegs(payload, Field, MsgDatasTrechos);
      && r.value.ida == legs.ida && r.value.ret == legs.ret && r.value.payload == legs.payload
      && RequestFlags(payload, ReadIda(legs.ends)) == Ok(r.value.flags)
      && JustificationsErrors(payload, r.value.flags).Ok?
  {
    if !LegsReadable(payload, Field) then Raised
    else
      var legs := ReadLegs(payload, Field, MsgDatasTrechos);
      var ida := ReadIda(legs.ends);
      var ret := ReadRet(legs.ends);
      var flags :- RequestFlags(payload, ida);
      var just :- JustificationsErrors(payload, flags);
      Ok(Checked(HeaderErrors(payload) + legs.errors + MissionErrors(payload, ida, ret) + just,
                 flags, legs.ida, legs.ret, legs.payload))
  }

  /** The two results: `{"ok": False, "errors", "flags"}` and
      `{"ok": True, "flags", "placeholders", "rows"}`. */
  datatype Outcome =
    | Rejected(errors: seq<Error>, flags: seq<Member>)
    | Accepted(flags: seq<Member>, placeholders: Placeholders.Anexo1Placeholders, ida: seq<LegRow>, retorno: seq<LegRow>)

  /** `validate_and_enrich_anexo1`. */
  function Validate(payload: seq<Member>): (r: Result<Outcome>)
    ensures r.Ok? <==>
      && Check(payload).Ok?
      && (Check(payload).value.errors == [] ==>
            Placeholders.BuildAnexo1(Check(payload).value.payload, Check(payload).value.flags).Ok?)
    ensures r.Ok? ==> Check(payload).Ok? && r.value.flags == Check(payload).value.flags
    ensures r.Ok? ==> (r.value.Rejected? <==> Check(payload).value.errors != [])
    ensures r.Ok? && r.value.Rejected? ==> r.value.errors == Check(payload).value.errors
    ensures r.Ok? && r.value.Accepted? ==>
      && AllDicts(Check(payload).value.ida) && AllDicts(Check(payload).value.ret)
      && r.value.ida == RowsOf(Check(payload).value.ida)
      && r.value.retorno == RowsOf(Check(payload).value.ret)
      && Placeholders.BuildAnexo1(Check(payload).value.payload, r.value.flags) == Ok(r.value.placeholders)
  {
    var c :- Check(payload);
    if c.errors != [] then Ok(Rejected(c.errors, c.flags))
    else
      var placeholders :- Placeholders.BuildAnexo1(c.payload, c.flags);
      Ok(Accepted(c.flags, placeholders, RowsOf(c.ida), RowsOf(c.ret)))
  }

  /** The four groups of errors of a check that did not raise. */
  lemma CheckParts(payload: seq<Member>)
    requires Check(payload).Ok?
    ensures LegsReadable(payload, Field)
    ensures var legs := ReadLegs(payload, Field, MsgDatasTrechos);
      var c := Check(payload).value;
      && JustificationsErrors(payload, c.flags).Ok?
      && c.errors == HeaderErrors(payload) + legs.errors
           + MissionErrors(payload, ReadIda(legs.ends), ReadRet(legs.ends))
           + JustificationsErrors(payload, c.flags).value
  {
  }

  /** The errors of a check that did not raise come in four groups with
      disjoint fields (header, legs, mission, justifications), and none is
      reported twice. */
  lemma ErrorsDistinct(payload: seq<Member>)
    requires Check(payload).Ok?
    ensures Distinct(Check(payload).value.errors)
  {
    CheckParts(payload);
    var legs := ReadLegs(payload, Field, MsgDatasTrechos);
    var flags := Check(payload).value.flags;
    var h := HeaderErrors(payload);
    var m := MissionErrors(payload, ReadIda(legs.ends), ReadRet(legs.ends));
    var j := JustificationsErrors(payload, flags).value;
    ReadLegsDistinct(payload, Field, MsgDatasTrechos);
    JustificationsMeaning(payload, flags);
    GroupsDisjoint(h, legs.errors, m, j);
  }

  /** Errors of different groups differ in their field. */
  lemma GroupsDisjoint(h: seq<Error>, l: seq<Error>, m: seq<Error>, j: seq<Error>)
    requires Distinct(h) && Distinct(l) && Distinct(m) && Distinct(j)
    requires forall e :: e in h ==> e.field == "tipo_solicitacao" || e.field == "data_solicitacao"
    requires forall e :: e in l ==> e.field == Field || e.field == Field + ".ida" || e.field == Field + ".retorno"
    requires forall e :: e in m ==> e.field == "missao"
    requires forall e :: e in j ==> e.field == LateJustField || e.field == WeekendJustField
    ensures Distinct(h + l + m + j)
  {
    assert |Field + ".ida"| == 11 && |Field + ".retorno"| == 15;
    assert forall e :: e in l ==> |e.field| in {7, 11, 15};
    assert forall e :: e in l ==> e !in h;
    DistinctAppend(h, l);
    assert forall e :: e in h + l ==> |e.field| in {16, 7, 11, 15};
    assert forall e :: e in m ==> e !in h + l;
    DistinctAppend(h + l, m);
    assert forall e :: e in h + l + m ==> |e.field| in {16, 7, 11, 15, 6};
    assert forall e :: e in j ==> |e.field| in {|LateJustField|, |WeekendJustField|};
    assert forall e :: e in j ==> e !in h + l + m;
    DistinctAppend(h + l + m, j);
  }

  /** A request of a known kind with a filing date, a clean trip, and a
      mission inside it. */
  predicate CleanRequest(payload: seq<Member>) {
    && KnownTipo(GetOrNull(payload, "tipo_solicitacao"))
    && Truthy(GetOrNull(payload, "data_solicitacao"))
    && LegsReadable(payload, Field)
    && CleanTripAndMission(payload, IdaLegs(payload, Field), RetornoLegs(payload, Field))
  }

  /** The trip the legs make is clean and the mission lies inside it. */
  predicate CleanTripAndMission(payload: seq<Member>, ida: seq<Value>, ret: seq<Value>)
    requires AllDicts(ida) && AllDicts(ret)
  {
    && CleanTrip(ida, ret)
    && MissionInside(payload, LegDate(ida[0]).value, LegDate(ret[|ret| - 1]).value)
  }

  /** A check without errors read a clean request. */
  lemma CleanCheck(payload: seq<Member>)
    requires Check(payload).Ok? && Check(payload).value.errors == []
    ensures CleanRequest(payload)
  {
    NoErrorGroups(payload);
    var legs := ReadLegs(payload, Field, MsgDatasTrechos);
    CleanLegs(payload, Field, MsgDatasTrechos);
    CleanMission(payload, legs.ends.ida.value, legs.ends.ret.value);
  }

  /** The converse of `CleanCheck`: a clean request whose flag block reads
      and whose set flags are justified passes every check, and is then
      accepted exactly when the placeholders can be built. */
  lemma CleanPasses(payload: seq<Member>)
    requires CleanRequest(payload)
    requires var flags := RequestFlags(payload, ReadIda(ReadLegs(payload, Field, MsgDatasTrechos).ends));
      flags.Ok? && Justified(payload, flags.value)
    ensures Check(payload).Ok? && Check(payload).value.errors == []
    ensures Validate(payload).Ok? <==>
      Placeholders.BuildAnexo1(Check(payload).value.payload, Check(payload).value.flags).Ok?
    ensures Validate(payload).Ok? ==> Validate(payload).value.Accepted?
  {
    var legs := ReadLegs(payload, Field, MsgDatasTrechos);
    var flags := RequestFlags(payload, ReadIda(legs.ends)).value;
    CleanTripNoErrors(payload, Field, MsgDatasTrechos);
    MissionInsideNoErrors(payload, legs.ends.ida.value, legs.ends.ret.value);
    JustifiedIff(payload, flags);
    assert Check(payload).value.errors == [] + [] + [] + [];
  }

  /** A check without errors has no error in any group. */
  lemma NoErrorGroups(payload: seq<Member>)
    requires Check(payload).Ok? && Check(payload).value.errors == []
    ensures LegsReadable(payload, Field)
    ensures var legs := ReadLegs(payload, Field, MsgDatasTrechos);
      && HeaderErrors(payload) == [] && legs.errors == []
      && MissionErrors(payload, ReadIda(legs.ends), ReadRet(legs.ends)) == []
  {
    CheckParts(payload);
    var legs := ReadLegs(payload, Field, MsgDatasTrechos);
    var m := MissionErrors(payload, ReadIda(legs.ends), ReadRet(legs.ends));
    var j := JustificationsErrors(payload, Check(payload).value.flags).value;
    assert |HeaderErrors(payload) + legs.errors + m + j| == 0;
  }

  /** An accepted request is clean, a set flag
      comes with a non-blank justification, and there is one row per leg. */
  lemma AcceptedMeans(payload: seq<Member>)
    requires Validate(payload).Ok? && Validate(payload).value.Accepted?
    ensures CleanRequest(payload)
    ensures |Validate(payload).value.ida| == |IdaLegs(payload, Field)|
    ensures |Validate(payload).value.retorno| == |RetornoLegs(payload, Field)|
    ensures var flags := Validate(payload).value.flags;
      var just := OrEmptyObj(GetOrNull(payload, "justificativas"));
      && (Truthy(GetOrNull(flags, LateKey)) ==>
            just.Obj? && StripOrEmpty(GetOrNull(just.members, LateJustKey)).Ok?
            && StripOrEmpty(GetOrNull(just.members, LateJustKey)) != Ok(""))
      && (Truthy(GetOrNull(flags, WeekendKey)) ==>
            just.Obj? && StripOrEmpty(GetOrNull(just.members, WeekendJustKey)).Ok?
            && StripOrEmpty(GetOrNull(just.members, WeekendJustKey)) != Ok(""))
  {
    var c := Check(payload).value;
    assert c.errors == [];
    var j := JustificationsErrors(payload, c.flags).value;
    assert j == [] by {
      var legs := ReadLegs(payload, Field, MsgDatasTrechos);
      assert c.errors == HeaderErrors(payload) + legs.errors
        + MissionErrors(payload, ReadIda(legs.ends), ReadRet(legs.ends)) + j;
    }
    CleanCheck(payload);
    JustificationsMeaning(payload, c.flags);
    var just := OrEmptyObj(GetOrNull(payload, "justificativas"));
    if Truthy(GetOrNull(c.flags, LateKey)) {
      assert JustificationErrors(GetOrNull(c.flags, LateKey), just, LateJustKey, LateJustField, MsgForaDoPrazo).Ok?;
    }
    if Truthy(GetOrNull(c.flags, WeekendKey)) {
      assert JustificationErrors(GetOrNull(c.flags, WeekendKey), just, WeekendJustKey, WeekendJustField, MsgFds).Ok?;
    }
  }

  /** The request flag compares days: with a readable outbound date-time
      and a filing date, the request is late exactly when it was filed
      fewer days before the outbound day than the deadline for its kind. */
  lemma LateFlagRule(payload: seq<Member>)
    requires Check(payload).Ok?
    ensures var ends := ReadLegs(payload, Field, MsgDatasTrechos).ends;
      var ds := GetOrNull(payload, "data_solicitacao");
      ends.Ends? && ends.ida.Some? && Truthy(ds) ==>
        exists d :: ParseDate(ds) == Some(d)
          && (Lookup(Check(payload).value.flags, LateKey) == Some(Bool(true)) <==>
                Ordinal(ends.ida.value.date) - Ordinal(d) < Prazo(GetOrNull(payload, "tipo_solicitacao")))
  {
    var ends := ReadLegs(payload, Field, MsgDatasTrechos).ends;
    var ds := GetOrNull(payload, "data_solicitacao");
    if ends.Ends? && ends.ida.Some? && Truthy(ds) {
      var d := ParseDate(ds).value;
      assert ParseDate(ds) == Some(d);
    }
  }
}
