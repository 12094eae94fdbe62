/** The wizard's older `validate_and_enrich_anexo1`: a single outbound and a
    single return leg read straight from `payload["trechos"]`, no leg lists,
    no payload rewrite and no rows; the mission, flag and justification
    checks are those of `RequestChecks`. */
module ValidateAnexo1Wizard {

  import opened Wrappers
  import opened Json
  import opened Dates
  import opened Validation
  import opened RequestChecks

  /** `_parse_dt(payload["trechos"][direction]["data_hora"])`; `None` where
      any step raises. */
  function TripDate(payload: seq<Member>, direction: string): (r: Option<DateTime>)
    ensures r.Some? ==> At(Obj(payload), ["trechos", direction, "data_hora"]).Some?
    ensures ValidOpt(r)
  {
    match Index(Obj(payload), "trechos")
    case Raised => None
    case Ok(t) =>
      match Index(t, direction)
      case Raised => None
      case Ok(leg) =>
        match Index(leg, "data_hora")
        case Raised => None
        case Ok(v) =>
          assert At(Obj(payload), ["trechos", direction, "data_hora"]) == At(leg, ["data_hora"]) by {
            assert ["trechos", direction, "data_hora"][1..] == [direction, "data_hora"];
            assert [direction, "data_hora"][1..] == ["data_hora"];
          }
          AtKey(leg, "data_hora");
          ParseDt(v)
  }

  /** The block that reads both ends: the outbound first, then the
      return; either failing makes the whole block fail. */
  function TripEnds(payload: seq<Member>): (r: Ends)
    ensures r.Unreadable? <==> TripDate(payload, "ida").None? || TripDate(payload, "retorno").None?
    ensures r.Ends? ==> r.ida == TripDate(payload, "ida") && r.ret == TripDate(payload, "retorno")
    ensures ValidEnds(r)
  {
    var ida := TripDate(payload, "ida");
    var ret := TripDate(payload, "retorno");
    if ida.None? || ret.None? then Unreadable else Ends(ida, ret)
  }

  /** Everything up to `if errors:`. */
  datatype Checked = Checked(errors: seq<Error>, flags: seq<Member>)

  /** The checks in the program's order: header, ends, mission, then the
      flags and the justifications they call for. */
  function Check(payload: seq<Member>): (r: Result<Checked>)
    ensures !OrEmptyObj(GetOrNull(payload, "flags")).Obj? ==> r.Raised?
    ensures r.Ok? <==>
      var flags := RequestFlags(payload, ReadIda(TripEnds(payload)));
      flags.Ok? && JustificationsErrors(payload, flags.value).Ok?
    ensures r.Ok? ==>
      && RequestFlags(payload, ReadIda(TripEnds(payload))) == Ok(r.value.flags)
      && JustificationsErrors(payload, r.value.flags).Ok?
  {
    var ends := TripEnds(payload);
    var ida := ReadIda(ends);
    var ret := ReadRet(ends);
    var flags :- RequestFlags(payload, ida);
    var just :- JustificationsErrors(payload, flags);
    Ok(Checked(HeaderErrors(payload) + EndsErrors("trechos", MsgDatasIdaRetorno, ends)
               + MissionErrors(payload, ida, ret) + just, flags))
  }

  /** The two results: `{"ok": False, "errors", "flags"}` and
      `{"ok": True, "flags", "placeholders"}`. */
  datatype Outcome<P> =
    | Rejected(errors: seq<Error>, flags: seq<Member>)
    | Accepted(flags: seq<Member>, placeholders: P)

  /** `validate_and_enrich_anexo1` of the wizard. The wizard's own
      `build_placeholders_anexo1` is not part of this model, so it is the
      parameter `build`; its `Raised` results are the exceptions it may
      throw, and they propagate out of the validator. */
  function Validate<P>(payload: seq<Member>, build: (seq<Member>, seq<Member>) -> Result<P>): (r: Result<Outcome<P>>)
    ensures r.Ok? <==>
      Check(payload).Ok? && (Check(payload).value.errors == [] ==> build(payload, Check(payload).value.flags).Ok?)
    ensures r.Ok? ==> r.value.flags == Check(payload).value.flags
    ensures r.Ok? ==> (r.value.Rejected? <==> Check(payload).value.errors != [])
    ensures r.Ok? && r.value.Rejected? ==> r.value.errors == Check(payload).value.errors
    ensures r.Ok? && r.value.Accepted? ==> r.value.placeholders == build(payload, r.value.flags).value
  {
    var c :- Check(payload);
    if c.errors != [] then Ok(Rejected(c.errors, c.flags))
    else
      var placeholders :- build(payload, c.flags);
      Ok(Accepted(c.flags, placeholders))
  }

  /** The four groups of errors of a check that did not raise. */
  lemma CheckParts(payload: seq<Member>)
    requires Check(payload).Ok?
    ensures var ends := TripEnds(payload);
      var c := Check(payload).value;
      && JustificationsErrors(payload, c.flags).Ok?
      && c.errors == HeaderErrors(payload) + EndsErrors("trechos", MsgDatasIdaRetorno, ends)
           + MissionErrors(payload, ReadIda(ends), ReadRet(ends))
           + JustificationsErrors(payload, c.flags).value
  {
  }

  /** The errors of a check that did not raise come in four groups with
      disjoint fields, and none is reported twice. */
  lemma ErrorsDistinct(payload: seq<Member>)
    requires Check(payload).Ok?
    ensures Distinct(Check(payload).value.errors)
  {
    CheckParts(payload);
    var ends := TripEnds(payload);
    var flags := Check(payload).value.flags;
    var h := HeaderErrors(payload);
    var t := EndsErrors("trechos", MsgDatasIdaRetorno, ends);
    var m := MissionErrors(payload, ReadIda(ends), ReadRet(ends));
    var j := JustificationsErrors(payload, flags).value;
    JustificationsMeaning(payload, flags);
    assert |t| <= 1;
    GroupsDisjoint(h, t, m, j);
  }

  /** Errors of different groups differ in their field. */
  lemma GroupsDisjoint(h: seq<Error>, t: seq<Error>, m: seq<Error>, j: seq<Error>)
    requires Distinct(h) && |t| <= 1 && Distinct(m) && Distinct(j)
    requires forall e :: e in h ==> e.field == "tipo_solicitacao" || e.field == "data_solicitacao"
    requires forall e :: e in t ==> e.field == "trechos"
    requires forall e :: e in m ==> e.field == "missao"
    requires forall e :: e in j ==> e.field == LateJustField || e.field == WeekendJustField
    ensures Distinct(h + t + m + j)
  {
    assert forall e :: e in t ==> e !in h;
    DistinctAppend(h, t);
    assert forall e :: e in h + t ==> |e.field| in {16, 7};
    assert forall e :: e in m ==> e !in h + t;
    DistinctAppend(h + t, m);
    assert forall e :: e in h + t + m ==> |e.field| in {16, 7, 6};
    assert forall e :: e in j ==> |e.field| in {|LateJustField|, |WeekendJustField|};
    assert forall e :: e in j ==> e !in h + t + m;
    DistinctAppend(h + t + m, j);
  }

  /** A request of a known kind with a filing date, readable ends in order,
      and a mission inside the trip. */
  predicate CleanRequest(payload: seq<Member>) {
    && KnownTipo(GetOrNull(payload, "tipo_solicitacao"))
    && Truthy(GetOrNull(payload, "data_solicitacao"))
    && var ida := TripDate(payload, "ida");
       var ret := TripDate(payload, "retorno");
       && ida.Some? && ret.Some?
       && !Before(ret.value, ida.value)
       && MissionInside(payload, ida.value, ret.value)
  }

  /** A check without errors read a clean request. */
  lemma CleanCheck(payload: seq<Member>)
    requires Check(payload).Ok? && Check(payload).value.errors == []
    ensures CleanRequest(payload)
  {
    CheckParts(payload);
    var ends := TripEnds(payload);
    var t := EndsErrors("trechos", MsgDatasIdaRetorno, ends);
    var m := MissionErrors(payload, ReadIda(ends), ReadRet(ends));
    assert HeaderErrors(payload) == [] && t == [] && m == [] by {
      var j := JustificationsErrors(payload, Check(payload).value.flags).value;
      assert |HeaderErrors(payload) + t + m + j| == 0;
    }
    assert ends.Ends?;
    CleanMission(payload, ends.ida.value, ends.ret.value);
  }

  /** The converse of `CleanCheck`: a clean request whose flag block reads
      and whose set flags are justified passes every check, and is then
      accepted exactly when `build` succeeds. */
  lemma CleanPasses<P>(payload: seq<Member>, build: (seq<Member>, seq<Member>) -> Result<P>)
    requires CleanRequest(payload)
    requires var flags := RequestFlags(payload, ReadIda(TripEnds(payload)));
      flags.Ok? && Justified(payload, flags.value)
    ensures Check(payload).Ok? && Check(payload).value.errors == []
    ensures Validate(payload, build).Ok? <==> build(payload, Check(payload).value.flags).Ok?
    ensures Validate(payload, build).Ok? ==> Validate(payload, build).value.Accepted?
  {
    var ends := TripEnds(payload);
    var flags := RequestFlags(payload, ReadIda(ends)).value;
    MissionInsideNoErrors(payload, ends.ida.value, ends.ret.value);
    JustifiedIff(payload, flags);
    assert Check(payload).value.errors == [] + [] + [] + [];
  }

  /** An accepted request is clean and a set flag comes with a non-blank
      justification. */
  lemma AcceptedMeans<P>(payload: seq<Member>, build: (seq<Member>, seq<Member>) -> Result<P>)
    requires Validate(payload, build).Ok? && Validate(payload, build).value.Accepted?
    ensures CleanRequest(payload)
    ensures var flags := Validate(payload, build).value.flags;
      var just := OrEmptyObj(GetOrNull(payload, "justificativas"));
      && (Truthy(GetOrNull(flags, LateKey)) ==>
            just.Obj? && StripOrEmpty(GetOrNull(just.members, LateJustKey)).Ok?
            && StripOrEmpty(GetOrNull(just.members, LateJustKey)) != Ok(""))
      && (Truthy(GetOrNull(flags, WeekendKey)) ==>
            just.Obj? && StripOrEmpty(GetOrNull(just.members, WeekendJustKey)).Ok?
            && StripOrEmpty(GetOrNull(just.members, WeekendJustKey)) != Ok(""))
  {
    var c := Check(payload).value;
    assert c.errors == [];
    CheckParts(payload);
    var j := JustificationsErrors(payload, c.flags).value;
    assert j == [] by {
      var ends := TripEnds(payload);
      assert |HeaderErrors(payload) + EndsErrors("trechos", MsgDatasIdaRetorno, ends)
        + MissionErrors(payload, ReadIda(ends), ReadRet(ends)) + j| == 0;
    }
    CleanCheck(payload);
    JustificationsMeaning(payload, c.flags);
    var just := OrEmptyObj(GetOrNull(payload, "justificativas"));
    if Truthy(GetOrNull(c.flags, LateKey)) {
      assert JustificationErrors(GetOrNull(c.flags, LateKey), just, LateJustKey, LateJustField, MsgForaDoPrazo).Ok?;
    }
    if Truthy(GetOrNull(c.flags, WeekendKey)) {
      assert JustificationErrors(GetOrNull(c.flags, WeekendKey), just, WeekendJustKey, WeekendJustField, MsgFds).Ok?;
    }
  }

  /** The request flag compares days: with readable ends and a filing
      date, the request is late exactly when it was filed fewer days before
      the outbound day than the deadline for its kind. */
  lemma LateFlagRule(payload: seq<Member>)
    requires Check(payload).Ok?
    ensures var ends := TripEnds(payload);
      var ds := GetOrNull(payload, "data_solicitacao");
      ends.Ends? && Truthy(ds) ==>
        exists d :: ParseDate(ds) == Some(d)
          && (Lookup(Check(payload).value.flags, LateKey) == Some(Bool(true)) <==>
                Ordinal(ends.ida.value.date) - Ordinal(d) < Prazo(GetOrNull(payload, "tipo_solicitacao")))
  {
    var ends := TripEnds(payload);
    var ds := GetOrNull(payload, "data_solicitacao");
    if ends.Ends? && Truthy(ds) {
      var d := ParseDate(ds).value;
      assert ParseDate(ds) == Some(d);
    }
  }
}
