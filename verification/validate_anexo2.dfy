/** `validate_and_enrich_anexo2`: the checks on a filled Anexo II payload,
    the report-deadline flag and, when nothing is wrong, the placeholders
    and the per-leg rows. Errors accumulate; only an exception the program
    does not catch stops the validation (`Raised`). */
module ValidateAnexo2 {

  import opened Wrappers
  import opened Json
  import opened Dates
  import opened Validation
  import Placeholders
  import Settings

  /** The payload key the legs live under, and the error field of the
      legs block. */
  const Field := "afastamento"
  const LateKey := "prestacao_contas_fora_prazo"
  const JustKey := "justificativa_prestacao_contas_fora_prazo"

  /** `payload.get("afastamento") or {}` is something `.get` works on; when
      it is not, the legs block raises and its `except` reports it. */
  predicate AfastamentoReadable(payload: seq<Member>) {
    LegsReadable(payload, Field)
  }

  /** The `try` block over the legs. Unlike Anexo I's, it also catches an
      `afastamento` that is not a dict, and then leaves the payload alone. */
  function CheckLegs(payload: seq<Member>): (r: LegsStage)
    ensures AllDicts(r.ida) && AllDicts(r.ret) && ValidEnds(r.ends)
    ensures !AfastamentoReadable(payload) ==>
      r.errors == [Error(Field, MsgDatasIdaRetorno)] && r.ends.Unreadable? && r.payload == payload
    ensures AfastamentoReadable(payload) ==> r == ReadLegs(payload, Field, MsgDatasIdaRetorno)
  {
    if !AfastamentoReadable(payload) then
      LegsStage([Error(Field, MsgDatasIdaRetorno)], Unreadable, [], [], payload)
    else
      ReadLegs(payload, Field, MsgDatasIdaRetorno)
  }

  /** The legs block's errors, each present exactly when its condition
      holds. */
  lemma LegsErrors(payload: seq<Member>)
    ensures var r := CheckLegs(payload);
      && (Error(Field + ".ida", MsgSemIda) in r.errors <==> AfastamentoReadable(payload) && r.ida == [])
      && (Error(Field + ".retorno", MsgSemRetorno) in r.errors <==> AfastamentoReadable(payload) && r.ret == [])
      && (Error(Field + ".ida", MsgDataIda) in r.errors <==> AfastamentoReadable(payload) && SomeLegWithoutDate(r.ida))
      && (Error(Field + ".retorno", MsgDataRetorno) in r.errors <==> AfastamentoReadable(payload) && SomeLegWithoutDate(r.ret))
      && (Error(Field, MsgDatasIdaRetorno) in r.errors <==> r.ends.Unreadable?)
      && (Error(Field, MsgRetornoAntesDaIda) in r.errors <==>
            r.ends.Ends? && r.ends.ida.Some? && r.ends.ret.Some? && Before(r.ends.ret.value, r.ends.ida.value))
  {
    if AfastamentoReadable(payload) {
      ReadLegsErrors(payload, Field, MsgDatasIdaRetorno);
    }
  }

  /** No error of the legs block is reported twice. */
  lemma LegsErrorsDistinct(payload: seq<Member>)
    ensures Distinct(CheckLegs(payload).errors)
    ensures forall e :: e in CheckLegs(payload).errors ==> e.field != JustKey
  {
    if AfastamentoReadable(payload) {
      ReadLegsDistinct(payload, Field, MsgDatasIdaRetorno);
      assert |Field + ".ida"| != |JustKey| && |Field + ".retorno"| != |JustKey|;
    }
  }

  /** The flag block. With a return date-time and a report date the flag is
      recomputed as "the report is dated more than five days after the
      return day"; otherwise a flag the caller sent is kept and the default
      is false. An unreadable report date, a limit past the calendar or
      `flags` that is neither empty nor a dict raise. */
  function ReportFlags(payload: seq<Member>, ret: Option<DateTime>): (r: Result<seq<Member>>)
    requires ValidOpt(ret)
    ensures r.Ok? <==>
      && OrEmptyObj(GetOrNull(payload, "flags")).Obj?
      && (ret.Some? && Truthy(GetOrNull(payload, "data_relatorio")) ==>
            PastLimit(GetOrNull(payload, "data_relatorio"), ret.value.date, Settings.PrazoRelatorioDias).Ok?)
    ensures r.Ok? ==> LateKey in Keys(r.value)
    ensures r.Ok? && ret.Some? && Truthy(GetOrNull(payload, "data_relatorio")) ==>
      var late := PastLimit(GetOrNull(payload, "data_relatorio"), ret.value.date, Settings.PrazoRelatorioDias);
      late.Ok? && Lookup(r.value, LateKey) == Some(Bool(late.value))
    ensures r.Ok? && !(ret.Some? && Truthy(GetOrNull(payload, "data_relatorio"))) ==>
      var caller := OrEmptyObj(GetOrNull(payload, "flags")).members;
      Lookup(r.value, LateKey) == (if LateKey in Keys(caller) then Lookup(caller, LateKey) else Some(Bool(false)))
    ensures r.Ok? ==> forall k :: k != LateKey ==> Lookup(r.value, k) == Lookup(OrEmptyObj(GetOrNull(payload, "flags")).members, k)
    ensures !OrEmptyObj(GetOrNull(payload, "flags")).Obj? ==> r.Raised?
  {
    var flags := OrEmptyObj(GetOrNull(payload, "flags"));
    var dr := GetOrNull(payload, "data_relatorio");
    if ret.Some? && Truthy(dr) then
      var late :- PastLimit(dr, ret.value.date, Settings.PrazoRelatorioDias);
      if flags.Obj? then Ok(Assign(flags.members, LateKey, Bool(late))) else Raised
    else if flags.Obj? then Ok(SetDefault(flags.members, LateKey, Bool(false)))
    else Raised
  }

  /** Everything up to `if errors:`. */
  datatype Checked = Checked(errors: seq<Error>, flags: seq<Member>, ida: seq<Value>, ret: seq<Value>, payload: seq<Member>)

  /** The check raises only in the flag block or when a set flag meets a
      justification that is not text. */
  function Check(payload: seq<Member>): (r: Result<Checked>)
    ensures r.Ok? <==>
      var flags := ReportFlags(payload, ReadRet(CheckLegs(payload).ends));
      && flags.Ok?
      && JustificationErrors(GetOrNull(flags.value, LateKey), Obj(payload), JustKey, JustKey, MsgPrestacaoForaDoPrazo).Ok?
    ensures r.Ok? ==> var legs := CheckLegs(payload);
      && r.value.ida == legs.ida && r.value.ret == legs.ret && r.value.payload == legs.payload
      && ReportFlags(payload, ReadRet(legs.ends)) == Ok(r.value.flags)
      && LateKey in Keys(r.value.flags)
    ensures !OrEmptyObj(GetOrNull(payload, "flags")).Obj? ==> r.Raised?
  {
    var legs := CheckLegs(payload);
    var flags :- ReportFlags(payload, ReadRet(legs.ends));
    var just :- JustificationErrors(GetOrNull(flags, LateKey), Obj(payload), JustKey, JustKey, MsgPrestacaoForaDoPrazo);
    Ok(Checked(legs.errors + just, flags, legs.ida, legs.ret, legs.payload))
  }

  /** The two results: `{"ok": False, "errors", "flags"}` and
      `{"ok": True, "flags", "placeholders", "rows"}`. */
  datatype Outcome =
    | Rejected(errors: seq<Error>, flags: seq<Member>)
    | Accepted(flags: seq<Member>, placeholders: Placeholders.Anexo2Placeholders, ida: seq<LegRow>, retorno: seq<LegRow>)

  /** `validate_and_enrich_anexo2`. */
  function Validate(payload: seq<Member>): (r: Result<Outcome>)
    ensures r.Ok? <==>
      && Check(payload).Ok?
      && (Check(payload).value.errors == [] ==>
            Placeholders.BuildAnexo2(Check(payload).value.payload, Check(payload).value.flags).Ok?)
    ensures r.Ok? ==> Check(payload).Ok? && r.value.flags == Check(payload).value.flags
    ensures r.Ok? ==> (r.value.Rejected? <==> Check(payload).value.errors != [])
    ensures r.Ok? && r.value.Accepted? ==>
      && AllDicts(Check(payload).value.ida) && AllDicts(Check(payload).value.ret)
      && r.value.ida == RowsOf(Check(payload).value.ida)
      && r.value.retorno == RowsOf(Check(payload).value.ret)
      && Placeholders.BuildAnexo2(Check(payload).value.payload, r.value.flags) == Ok(r.value.placeholders)
  {
    var c :- Check(payload);
    if c.errors != [] then Ok(Rejected(c.errors, c.flags))
    else
      var placeholders :- Placeholders.BuildAnexo2(c.payload, c.flags);
      Ok(Accepted(c.flags, placeholders, RowsOf(c.ida), RowsOf(c.ret)))
  }

  /** An accepted Anexo II has at least one leg each way, every leg has a
      date-time, the first outbound and the last return read as
      date-times with the return not before the outbound, a late report
      carries a justification, and there is one row per leg. */
  lemma AcceptedMeans(payload: seq<Member>)
    requires Validate(payload).Ok? && Validate(payload).value.Accepted?
    ensures AfastamentoReadable(payload)
    ensures CleanTrip(IdaLegs(payload, Field), RetornoLegs(payload, Field))
    ensures |Validate(payload).value.ida| == |IdaLegs(payload, Field)|
    ensures |Validate(payload).value.retorno| == |RetornoLegs(payload, Field)|
    ensures Truthy(GetOrNull(Validate(payload).value.flags, LateKey)) ==>
      StripOrEmpty(GetOrNull(payload, JustKey)).Ok? && StripOrEmpty(GetOrNull(payload, JustKey)) != Ok("")
  {
    NoLegErrors(payload);
    LegsClean(payload);
    CheckedJustified(payload);
  }

  /** The converse of `AcceptedMeans`: a readable, clean trip whose report
      flag block reads and, when late, comes with a non-blank
      justification passes every check, and is then accepted exactly when
      the placeholders can be built. */
  lemma CleanPasses(payload: seq<Member>)
    requires AfastamentoReadable(payload)
    requires CleanTrip(IdaLegs(payload, Field), RetornoLegs(payload, Field))
    requires var flags := ReportFlags(payload, ReadRet(CheckLegs(payload).ends));
      && flags.Ok?
      && (Truthy(GetOrNull(flags.value, LateKey)) ==>
            StripOrEmpty(GetOrNull(payload, JustKey)).Ok? && StripOrEmpty(GetOrNull(payload, JustKey)) != Ok(""))
    ensures Check(payload).Ok? && Check(payload).value.errors == []
    ensures Validate(payload).Ok? <==>
      Placeholders.BuildAnexo2(Check(payload).value.payload, Check(payload).value.flags).Ok?
    ensures Validate(payload).Ok? ==> Validate(payload).value.Accepted?
  {
    CleanTripNoErrors(payload, Field, MsgDatasIdaRetorno);
    var c := Check(payload).value;
    assert c.errors == [] + JustificationErrors(GetOrNull(c.flags, LateKey), Obj(payload), JustKey, JustKey, MsgPrestacaoForaDoPrazo).value;
  }

  /** A check without errors found none in the legs block. */
  lemma NoLegErrors(payload: seq<Member>)
    requires Check(payload).Ok? && Check(payload).value.errors == []
    ensures CheckLegs(payload).errors == []
  {
    var c := Check(payload).value;
    assert c.errors == CheckLegs(payload).errors + JustificationErrors(GetOrNull(c.flags, LateKey), Obj(payload), JustKey, JustKey, MsgPrestacaoForaDoPrazo).value;
  }

  /** A legs block without errors: the trip is readable and clean, and the
      checked legs are the payload's. */
  lemma LegsClean(payload: seq<Member>)
    requires Check(payload).Ok? && CheckLegs(payload).errors == []
    ensures AfastamentoReadable(payload)
    ensures CleanTrip(IdaLegs(payload, Field), RetornoLegs(payload, Field))
    ensures |Check(payload).value.ida| == |IdaLegs(payload, Field)|
    ensures |Check(payload).value.ret| == |RetornoLegs(payload, Field)|
  {
    LegsErrors(payload);
    assert AfastamentoReadable(payload);
    CleanLegs(payload, Field, MsgDatasIdaRetorno);
  }

  /** A check without errors has a justification whenever the report is
      late. */
  lemma CheckedJustified(payload: seq<Member>)
    requires Check(payload).Ok? && Check(payload).value.errors == []
    ensures Truthy(GetOrNull(Check(payload).value.flags, LateKey)) ==>
      StripOrEmpty(GetOrNull(payload, JustKey)).Ok? && StripOrEmpty(GetOrNull(payload, JustKey)) != Ok("")
  {
    ErrorsMeaning(payload);
  }

  /** The errors of a validation that did not raise: the legs block's
      errors (see `LegsErrors`), then the report justification exactly when
      the flag is set and the text is blank, and none twice. With
      `Validate`'s own contract this says when an Anexo II is rejected. */
  lemma ErrorsMeaning(payload: seq<Member>)
    requires Check(payload).Ok?
    ensures var c := Check(payload).value;
      && (forall e: Error :: e.field != JustKey ==> (e in c.errors <==> e in CheckLegs(payload).errors))
      && (Error(JustKey, MsgPrestacaoForaDoPrazo) in c.errors <==>
            Truthy(GetOrNull(c.flags, LateKey)) && StripOrEmpty(GetOrNull(payload, JustKey)) == Ok(""))
      && Distinct(c.errors)
  {
    var c := Check(payload).value;
    var legs := CheckLegs(payload);
    var just := JustificationErrors(GetOrNull(c.flags, LateKey), Obj(payload), JustKey, JustKey, MsgPrestacaoForaDoPrazo);
    assert just.Ok? && c.errors == legs.errors + just.value;
    LegsErrorsDistinct(payload);
    assert forall e :: e in just.value ==> e.field == JustKey && e !in legs.errors;
    DistinctAppend(legs.errors, just.value);
  }

  /** The accepted payload hands the builder `afastamento` as two lists of
      dicts, whatever shape the legs came in. */
  lemma AcceptedLegsAreLists(payload: seq<Member>)
    requires Check(payload).Ok? && AfastamentoReadable(payload)
    ensures var c := Check(payload).value;
      Lookup(c.payload, Field) == Some(LegsJson(c.ida, c.ret))
      && AllDicts(c.ida) && AllDicts(c.ret)
      && c.ida == IdaLegs(payload, Field) && c.ret == RetornoLegs(payload, Field)
  {
  }

  /** The report flag: recomputed from the two dates when both are known,
      otherwise the caller's value or false. */
  lemma LateFlagRule(payload: seq<Member>)
    requires Check(payload).Ok?
    ensures var flags := Check(payload).value.flags;
      var ends := CheckLegs(payload).ends;
      var dr := GetOrNull(payload, "data_relatorio");
      var caller := OrEmptyObj(GetOrNull(payload, "flags")).members;
      && (ends.Ends? && ends.ret.Some? && Truthy(dr) ==>
            exists d :: ParseDate(dr) == Some(d)
              && (Lookup(flags, LateKey) == Some(Bool(true)) <==> Ordinal(d) > Ordinal(ends.ret.value.date) + Settings.PrazoRelatorioDias))
      && (!(ends.Ends? && ends.ret.Some? && Truthy(dr)) ==>
            Lookup(flags, LateKey) == (if LateKey in Keys(caller) then Lookup(caller, LateKey) else Some(Bool(false))))
  {
    var ends := CheckLegs(payload).ends;
    var dr := GetOrNull(payload, "data_relatorio");
    if ends.Ends? && ends.ret.Some? && Truthy(dr) {
      var d := ParseDate(dr).value;
      assert ParseDate(dr) == Some(d);
    }
  }
}
