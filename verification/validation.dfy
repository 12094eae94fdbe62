/** What the server-side validators of Anexo I and Anexo II have in common:
    their error records and messages, the checks on the leg lists, reading
    the first outbound and last return date-times, the mission window, the
    deadline comparison on day ordinals, the conditional-justification
    errors and the per-leg row maps handed to the renderer. Each validator
    file of the program carries its own copy of these helpers; they are the
    same code and are modelled once. */
module Validation {

  import opened Wrappers
  import opened Json
  import opened Text
  import opened Dates
  import Placeholders
  import Settings

  /** `{"field": ..., "message": ...}`. */
  datatype Error = Error(field: string, message: string)

  const MsgTipo := "Selecione o tipo de solicitação."
  const MsgDataSolicitacao := "Informe a data da solicitação."
  const MsgSemIda := "Informe ao menos um trecho de ida."
  const MsgSemRetorno := "Informe ao menos um trecho de retorno."
  const MsgDataIda := "Informe datas/horas válidas para todos os trechos de ida."
  const MsgDataRetorno := "Informe datas/horas válidas para todos os trechos de retorno."
  const MsgRetornoAntesDaIda := "A data/hora de retorno não pode ser anterior à ida."
  const MsgDatasIdaRetorno := "Informe datas/horas válidas para ida e retorno."
  const MsgDatasTrechos := "Informe datas/horas válidas para os trechos de ida e retorno."
  const MsgTerminoAntesDoInicio := "O término da missão não pode ser anterior ao início."
  const MsgInicioAntesDaPartida := "O início da missão não pode ser anterior à partida."
  const MsgTerminoDepoisDoRetorno := "O término da missão não pode ser posterior ao retorno."
  const MsgMissao := "Informe datas/horas válidas para o período da missão."
  const MsgForaDoPrazo := "Solicitação fora do prazo. Informe a justificativa."
  const MsgFds := "Informe a justificativa para viagem em fim de semana/feriado ou saída no dia anterior."
  const MsgPrestacaoForaDoPrazo := "Prestação de contas fora do prazo. Informe a justificativa."

  predicate AllDicts(legs: seq<Value>) {
    forall i :: 0 <= i < |legs| ==> legs[i].Obj?
  }

  /** No error is reported twice. */
  predicate Distinct(errors: seq<Error>) {
    forall i, j :: 0 <= i < j < |errors| ==> errors[i] != errors[j]
  }

  lemma DistinctAppend(a: seq<Error>, b: seq<Error>)
    requires Distinct(a) && Distinct(b)
    requires forall e :: e in b ==> e !in a
    ensures Distinct(a + b)
  {
    forall i, j | 0 <= i < j < |a + b|
      ensures (a + b)[i] != (a + b)[j]
    {
      if j < |a| {
        assert (a + b)[i] == a[i] && (a + b)[j] == a[j];
      } else if i >= |a| {
        assert (a + b)[i] == b[i - |a|] && (a + b)[j] == b[j - |a|];
      } else {
        assert (a + b)[i] in a && (a + b)[j] in b;
      }
    }
  }

  /* ---------------------------------------------------------------------- */
  /* Leg lists                                                               */
  /* ---------------------------------------------------------------------- */

  /** A leg whose `data_hora` is missing or empty. */
  predicate NoDate(t: Value)
    requires t.Obj?
  {
    !Truthy(GetOrNull(t.members, "data_hora"))
  }

  predicate SomeLegWithoutDate(legs: seq<Value>)
    requires AllDicts(legs)
  {
    exists i :: 0 <= i < |legs| && NoDate(legs[i])
  }

  /** The loop `for t in legs: if not t.get("data_hora"): ...; break`: it
      stops at the first leg without a date-time, so it reports at most
      once, and it reports exactly when such a leg exists. */
  method FindLegWithoutDate(legs: seq<Value>) returns (found: bool)
    requires AllDicts(legs)
    ensures found <==> SomeLegWithoutDate(legs)
  {
    found := false;
    var i := 0;
    while i < |legs|
      invariant 0 <= i <= |legs|
      invariant forall k :: 0 <= k < i ==> !NoDate(legs[k])
    {
      if NoDate(legs[i]) {
        found := true;
        break;
      }
      i := i + 1;
    }
  }

  /** The checks on the normalised leg lists, in the program's order: an
      empty list per direction, then a leg without date-time per direction.
      `prefix` is the payload key the lists live under. */
  function LegListErrors(prefix: string, ida: seq<Value>, ret: seq<Value>): (r: seq<Error>)
    requires AllDicts(ida) && AllDicts(ret)
    ensures (Error(prefix + ".ida", MsgSemIda) in r) <==> ida == []
    ensures (Error(prefix + ".retorno", MsgSemRetorno) in r) <==> ret == []
    ensures (Error(prefix + ".ida", MsgDataIda) in r) <==> SomeLegWithoutDate(ida)
    ensures (Error(prefix + ".retorno", MsgDataRetorno) in r) <==> SomeLegWithoutDate(ret)
    ensures Distinct(r)
    ensures forall e :: e in r ==> e.message in {MsgSemIda, MsgSemRetorno, MsgDataIda, MsgDataRetorno}
    ensures forall e :: e in r ==> e.field == prefix + ".ida" || e.field == prefix + ".retorno"
  {
    (if ida == [] then [Error(prefix + ".ida", MsgSemIda)] else [])
    + (if ret == [] then [Error(prefix + ".retorno", MsgSemRetorno)] else [])
    + (if SomeLegWithoutDate(ida) then [Error(prefix + ".ida", MsgDataIda)] else [])
    + (if SomeLegWithoutDate(ret) then [Error(prefix + ".retorno", MsgDataRetorno)] else [])
  }

  /** The legs stored back into the payload: `{"ida": [...], "retorno": [...]}`. */
  function LegsJson(ida: seq<Value>, ret: seq<Value>): (r: Value)
    ensures r.Obj? && Keys(r.members) == ["ida", "retorno"]
    ensures Lookup(r.members, "ida") == Some(Arr(ida)) && Lookup(r.members, "retorno") == Some(Arr(ret))
  {
    Obj([Member("ida", Arr(ida)), Member("retorno", Arr(ret))])
  }

  /* ---------------------------------------------------------------------- */
  /* Date-times                                                              */
  /* ---------------------------------------------------------------------- */

  predicate ValidOpt(t: Option<DateTime>) {
    t.None? || ValidDateTime(t.value)
  }

  /** `_parse_dt(v)`: `None` where Python raises (not a string, or not a
      date-time it reads). */
  function ParseDt(v: Value): (r: Option<DateTime>)
    ensures r.Some? ==> v.Str? && ParseIsoDateTime(v.s) == r
    ensures v.Str? ==> r == ParseIsoDateTime(v.s)
    ensures ValidOpt(r)
  {
    if v.Str? then ParseIsoDateTime(v.s) else None
  }

  /** `_parse_dt(leg["data_hora"])`; `None` also for a missing key. */
  function LegDate(t: Value): (r: Option<DateTime>)
    ensures r.Some? ==> t.Obj? && Lookup(t.members, "data_hora").Some?
    ensures ValidOpt(r)
  {
    match Index(t, "data_hora")
    case Ok(v) => ParseDt(v)
    case Raised => None
  }

  /** The outcome of the `try` block that reads the trip's ends: either it
      raised, or the outbound and return date-times it read (`None` for a
      direction without legs). */
  datatype Ends = Unreadable | Ends(ida: Option<DateTime>, ret: Option<DateTime>)

  /** The first outbound leg and the last return leg are read, in that
      order; a failure in either makes the whole block fail. */
  function EndsOf(ida: seq<Value>, ret: seq<Value>): (r: Ends)
    ensures r.Unreadable? <==> (ida != [] && LegDate(ida[0]).None?) || (ret != [] && LegDate(ret[|ret| - 1]).None?)
    ensures r.Ends? ==> (r.ida.Some? <==> ida != []) && (r.ret.Some? <==> ret != [])
    ensures r.Ends? && ida != [] ==> r.ida == LegDate(ida[0])
    ensures r.Ends? && ret != [] ==> r.ret == LegDate(ret[|ret| - 1])
    ensures ValidEnds(r)
  {
    var first := if ida == [] then Some(None) else if LegDate(ida[0]).Some? then Some(LegDate(ida[0])) else None;
    var last := if ret == [] then Some(None) else if LegDate(ret[|ret| - 1]).Some? then Some(LegDate(ret[|ret| - 1])) else None;
    if first.None? || last.None? then Unreadable else Ends(first.value, last.value)
  }

  /** `if ida and ret and ret < ida`. */
  function OrderErrors(field: string, ida: Option<DateTime>, ret: Option<DateTime>): (r: seq<Error>)
    requires ValidOpt(ida) && ValidOpt(ret)
    ensures r != [] <==> ida.Some? && ret.Some? && Before(ret.value, ida.value)
    ensures forall e :: e in r ==> e == Error(field, MsgRetornoAntesDaIda)
  {
    if ida.Some? && ret.Some? && Before(ret.value, ida.value) then [Error(field, MsgRetornoAntesDaIda)] else []
  }

  predicate ValidEnds(e: Ends) {
    e.Unreadable? || (ValidOpt(e.ida) && ValidOpt(e.ret))
  }

  /** The ends as the rest of the validator sees them: cleared when the
      block failed. */
  function ReadIda(e: Ends): (r: Option<DateTime>)
    requires ValidEnds(e)
    ensures e.Unreadable? ==> r.None?
    ensures ValidOpt(r)
  {
    if e.Unreadable? then None else e.ida
  }

  function ReadRet(e: Ends): (r: Option<DateTime>)
    requires ValidEnds(e)
    ensures e.Unreadable? ==> r.None?
    ensures ValidOpt(r)
  {
    if e.Unreadable? then None else e.ret
  }

  /** The errors of the ends block: the ordering error, or the block's own
      error when it raised. */
  function EndsErrors(field: string, failMessage: string, e: Ends): (r: seq<Error>)
    requires ValidEnds(e)
    ensures e.Unreadable? ==> r == [Error(field, failMessage)]
    ensures e.Ends? ==> r == OrderErrors(field, e.ida, e.ret)
  {
    if e.Unreadable? then [Error(field, failMessage)] else OrderErrors(field, e.ida, e.ret)
  }

  /* ---------------------------------------------------------------------- */
  /* The legs block                                                          */
  /* ---------------------------------------------------------------------- */

  /** `payload.get(key) or {}` is something `.get` works on. */
  predicate LegsReadable(payload: seq<Member>, key: string) {
    OrEmptyObj(GetOrNull(payload, key)).Obj?
  }

  /** `_normalize_trecho_list(legs.get("ida"))`. */
  function IdaLegs(payload: seq<Member>, key: string): (r: seq<Value>)
    requires LegsReadable(payload, key)
    ensures AllDicts(r)
  {
    Placeholders.NormalizeTrechos(GetOrNull(OrEmptyObj(GetOrNull(payload, key)).members, "ida"))
  }

  /** `_normalize_trecho_list(legs.get("retorno"))`. */
  function RetornoLegs(payload: seq<Member>, key: string): (r: seq<Value>)
    requires LegsReadable(payload, key)
    ensures AllDicts(r)
  {
    Placeholders.NormalizeTrechos(GetOrNull(OrEmptyObj(GetOrNull(payload, key)).members, "retorno"))
  }

  /** What the legs block leaves behind: its errors, the ends it read, the
      normalised lists and the payload with the legs rewritten. */
  datatype LegsStage = LegsStage(errors: seq<Error>, ends: Ends, ida: seq<Value>, ret: seq<Value>, payload: seq<Member>)

  /** The legs block on a readable `payload[key]`: normalise both lists,
      store them back as `{"ida": [...], "retorno": [...]}`, check the
      lists, then read the ends; `failMessage` is the error when that
      read fails. */
  function ReadLegs(payload: seq<Member>, key: string, failMessage: string): (r: LegsStage)
    requires LegsReadable(payload, key)
    ensures r.ida == IdaLegs(payload, key) && r.ret == RetornoLegs(payload, key)
    ensures r.ends == EndsOf(r.ida, r.ret) && ValidEnds(r.ends)
    ensures Lookup(r.payload, key) == Some(LegsJson(r.ida, r.ret))
    ensures forall k :: k != key ==> Lookup(r.payload, k) == Lookup(payload, k)
  {
    var ida := IdaLegs(payload, key);
    var ret := RetornoLegs(payload, key);
    var ends := EndsOf(ida, ret);
    LegsStage(LegListErrors(key, ida, ret) + EndsErrors(key, failMessage, ends),
              ends, ida, ret, Assign(payload, key, LegsJson(ida, ret)))
  }

  /** The two halves of the legs block's errors do not overlap: the list
      errors are under `key.ida`/`key.retorno`, the ends errors under
      `key`. */
  lemma ReadLegsSplit(payload: seq<Member>, key: string, failMessage: string)
    requires LegsReadable(payload, key)
    ensures var r := ReadLegs(payload, key, failMessage);
      var a := LegListErrors(key, r.ida, r.ret);
      var b := EndsErrors(key, failMessage, r.ends);
      && r.errors == a + b
      && (forall e :: e in b ==> e.field == key && e !in a)
      && (forall e :: e in a ==> e.field != key)
  {
    var r := ReadLegs(payload, key, failMessage);
    var a := LegListErrors(key, r.ida, r.ret);
    assert |key + ".ida"| != |key| && |key + ".retorno"| != |key|;
    assert forall e :: e in a ==> e.field != key;
  }

  /** Each error of the legs block is present exactly when its condition
      holds; the ordering error and the read error exclude each other. */
  lemma ReadLegsErrors(payload: seq<Member>, key: string, failMessage: string)
    requires LegsReadable(payload, key)
    requires failMessage != MsgRetornoAntesDaIda
    ensures var r := ReadLegs(payload, key, failMessage);
      && (Error(key + ".ida", MsgSemIda) in r.errors <==> r.ida == [])
      && (Error(key + ".retorno", MsgSemRetorno) in r.errors <==> r.ret == [])
      && (Error(key + ".ida", MsgDataIda) in r.errors <==> SomeLegWithoutDate(r.ida))
      && (Error(key + ".retorno", MsgDataRetorno) in r.errors <==> SomeLegWithoutDate(r.ret))
      && (Error(key, failMessage) in r.errors <==> r.ends.Unreadable?)
      && (Error(key, MsgRetornoAntesDaIda) in r.errors <==>
            r.ends.Ends? && r.ends.ida.Some? && r.ends.ret.Some? && Before(r.ends.ret.value, r.ends.ida.value))
  {
    ReadLegsSplit(payload, key, failMessage);
  }

  /** No error of the legs block is reported twice, and all of them are
      under `key`, `key.ida` or `key.retorno`. */
  lemma ReadLegsDistinct(payload: seq<Member>, key: string, failMessage: string)
    requires LegsReadable(payload, key)
    ensures var r := ReadLegs(payload, key, failMessage);
      && Distinct(r.errors)
      && forall e :: e in r.errors ==> e.field == key || e.field == key + ".ida" || e.field == key + ".retorno"
  {
    var r := ReadLegs(payload, key, failMessage);
    ReadLegsSplit(payload, key, failMessage);
    DistinctAppend(LegListErrors(key, r.ida, r.ret), EndsErrors(key, failMessage, r.ends));
  }

  /** What a legs block without errors has read: legs in both directions,
      a date-time on every leg, and a first outbound and a last return
      that read as date-times, the return not before the outbound. */
  predicate CleanTrip(ida: seq<Value>, ret: seq<Value>)
    requires AllDicts(ida) && AllDicts(ret)
  {
    && ida != [] && ret != []
    && !SomeLegWithoutDate(ida) && !SomeLegWithoutDate(ret)
    && LegDate(ida[0]).Some? && LegDate(ret[|ret| - 1]).Some?
    && !Before(LegDate(ret[|ret| - 1]).value, LegDate(ida[0]).value)
  }

  /** A legs block without errors read a clean trip, and its ends are the
      trip's first departure and last arrival. */
  lemma CleanLegs(payload: seq<Member>, key: string, failMessage: string)
    requires LegsReadable(payload, key) && failMessage != MsgRetornoAntesDaIda
    requires ReadLegs(payload, key, failMessage).errors == []
    ensures CleanTrip(IdaLegs(payload, key), RetornoLegs(payload, key))
    ensures var ends := ReadLegs(payload, key, failMessage).ends;
      var ida := IdaLegs(payload, key);
      var ret := RetornoLegs(payload, key);
      ends.Ends? && ends.ida == LegDate(ida[0]) && ends.ret == LegDate(ret[|ret| - 1])
  {
    ReadLegsErrors(payload, key, failMessage);
  }

  /** The converse of `CleanLegs`: the legs block finds nothing wrong with
      a clean trip, and its ends are the trip's first departure and last
      arrival. */
  lemma CleanTripNoErrors(payload: seq<Member>, key: string, failMessage: string)
    requires LegsReadable(payload, key)
    requires CleanTrip(IdaLegs(payload, key), RetornoLegs(payload, key))
    ensures var ida := IdaLegs(payload, key);
      var ret := RetornoLegs(payload, key);
      && ReadLegs(payload, key, failMessage).errors == []
      && ReadLegs(payload, key, failMessage).ends == Ends(LegDate(ida[0]), LegDate(ret[|ret| - 1]))
  {
    var ida := IdaLegs(payload, key);
    var ret := RetornoLegs(payload, key);
    assert LegListErrors(key, ida, ret) == [];
    assert EndsErrors(key, failMessage, EndsOf(ida, ret)) == [];
  }

  /* ---------------------------------------------------------------------- */
  /* Mission window                                                          */
  /* ---------------------------------------------------------------------- */

  /** `_parse_dt(payload["missao"][key])`: `None` where any step raises. */
  function MissionDate(payload: seq<Member>, key: string): (r: Option<DateTime>)
    ensures r.Some? ==> At(Obj(payload), ["missao", key]).Some?
    ensures ValidOpt(r)
  {
    match Index(Obj(payload), "missao")
    case Raised => None
    case Ok(m) =>
      match Index(m, key)
      case Raised => None
      case Ok(v) =>
        var r := ParseDt(v);
        assert At(Obj(payload), ["missao", key]) == At(m, [key]) by {
          assert ["missao", key][1..] == [key];
        }
        AtKey(m, key);
        r
  }

  /** The mission checks: an unreadable start or end gives only the
      block's error; otherwise the end before the start, the start before
      the departure and the end after the return each add their own. */
  function MissionErrors(payload: seq<Member>, ida: Option<DateTime>, ret: Option<DateTime>): (r: seq<Error>)
    requires ValidOpt(ida) && ValidOpt(ret)
    ensures MissionDate(payload, "inicio_data_hora").None? || MissionDate(payload, "termino_data_hora").None?
      ==> r == [Error("missao", MsgMissao)]
    ensures forall e :: e in r ==> e.field == "missao"
    ensures |r| <= 3
    ensures forall i, j :: 0 <= i < j < |r| ==> r[i] != r[j]
    ensures MissionDate(payload, "inicio_data_hora").Some? && MissionDate(payload, "termino_data_hora").Some? ==>
      var mi := MissionDate(payload, "inicio_data_hora").value;
      var mt := MissionDate(payload, "termino_data_hora").value;
      && (Error("missao", MsgTerminoAntesDoInicio) in r <==> Before(mt, mi))
      && (Error("missao", MsgInicioAntesDaPartida) in r <==> ida.Some? && Before(mi, ida.value))
      && (Error("missao", MsgTerminoDepoisDoRetorno) in r <==> ret.Some? && Before(ret.value, mt))
      && Error("missao", MsgMissao) !in r
  {
    var mi := MissionDate(payload, "inicio_data_hora");
    var mt := MissionDate(payload, "termino_data_hora");
    if mi.None? || mt.None? then [Error("missao", MsgMissao)]
    else
      MissionChecks(Before(mt.value, mi.value), ida.Some? && Before(mi.value, ida.value),
                    ret.Some? && Before(ret.value, mt.value))
  }

  /** The three ordering checks of a readable mission, each adding its own
      error when it fails. */
  function MissionChecks(endFirst: bool, early: bool, late: bool): (r: seq<Error>)
    ensures forall e :: e in r ==> e.field == "missao"
    ensures |r| <= 3
    ensures forall i, j :: 0 <= i < j < |r| ==> r[i] != r[j]
    ensures Error("missao", MsgTerminoAntesDoInicio) in r <==> endFirst
    ensures Error("missao", MsgInicioAntesDaPartida) in r <==> early
    ensures Error("missao", MsgTerminoDepoisDoRetorno) in r <==> late
    ensures Error("missao", MsgMissao) !in r
  {
    var a := if endFirst then [Error("missao", MsgTerminoAntesDoInicio)] else [];
    var b := if early then [Error("missao", MsgInicioAntesDaPartida)] else [];
    var c := if late then [Error("missao", MsgTerminoDepoisDoRetorno)] else [];
    assert |MsgTerminoAntesDoInicio| == 52 && |MsgInicioAntesDaPartida| == 51;
    assert |MsgTerminoDepoisDoRetorno| == 54 && |MsgMissao| == 53;
    a + b + c
  }

  /** The mission's start and end read as date-times, in order, and inside
      the trip that `ida` and `ret` bound. */
  predicate MissionInside(payload: seq<Member>, ida: DateTime, ret: DateTime)
    requires ValidDateTime(ida) && ValidDateTime(ret)
  {
    var mi := MissionDate(payload, "inicio_data_hora");
    var mt := MissionDate(payload, "termino_data_hora");
    && mi.Some? && mt.Some?
    && !Before(mt.value, mi.value)
    && !Before(mi.value, ida)
    && !Before(ret, mt.value)
  }

  /** A mission block without errors found the mission inside the trip. */
  lemma CleanMission(payload: seq<Member>, ida: DateTime, ret: DateTime)
    requires ValidDateTime(ida) && ValidDateTime(ret)
    requires MissionErrors(payload, Some(ida), Some(ret)) == []
    ensures MissionInside(payload, ida, ret)
  {
  }

  /** The converse of `CleanMission`: a mission inside the trip raises no
      mission error. */
  lemma MissionInsideNoErrors(payload: seq<Member>, ida: DateTime, ret: DateTime)
    requires ValidDateTime(ida) && ValidDateTime(ret)
    requires MissionInside(payload, ida, ret)
    ensures MissionErrors(payload, Some(ida), Some(ret)) == []
  {
    assert MissionChecks(false, false, false) == [];
  }

  /* ---------------------------------------------------------------------- */
  /* Deadlines                                                               */
  /* ---------------------------------------------------------------------- */

  /** `date.fromisoformat(v)`; `None` where Python raises. */
  function ParseDate(v: Value): (r: Option<Date>)
    ensures r.Some? ==> v.Str? && ValidDate(r.value)
  {
    if v.Str? then ParseIsoDate(v.s) else None
  }

  /** `d + timedelta(days=n)` as a day ordinal; `None` where Python raises
      `OverflowError` (the result would fall outside years 1 to 9999). */
  function ShiftDays(d: Date, n: int): (r: Option<int>)
    requires ValidDate(d)
    ensures r.Some? <==> 1 <= Ordinal(d) + n <= MaxOrdinal
    ensures r.Some? ==> r.value == Ordinal(d) + n
  {
    if 1 <= Ordinal(d) + n <= MaxOrdinal then Some(Ordinal(d) + n) else None
  }

  /** `date.fromisoformat(filed) > base + timedelta(days=offset)`: whether
      a date is past a limit `offset` days from `base`. Raises for an
      unreadable date or a limit outside the calendar. */
  function PastLimit(filed: Value, base: Date, offset: int): (r: Result<bool>)
    requires ValidDate(base)
    ensures r.Ok? <==> ParseDate(filed).Some? && ShiftDays(base, offset).Some?
    ensures r.Ok? ==> (r.value <==> Ordinal(ParseDate(filed).value) - Ordinal(base) > offset)
  {
    var d := ParseDate(filed);
    if d.None? then Raised
    else
      var limit := ShiftDays(base, offset);
      if limit.None? then Raised else Ok(Ordinal(d.value) > limit.value)
  }

  /** `tipo in ("passagens", "diarias_e_passagens")`. */
  predicate WithPassagens(tipo: Value) {
    tipo == Str("passagens") || tipo == Str("diarias_e_passagens")
  }

  /** The request deadline: 30 days ahead with air tickets, 10 without. */
  function Prazo(tipo: Value): (r: int)
    ensures WithPassagens(tipo) ==> r == Settings.PrazoComPassagensDias
    ensures !WithPassagens(tipo) ==> r == Settings.PrazoSemPassagensDias
  {
    if WithPassagens(tipo) then Settings.PrazoComPassagensDias else Settings.PrazoSemPassagensDias
  }

  /** Saturday or Sunday. */
  predicate IsWeekend(d: Date)
    requires ValidDate(d)
  {
    Weekday(d) == 5 || Weekday(d) == 6
  }

  /* ---------------------------------------------------------------------- */
  /* Justifications                                                          */
  /* ---------------------------------------------------------------------- */

  /** `if flag and not (just.get(key) or "").strip(): errors.append(...)`:
      the text is looked at only when the flag is set, and only then can a
      non-dict `just` or a non-text value raise. */
  function JustificationErrors(flag: Value, just: Value, key: string, field: string, message: string): (r: Result<seq<Error>>)
    ensures !Truthy(flag) ==> r == Ok([])
    ensures r.Raised? <==> Truthy(flag) && (!just.Obj? || StripOrEmpty(GetOrNull(just.members, key)).Raised?)
    ensures r.Ok? && Truthy(flag) ==>
      (r.value == [Error(field, message)] <==> StripOrEmpty(GetOrNull(just.members, key)) == Ok(""))
    ensures r.Ok? ==> r.value == [] || r.value == [Error(field, message)]
  {
    if !Truthy(flag) then Ok([])
    else if !just.Obj? then Raised
    else
      var text :- StripOrEmpty(GetOrNull(just.members, key));
      Ok(if text == "" then [Error(field, message)] else [])
  }

  /** A justification of blanks only counts as missing. */
  lemma BlankJustificationMissing(flag: Value, just: seq<Member>, key: string, field: string, message: string)
    requires Truthy(flag) && DistinctKeys(just)
    requires key in Keys(just) && Lookup(just, key) == Some(Str("  \t "))
    ensures JustificationErrors(flag, Obj(just), key, field, message) == Ok([Error(field, message)])
  {
    var s := "  \t ";
    assert Strip(s) == "" by {
      assert DropLeading(s, IsPyWhitespace) == "";
    }
  }

  /* ---------------------------------------------------------------------- */
  /* Rows                                                                    */
  /* ---------------------------------------------------------------------- */

  /** One per-leg row: `t.get("origem") or ""`, `t.get("destino") or ""`
      and the formatted date-time. */
  datatype LegRow = LegRow(origem: Value, destino: Value, dataHora: string)

  /** The rows of one direction: one per leg, in the legs' order. */
  function RowsOf(legs: seq<Value>): (r: seq<LegRow>)
    requires AllDicts(legs)
    ensures |r| == |legs|
    ensures forall i :: 0 <= i < |legs| ==>
      && (r[i].origem == GetOrNull(legs[i].members, "origem") || r[i].origem == Str(""))
      && (r[i].destino == GetOrNull(legs[i].members, "destino") || r[i].destino == Str(""))
      && (Truthy(GetOrNull(legs[i].members, "origem")) ==> r[i].origem == GetOrNull(legs[i].members, "origem"))
      && (Truthy(GetOrNull(legs[i].members, "destino")) ==> r[i].destino == GetOrNull(legs[i].members, "destino"))
      && (!Truthy(GetOrNull(legs[i].members, "origem")) ==> r[i].origem == Str(""))
      && (!Truthy(GetOrNull(legs[i].members, "destino")) ==> r[i].destino == Str(""))
      && r[i].dataHora == Placeholders.FmtDtOpt(GetOrNull(legs[i].members, "data_hora"))
  {
    seq(|legs|, i requires 0 <= i < |legs| =>
      LegRow(OrEmptyStr(GetOrNull(legs[i].members, "origem")),
             OrEmptyStr(GetOrNull(legs[i].members, "destino")),
             Placeholders.FmtDtOpt(GetOrNull(legs[i].members, "data_hora"))))
  }

  /** A row's texts as the renderer's map for one direction
      (`ida_origem`, `ida_destino`, `ida_data_hora`, or the `retorno_`
      ones); a non-text origin or destination has no such map. */
  function RowMapping(direction: string, row: LegRow): (r: Option<seq<(string, string)>>)
    ensures r.Some? <==> row.origem.Str? && row.destino.Str?
    ensures r.Some? ==> |r.value| == 3 && r.value[2] == (direction + "_data_hora", row.dataHora)
  {
    if row.origem.Str? && row.destino.Str? then
      Some([(direction + "_origem", row.origem.s), (direction + "_destino", row.destino.s),
            (direction + "_data_hora", row.dataHora)])
    else None
  }
}
