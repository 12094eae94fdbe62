/** The parts of `validate_and_enrich_anexo1` that the application's and the
    wizard's copies share word for word: the request header checks, the two
    request flags and the two conditional justifications. */
module RequestChecks {

  import opened Wrappers
  import opened Json
  import opened Dates
  import opened Validation

  const LateKey := "fora_do_prazo"
  const WeekendKey := "envolve_fds_feriado_ou_dia_anterior"
  const LateJustKey := "justificativa_fora_prazo"
  const WeekendJustKey := "justificativa_fds_feriado_dia_anterior"
  const LateJustField := "justificativas.justificativa_fora_prazo"
  const WeekendJustField := "justificativas.justificativa_fds_feriado_dia_anterior"

  /** The three request kinds the form offers. */
  predicate KnownTipo(tipo: Value) {
    tipo == Str("diarias") || tipo == Str("passagens") || tipo == Str("diarias_e_passagens")
  }

  /** The request kind and the filing date must be present. */
  function HeaderErrors(payload: seq<Member>): (r: seq<Error>)
    ensures Error("tipo_solicitacao", MsgTipo) in r <==> !KnownTipo(GetOrNull(payload, "tipo_solicitacao"))
    ensures Error("data_solicitacao", MsgDataSolicitacao) in r <==> !Truthy(GetOrNull(payload, "data_solicitacao"))
    ensures |r| <= 2 && Distinct(r)
    ensures forall e :: e in r ==> e.field == "tipo_solicitacao" || e.field == "data_solicitacao"
  {
    (if KnownTipo(GetOrNull(payload, "tipo_solicitacao")) then [] else [Error("tipo_solicitacao", MsgTipo)])
    + (if Truthy(GetOrNull(payload, "data_solicitacao")) then [] else [Error("data_solicitacao", MsgDataSolicitacao)])
  }

  /** The flag block. With an outbound date-time and a filing date,
      `fora_do_prazo` is recomputed as "filed later than the deadline
      before the outbound day" (30 days with air tickets, 10 without);
      otherwise the caller's value is kept, defaulting to false. The
      weekend flag is only a default: the caller's value always wins, and
      otherwise it says whether the outbound trip starts on a Saturday or
      Sunday. An unreadable filing date, a limit before the first day of
      the calendar or `flags` that is neither empty nor a dict raise. */
  function RequestFlags(payload: seq<Member>, ida: Option<DateTime>): (r: Result<seq<Member>>)
    requires ValidOpt(ida)
    ensures !OrEmptyObj(GetOrNull(payload, "flags")).Obj? ==> r.Raised?
    ensures r.Ok? <==> OrEmptyObj(GetOrNull(payload, "flags")).Obj? && LateReadable(payload, ida)
    ensures r.Ok? ==> LateKey in Keys(r.value) && WeekendKey in Keys(r.value)
    ensures r.Ok? && ida.Some? && Truthy(GetOrNull(payload, "data_solicitacao")) ==>
      var late := PastLimit(GetOrNull(payload, "data_solicitacao"), ida.value.date, -Prazo(GetOrNull(payload, "tipo_solicitacao")));
      late.Ok? && Lookup(r.value, LateKey) == Some(Bool(late.value))
    ensures r.Ok? && !(ida.Some? && Truthy(GetOrNull(payload, "data_solicitacao"))) ==>
      var caller := OrEmptyObj(GetOrNull(payload, "flags")).members;
      Lookup(r.value, LateKey) == (if LateKey in Keys(caller) then Lookup(caller, LateKey) else Some(Bool(false)))
    ensures r.Ok? ==>
      var caller := OrEmptyObj(GetOrNull(payload, "flags")).members;
      Lookup(r.value, WeekendKey) ==
        (if WeekendKey in Keys(caller) then Lookup(caller, WeekendKey) else Some(Bool(ida.Some? && IsWeekend(ida.value.date))))
    ensures r.Ok? ==> forall k :: k != LateKey && k != WeekendKey ==>
      Lookup(r.value, k) == Lookup(OrEmptyObj(GetOrNull(payload, "flags")).members, k)
  {
    var withLate :- LateFlag(payload, ida);
    Ok(SetDefault(withLate, WeekendKey, Bool(ida.Some? && IsWeekend(ida.value.date))))
  }

  /** The deadline comparison does not raise: it is only made with an
      outbound date-time and a filing date, and then needs a readable
      filing date and a limit inside the calendar. */
  predicate LateReadable(payload: seq<Member>, ida: Option<DateTime>)
    requires ValidOpt(ida)
  {
    ida.Some? && Truthy(GetOrNull(payload, "data_solicitacao")) ==>
      PastLimit(GetOrNull(payload, "data_solicitacao"), ida.value.date, -Prazo(GetOrNull(payload, "tipo_solicitacao"))).Ok?
  }

  /** The `fora_do_prazo` half of the flag block. */
  function LateFlag(payload: seq<Member>, ida: Option<DateTime>): (r: Result<seq<Member>>)
    requires ValidOpt(ida)
    ensures r.Ok? <==> OrEmptyObj(GetOrNull(payload, "flags")).Obj? && LateReadable(payload, ida)
    ensures r.Ok? ==> forall k :: k != LateKey ==>
      Lookup(r.value, k) == Lookup(OrEmptyObj(GetOrNull(payload, "flags")).members, k)
  {
    var flags := OrEmptyObj(GetOrNull(payload, "flags"));
    var ds := GetOrNull(payload, "data_solicitacao");
    if ida.Some? && Truthy(ds) then
      var late :- PastLimit(ds, ida.value.date, -Prazo(GetOrNull(payload, "tipo_solicitacao")));
      if flags.Obj? then Ok(Assign(flags.members, LateKey, Bool(late))) else Raised
    else if flags.Obj? then Ok(SetDefault(flags.members, LateKey, Bool(false)))
    else Raised
  }

  /** The two justifications, read from `payload.get("justificativas") or
      {}`, each demanded only when its flag is set. */
  function JustificationsErrors(payload: seq<Member>, flags: seq<Member>): (r: Result<seq<Error>>)
    ensures r.Ok? <==>
      var just := OrEmptyObj(GetOrNull(payload, "justificativas"));
      && JustificationErrors(GetOrNull(flags, LateKey), just, LateJustKey, LateJustField, MsgForaDoPrazo).Ok?
      && JustificationErrors(GetOrNull(flags, WeekendKey), just, WeekendJustKey, WeekendJustField, MsgFds).Ok?
    ensures r.Ok? ==> |r.value| <= 2
    ensures !Truthy(GetOrNull(flags, LateKey)) && !Truthy(GetOrNull(flags, WeekendKey)) ==> r == Ok([])
  {
    var just := OrEmptyObj(GetOrNull(payload, "justificativas"));
    var late :- JustificationErrors(GetOrNull(flags, LateKey), just, LateJustKey, LateJustField, MsgForaDoPrazo);
    var weekend :- JustificationErrors(GetOrNull(flags, WeekendKey), just, WeekendJustKey, WeekendJustField, MsgFds);
    Ok(late + weekend)
  }

  /** Each justification error is present exactly when its flag is set and
      its text is blank; neither is reported twice. */
  lemma JustificationsMeaning(payload: seq<Member>, flags: seq<Member>)
    requires JustificationsErrors(payload, flags).Ok?
    ensures var r := JustificationsErrors(payload, flags).value;
      var just := OrEmptyObj(GetOrNull(payload, "justificativas"));
      && (Error(LateJustField, MsgForaDoPrazo) in r <==>
            Truthy(GetOrNull(flags, LateKey)) && just.Obj? && StripOrEmpty(GetOrNull(just.members, LateJustKey)) == Ok(""))
      && (Error(WeekendJustField, MsgFds) in r <==>
            Truthy(GetOrNull(flags, WeekendKey)) && just.Obj? && StripOrEmpty(GetOrNull(just.members, WeekendJustKey)) == Ok(""))
      && Distinct(r)
      && (forall e :: e in r ==> e.field == LateJustField || e.field == WeekendJustField)
  {
    var just := OrEmptyObj(GetOrNull(payload, "justificativas"));
    var late := JustificationErrors(GetOrNull(flags, LateKey), just, LateJustKey, LateJustField, MsgForaDoPrazo);
    var weekend := JustificationErrors(GetOrNull(flags, WeekendKey), just, WeekendJustKey, WeekendJustField, MsgFds);
    assert late.Ok? && weekend.Ok?;
    assert JustificationsErrors(payload, flags).value == late.value + weekend.value;
    assert |LateJustField| != |WeekendJustField|;
    DistinctAppend(late.value, weekend.value);
  }

  /** Every set request flag comes with a justification that is text and
      not blank. */
  predicate Justified(payload: seq<Member>, flags: seq<Member>) {
    var just := OrEmptyObj(GetOrNull(payload, "justificativas"));
    && (Truthy(GetOrNull(flags, LateKey)) ==>
          just.Obj? && StripOrEmpty(GetOrNull(just.members, LateJustKey)).Ok?
          && StripOrEmpty(GetOrNull(just.members, LateJustKey)) != Ok(""))
    && (Truthy(GetOrNull(flags, WeekendKey)) ==>
          just.Obj? && StripOrEmpty(GetOrNull(just.members, WeekendJustKey)).Ok?
          && StripOrEmpty(GetOrNull(just.members, WeekendJustKey)) != Ok(""))
  }

  /** The justification checks pass without raising and without an error
      exactly when every set flag is justified. */
  lemma JustifiedIff(payload: seq<Member>, flags: seq<Member>)
    ensures JustificationsErrors(payload, flags) == Ok([]) <==> Justified(payload, flags)
  {
  }
}
