/** The placeholder maps of `app/services/placeholders.py`: from a validated
    Anexo I or Anexo II payload and its flags to the text each `{{key}}` of
    the Word template receives. Checkboxes become `"X"` or `""`, itinerary
    columns are the legs' values joined by newlines, and justifications
    appear only when their flag is set. */
module Placeholders {

  import opened Wrappers
  import opened Text
  import opened Json
  import opened Seqs
  import Dates

  /** A placeholder map: keys and texts, in the order the builder lists
      them (the renderer substitutes in that order). */
  type Mapping = seq<(string, string)>

  /** `_x`: the checkbox mark. */
  function X(flag: bool): (r: string)
    ensures r == "X" <==> flag
    ensures !flag ==> r == ""
  {
    if flag then "X" else ""
  }

  /** `"" if v is None else str(v)`. */
  function Display(v: Value): (r: string)
    ensures v.Null? ==> r == ""
    ensures v.Str? ==> r == v.s
    ensures v.Num? ==> r == IntToString(v.n)
  {
    match v
    case Null => ""
    case Str(s) => s
    case Bool(b) => if b then "True" else "False"
    case Num(n) => IntToString(n)
    case _ => ""
  }

  /* ---------------------------------------------------------------------- */
  /* Legs                                                                    */
  /* ---------------------------------------------------------------------- */

  /** The dicts of a list, in order. */
  function DictsOf(xs: seq<Value>): (r: seq<Value>)
    ensures forall i :: 0 <= i < |r| ==> r[i].Obj?
    ensures forall x :: x in xs ==> (x in r <==> x.Obj?)
    ensures IsSubseq(r, xs)
  {
    if xs == [] then []
    else
      var rest := DictsOf(xs[1..]);
      SubseqCons(xs[0].Obj?, xs[0], rest, xs[1..]);
      assert [xs[0]] + xs[1..] == xs;
      (if xs[0].Obj? then [xs[0]] else []) + rest
  }

  /** `_normalize_trechos` (and the validators' `_normalize_trecho_list`,
      which is the same function): the dicts of a list in their order, a
      lone dict as a one-element list, and nothing for anything else. */
  function NormalizeTrechos(v: Value): (r: seq<Value>)
    ensures forall i :: 0 <= i < |r| ==> r[i].Obj?
    ensures v.Obj? ==> r == [v]
    ensures !v.Obj? && !v.Arr? ==> r == []
    ensures v.Arr? ==> forall x :: x in v.items ==> (x in r <==> x.Obj?)
    ensures v.Arr? ==> IsSubseq(r, v.items)
  {
    match v
    case Arr(xs) => DictsOf(xs)
    case Obj(_) => [v]
    case _ => []
  }

  /** A list that already holds only dicts is its own normal form. */
  lemma {:induction false} DictsOfAllDicts(xs: seq<Value>)
    requires forall i :: 0 <= i < |xs| ==> xs[i].Obj?
    ensures DictsOf(xs) == xs
  {
    if xs != [] {
      DictsOfAllDicts(xs[1..]);
      assert [xs[0]] + xs[1..] == xs;
    }
  }

  /** Normalising twice changes nothing: the validators store the
      normalised lists back into the payload before the builders normalise
      them again. */
  lemma NormalizeTrechosIdempotent(v: Value)
    ensures NormalizeTrechos(Arr(NormalizeTrechos(v))) == NormalizeTrechos(v)
  {
    DictsOfAllDicts(NormalizeTrechos(v));
  }

  /** `(t.get(key) or "")` as `str.join` needs it: a missing or empty value
      is `""`; a truthy non-string raises `TypeError` in the join. */
  function LegText(t: Value, key: string): (r: Result<string>)
    requires t.Obj?
    ensures !Truthy(GetOrNull(t.members, key)) ==> r == Ok("")
    ensures GetOrNull(t.members, key).Str? ==> r == Ok(GetOrNull(t.members, key).s)
    ensures r.Raised? <==> Truthy(GetOrNull(t.members, key)) && !GetOrNull(t.members, key).Str?
  {
    var v := OrEmptyStr(GetOrNull(t.members, key));
    if v.Str? then Ok(v.s) else Raised
  }

  /** One column's entries, one per leg. */
  function ColumnEntries(legs: seq<Value>, key: string): (r: Result<seq<string>>)
    requires forall i :: 0 <= i < |legs| ==> legs[i].Obj?
    ensures r.Ok? <==> forall i :: 0 <= i < |legs| ==> LegText(legs[i], key).Ok?
    ensures r.Ok? ==> |r.value| == |legs|
    ensures r.Ok? ==> forall i :: 0 <= i < |legs| ==> LegText(legs[i], key) == Ok(r.value[i])
  {
    if legs == [] then Ok([])
    else
      var head := LegText(legs[0], key);
      var rest := ColumnEntries(legs[1..], key);
      if head.Raised? then Raised
      else if rest.Raised? then
        assert !LegText(legs[1..][0], key).Ok? || exists i :: 0 <= i < |legs[1..]| && !LegText(legs[1..][i], key).Ok?;
        Raised
      else
        assert forall i :: 1 <= i < |legs| ==> legs[i] == legs[1..][i - 1];
        Ok([head.value] + rest.value)
  }

  /** The date-time column: `_fmt_dt_opt(t.get("data_hora"))` per leg. */
  function DateEntries(legs: seq<Value>): (r: seq<string>)
    requires forall i :: 0 <= i < |legs| ==> legs[i].Obj?
    ensures |r| == |legs|
    ensures forall i :: 0 <= i < |legs| ==> r[i] == FmtDtOpt(GetOrNull(legs[i].members, "data_hora"))
  {
    seq(|legs|, i requires 0 <= i < |legs| => FmtDtOpt(GetOrNull(legs[i].members, "data_hora")))
  }

  /** The three itinerary placeholders of one direction. */
  datatype Columns = Columns(origem: string, destino: string, dataHora: string)

  /** `"\n".join(...)` of origin, destination and formatted date-time over
      the normalised legs. */
  function ColumnsOf(legs: seq<Value>): (r: Result<Columns>)
    requires forall i :: 0 <= i < |legs| ==> legs[i].Obj?
    ensures r.Ok? <==> ColumnEntries(legs, "origem").Ok? && ColumnEntries(legs, "destino").Ok?
    ensures r.Ok? ==> r.value.origem == Join(ColumnEntries(legs, "origem").value, "\n")
    ensures r.Ok? ==> r.value.destino == Join(ColumnEntries(legs, "destino").value, "\n")
    ensures r.Ok? ==> r.value.dataHora == Join(DateEntries(legs), "\n")
  {
    var origem :- ColumnEntries(legs, "origem");
    var destino :- ColumnEntries(legs, "destino");
    Ok(Columns(Join(origem, "\n"), Join(destino, "\n"), Join(DateEntries(legs), "\n")))
  }

  /** A column placeholder splits back, at its newlines, into the legs'
      entries in input order, as long as no entry holds a newline itself. */
  lemma ColumnSplit(legs: seq<Value>, key: string, text: string)
    requires forall i :: 0 <= i < |legs| ==> legs[i].Obj?
    requires key == "origem" || key == "destino"
    requires ColumnsOf(legs).Ok?
    requires text == (if key == "origem" then ColumnsOf(legs).value.origem else ColumnsOf(legs).value.destino)
    requires |legs| >= 1
    requires forall i :: 0 <= i < |legs| ==> '\n' !in ColumnEntries(legs, key).value[i]
    ensures |Split(text, "\n")| == |legs|
    ensures forall i :: 0 <= i < |legs| ==> LegText(legs[i], key) == Ok(Split(text, "\n")[i])
  {
    SplitJoinSingleChar(ColumnEntries(legs, key).value, '\n');
  }

  /** With no legs every column is empty. */
  lemma ColumnsNoLegs()
    ensures ColumnsOf([]) == Ok(Columns("", "", ""))
  {
  }

  /* ---------------------------------------------------------------------- */
  /* Dates                                                                   */
  /* ---------------------------------------------------------------------- */

  /** `_fmt_date`: `date.fromisoformat` then `%d/%m/%Y`; a non-string or a
      malformed date raises. */
  function FmtDate(v: Value): (r: Result<string>)
    ensures r.Ok? <==> v.Str? && Dates.ParseIsoDate(v.s).Some?
    ensures r.Ok? ==> |r.value| == 10
  {
    if v.Str? then
      match Dates.ParseIsoDate(v.s)
      case Some(d) => Ok(Dates.BrDate(d))
      case None => Raised
    else Raised
  }

  /** `_fmt_dt`: `datetime.fromisoformat` then `%d/%m/%Y %H:%M`. */
  function FmtDt(v: Value): (r: Result<string>)
    ensures r.Ok? <==> v.Str? && Dates.ParseIsoDateTime(v.s).Some?
    ensures r.Ok? ==> |r.value| == 16
  {
    if v.Str? then
      match Dates.ParseIsoDateTime(v.s)
      case Some(t) => Ok(Dates.BrDateTime(t))
      case None => Raised
    else Raised
  }

  /** `_fmt_dt_opt`: never raises; empty or unreadable input gives `""`. */
  function FmtDtOpt(v: Value): (r: string)
    ensures !Truthy(v) ==> r == ""
    ensures FmtDt(v).Raised? ==> r == ""
    ensures r == "" || |r| == 16
  {
    if !Truthy(v) then ""
    else
      match FmtDt(v)
      case Ok(s) => s
      case Raised => ""
  }

  /** An ISO date comes out in the Brazilian order. */
  lemma FmtDateIso(d: Dates.Date)
    requires Dates.ValidDate(d)
    ensures FmtDate(Str(Dates.IsoDate(d))) == Ok(Dates.BrDate(d))
  {
    Dates.IsoDateRoundTrip(d);
  }

  /** An ISO date-time written to the minute comes out as the Brazilian
      date and time of the same instant. */
  lemma FmtDtOptIso(t: Dates.DateTime)
    requires Dates.ValidDateTime(t)
    ensures FmtDtOpt(Str(Dates.IsoMinute(t))) == Dates.BrDateTime(t)
  {
    Dates.IsoMinuteRoundTrip(t);
    assert Dates.BrDateTime(t.(second := 0)) == Dates.BrDateTime(t);
  }

  /* ---------------------------------------------------------------------- */
  /* Checkbox groups                                                         */
  /* ---------------------------------------------------------------------- */

  /** The funding checkboxes and their detail lines: `chk_*_cchsa`,
      `chk_*_cavn`, `chk_*_projeto(s)`, `chk_*_outros`, and the texts for
      the project and "other" lines. */
  datatype FundingMarks = FundingMarks(chkCchsa: string, chkCavn: string, chkProjeto: string, chkOutros: string,
                                       projeto: string, outros: string)

  predicate Marked(s: string) {
    s == "X"
  }

  /** At most one box is ticked, and a detail text only appears next to its
      own ticked box. */
  predicate FundingConsistent(m: FundingMarks) {
    && (Marked(m.chkCchsa) ==> !Marked(m.chkCavn) && !Marked(m.chkProjeto) && !Marked(m.chkOutros))
    && (Marked(m.chkCavn) ==> !Marked(m.chkProjeto) && !Marked(m.chkOutros))
    && (Marked(m.chkProjeto) ==> !Marked(m.chkOutros))
    && (m.projeto != "" ==> Marked(m.chkProjeto))
    && (m.outros != "" ==> Marked(m.chkOutros))
  }

  /** The four boxes for a funding `tipo`; `projectTag` is the spelling the
      form uses for the project line (`"projeto"` on Anexo I, `"projetos"`
      on Anexo II). */
  function FundingMarksOf(tipo: Value, detail: string, projectTag: string): (r: FundingMarks)
    requires projectTag != "cchsa" && projectTag != "cavn" && projectTag != "outros"
    ensures FundingConsistent(r)
    ensures Marked(r.chkCchsa) <==> tipo == Str("cchsa")
    ensures Marked(r.chkCavn) <==> tipo == Str("cavn")
    ensures Marked(r.chkProjeto) <==> tipo == Str(projectTag)
    ensures Marked(r.chkOutros) <==> tipo == Str("outros")
    ensures r.projeto == (if tipo == Str(projectTag) then detail else "")
    ensures r.outros == (if tipo == Str("outros") then detail else "")
  {
    FundingMarks(
      X(tipo == Str("cchsa")), X(tipo == Str("cavn")), X(tipo == Str(projectTag)), X(tipo == Str("outros")),
      if tipo == Str(projectTag) then detail else "",
      if tipo == Str("outros") then detail else "")
  }

  /** The transport checkboxes of Anexo I. */
  datatype TransportMarks = TransportMarks(veiculoOficial: string, empresaTerrestre: string,
                                           empresaAerea: string, veiculoProprio: string)

  /** `set(v)` for a JSON value: a list gives its elements (a list or dict
      element is unhashable and raises), a string its characters, a dict
      its keys; anything else is not iterable and raises. */
  function IterSet(v: Value): (r: Result<set<Value>>)
    ensures v.Arr? ==> (r.Ok? <==> forall x :: x in v.items ==> !x.Arr? && !x.Obj?)
    ensures v.Arr? && r.Ok? ==> forall x :: x in r.value <==> x in v.items
    ensures v.Null? || v.Bool? || v.Num? ==> r.Raised?
  {
    match v
    case Arr(xs) => if forall x :: x in xs ==> !x.Arr? && !x.Obj? then Ok(set x | x in xs) else Raised
    case Str(s) => Ok(set i | 0 <= i < |s| :: Str([s[i]]))
    case Obj(ms) => Ok(set i | 0 <= i < |ms| :: Str(ms[i].key))
    case _ => Raised
  }

  /** `set(transp.get("meios", []))`. */
  function Meios(transp: Value): (r: Result<set<Value>>)
    ensures r.Ok? ==> transp.Obj?
    ensures transp.Obj? && Lookup(transp.members, "meios").None? ==> r.Ok? && forall x :: x !in r.value
  {
    if transp.Obj? then
      var meios := Lookup(transp.members, "meios").GetOr(Arr([]));
      IterSet(meios)
    else Raised
  }

  function TransportMarksOf(meios: set<Value>): (r: TransportMarks)
    ensures Marked(r.veiculoOficial) <==> Str("veiculo_oficial") in meios
    ensures Marked(r.empresaTerrestre) <==> Str("empresa_terrestre") in meios
    ensures Marked(r.empresaAerea) <==> Str("empresa_aerea") in meios
    ensures Marked(r.veiculoProprio) <==> Str("veiculo_proprio") in meios
  {
    TransportMarks(
      X(Str("veiculo_oficial") in meios), X(Str("empresa_terrestre") in meios),
      X(Str("empresa_aerea") in meios), X(Str("veiculo_proprio") in meios))
  }

  /** `(just.get(key) or "") if flag else ""`, then `str`: the text is read
      only when the flag is set, and only then can a non-dict `just`
      raise. */
  function Gated(flag: Value, just: Value, key: string): (r: Result<string>)
    ensures !Truthy(flag) ==> r == Ok("")
    ensures Truthy(flag) && just.Obj? && GetOrNull(just.members, key).Str? ==> r == Ok(GetOrNull(just.members, key).s)
    ensures r.Raised? <==> Truthy(flag) && !just.Obj?
  {
    if !Truthy(flag) then Ok("")
    else if just.Obj? then Ok(Display(OrEmptyStr(GetOrNull(just.members, key))))
    else Raised
  }

  /* ---------------------------------------------------------------------- */
  /* Parts both builders share                                               */
  /* ---------------------------------------------------------------------- */

  /** The itinerary placeholders of both directions. */
  datatype Itinerary = Itinerary(ida: Columns, retorno: Columns)

  /** The itinerary is the columns of the normalised `legs["ida"]` and
      `legs["retorno"]`. */
  predicate ItineraryFor(legs: Value, it: Itinerary) {
    && legs.Obj?
    && ColumnsOf(NormalizeTrechos(GetOrNull(legs.members, "ida"))) == Ok(it.ida)
    && ColumnsOf(NormalizeTrechos(GetOrNull(legs.members, "retorno"))) == Ok(it.retorno)
  }

  /** The six `"\n".join(...)` lines over `legs.get("ida")` and
      `legs.get("retorno")`; `get` on a non-dict raises. */
  function ItineraryOf(legs: Value): (r: Result<Itinerary>)
    ensures r.Ok? <==> legs.Obj? && ColumnsOf(NormalizeTrechos(GetOrNull(legs.members, "ida"))).Ok?
                                 && ColumnsOf(NormalizeTrechos(GetOrNull(legs.members, "retorno"))).Ok?
    ensures r.Ok? ==> ItineraryFor(legs, r.value)
  {
    var idaV :- DictGet(legs, "ida");
    var ida :- ColumnsOf(NormalizeTrechos(idaV));
    var retorno :- ColumnsOf(NormalizeTrechos(GetOrNull(legs.members, "retorno")));
    Ok(Itinerary(ida, retorno))
  }

  /** The box of `holder["tipo"]` is ticked and no other, and the stripped
      `holder.get("detalhe")` fills the project or "other" line when that
      is the ticked box. */
  predicate FundingFor(holder: Value, projectTag: string, m: FundingMarks) {
    && holder.Obj?
    && var tipo := GetOrNull(holder.members, "tipo");
       var det := StripOrEmpty(GetOrNull(holder.members, "detalhe"));
       && det.Ok?
       && (Marked(m.chkCchsa) <==> tipo == Str("cchsa"))
       && (Marked(m.chkCavn) <==> tipo == Str("cavn"))
       && (Marked(m.chkProjeto) <==> tipo == Str(projectTag))
       && (Marked(m.chkOutros) <==> tipo == Str("outros"))
       && m.projeto == (if tipo == Str(projectTag) then det.value else "")
       && m.outros == (if tipo == Str("outros") then det.value else "")
  }

  /** `holder["tipo"]`, `(holder.get("detalhe") or "").strip()` and the four
      boxes they decide. */
  function FundingOf(holder: Value, projectTag: string): (r: Result<FundingMarks>)
    requires projectTag == "projeto" || projectTag == "projetos"
    ensures r.Ok? <==> holder.Obj? && "tipo" in Keys(holder.members)
                       && StripOrEmpty(GetOrNull(holder.members, "detalhe")).Ok?
    ensures r.Ok? ==> FundingFor(holder, projectTag, r.value) && FundingConsistent(r.value)
  {
    var tipo :- Index(holder, "tipo");
    var det :- StripOrEmpty(GetOrNull(holder.members, "detalhe"));
    Ok(FundingMarksOf(tipo, det, projectTag))
  }

  /** Each transport box is ticked exactly when its mode is among
      `transp.get("meios", [])`. */
  predicate TransportFor(transp: Value, t: TransportMarks) {
    && Meios(transp).Ok?
    && (Marked(t.veiculoOficial) <==> Str("veiculo_oficial") in Meios(transp).value)
    && (Marked(t.empresaTerrestre) <==> Str("empresa_terrestre") in Meios(transp).value)
    && (Marked(t.empresaAerea) <==> Str("empresa_aerea") in Meios(transp).value)
    && (Marked(t.veiculoProprio) <==> Str("veiculo_proprio") in Meios(transp).value)
  }

  function TransportOf(transp: Value): (r: Result<TransportMarks>)
    ensures r.Ok? <==> Meios(transp).Ok?
    ensures r.Ok? ==> TransportFor(transp, r.value)
  {
    var meios :- Meios(transp);
    Ok(TransportMarksOf(meios))
  }

  /* ---------------------------------------------------------------------- */
  /* Anexo I                                                                 */
  /* ---------------------------------------------------------------------- */

  /** The requester block of Anexo I, each field as `str` of the payload's
      value. */
  datatype ServerText = ServerText(nomeCompleto: string, cargoFuncao: string, cpf: string, rg: string,
                                   dataNascimento: string, siape: string, nomeMae: string, endereco: string,
                                   telefone: string, email: string, banco: string, agencia: string, conta: string)

  /** The requester fields Anexo I indexes without a default. */
  const ServerKeys := ["nome_completo", "cargo_funcao", "cpf", "rg", "data_nascimento", "siape",
                       "nome_mae", "endereco", "telefone", "email", "dados_bancarios"]

  /** Every requester field is there, the birth date is an ISO date and the
      bank block holds bank, branch and account. */
  predicate ServerComplete(servidor: Value) {
    && servidor.Obj?
    && (var ks := Keys(servidor.members);
        && "nome_completo" in ks && "cargo_funcao" in ks && "cpf" in ks && "rg" in ks
        && "data_nascimento" in ks && "siape" in ks && "nome_mae" in ks && "endereco" in ks
        && "telefone" in ks && "email" in ks && "dados_bancarios" in ks)
    && FmtDate(GetOrNull(servidor.members, "data_nascimento")).Ok?
    && var dados := GetOrNull(servidor.members, "dados_bancarios");
       && dados.Obj?
       && "banco" in Keys(dados.members)
       && "agencia" in Keys(dados.members)
       && "conta" in Keys(dados.members)
  }

  /** `servidor[...]` for every requester field: a missing key raises, and
      the birth date must be an ISO date. */
  function ServerTextOf(servidor: Value): (r: Result<ServerText>)
    ensures r.Ok? <==> ServerComplete(servidor)
    ensures r.Ok? ==> servidor.Obj?
    ensures r.Ok? ==> forall k :: k in ServerKeys ==> k in Keys(servidor.members)
    ensures r.Ok? ==> r.value.cpf == Display(Index(servidor, "cpf").value)
    ensures r.Ok? ==> r.value.siape == Display(Index(servidor, "siape").value)
  {
    var nome :- Index(servidor, "nome_completo");
    var cargo :- Index(servidor, "cargo_funcao");
    var cpf :- Index(servidor, "cpf");
    var rg :- Index(servidor, "rg");
    var nascimento :- Index(servidor, "data_nascimento");
    var nascimentoText :- FmtDate(nascimento);
    var siape :- Index(servidor, "siape");
    var mae :- Index(servidor, "nome_mae");
    var endereco :- Index(servidor, "endereco");
    var telefone :- Index(servidor, "telefone");
    var email :- Index(servidor, "email");
    var dados :- Index(servidor, "dados_bancarios");
    var banco :- Index(dados, "banco");
    var agencia :- Index(dados, "agencia");
    var conta :- Index(dados, "conta");
    Ok(ServerText(Display(nome), Display(cargo), Display(cpf), Display(rg), nascimentoText, Display(siape),
                  Display(mae), Display(endereco), Display(telefone), Display(email),
                  Display(banco), Display(agencia), Display(conta)))
  }

  datatype Anexo1Placeholders = Anexo1Placeholders(
    dataSolicitacao: string,
    chkDiarias: string,
    chkPassagens: string,
    servidor: ServerText,
    motivoViagem: string,
    ida: Columns,
    retorno: Columns,
    missaoInicio: string,
    missaoTermino: string,
    recurso: FundingMarks,
    transporte: TransportMarks,
    justificativaFds: string,
    justificativaForaPrazo: string)

  /** The payload keys Anexo I indexes without a default. */
  const Anexo1RequiredKeys := ["tipo_solicitacao", "servidor", "trechos", "missao", "debito_recurso",
                               "transporte", "data_solicitacao", "motivo_viagem"]

  /** The mission's start and end through `_fmt_dt`. */
  datatype MissionTimes = MissionTimes(inicio: string, termino: string)

  function MissionOf(missao: Value): (r: Result<MissionTimes>)
    ensures r.Ok? <==> missao.Obj? && FmtDt(GetOrNull(missao.members, "inicio_data_hora")).Ok?
                       && FmtDt(GetOrNull(missao.members, "termino_data_hora")).Ok?
    ensures r.Ok? ==> (
      && FmtDt(GetOrNull(missao.members, "inicio_data_hora")) == Ok(r.value.inicio)
      && FmtDt(GetOrNull(missao.members, "termino_data_hora")) == Ok(r.value.termino))
  {
    var inicio :- Index(missao, "inicio_data_hora");
    var inicioText :- FmtDt(inicio);
    var termino :- Index(missao, "termino_data_hora");
    var terminoText :- FmtDt(termino);
    Ok(MissionTimes(inicioText, terminoText))
  }

  /** Every read `build_placeholders_anexo1` performs succeeds. */
  predicate Anexo1Readable(payload: seq<Member>, flags: seq<Member>) {
    var just := OrEmptyObj(GetOrNull(payload, "justificativas"));
    && (var ks := Keys(payload);
        && "tipo_solicitacao" in ks && "servidor" in ks && "trechos" in ks && "missao" in ks
        && "debito_recurso" in ks && "transporte" in ks && "data_solicitacao" in ks && "motivo_viagem" in ks)
    && TransportOf(GetOrNull(payload, "transporte")).Ok?
    && FundingOf(GetOrNull(payload, "debito_recurso"), "projeto").Ok?
    && FmtDate(GetOrNull(payload, "data_solicitacao")).Ok?
    && ServerTextOf(GetOrNull(payload, "servidor")).Ok?
    && ItineraryOf(GetOrNull(payload, "trechos")).Ok?
    && MissionOf(GetOrNull(payload, "missao")).Ok?
    && Gated(GetOrNull(flags, "envolve_fds_feriado_ou_dia_anterior"), just, "justificativa_fds_feriado_dia_anterior").Ok?
    && Gated(GetOrNull(flags, "fora_do_prazo"), just, "justificativa_fora_prazo").Ok?
  }

  /** `build_placeholders_anexo1`. Any `payload[...]` on a missing key, a
      `.get` on a non-dict, a malformed date or a non-text leg value makes
      it raise. */
  function BuildAnexo1(payload: seq<Member>, flags: seq<Member>): (r: Result<Anexo1Placeholders>)
    ensures r.Ok? ==> forall k :: k in Anexo1RequiredKeys ==> k in Keys(payload)
    ensures r.Ok? ==> (Marked(r.value.chkDiarias) <==>
      GetOrNull(payload, "tipo_solicitacao") in [Str("diarias"), Str("diarias_e_passagens")])
    ensures r.Ok? ==> (Marked(r.value.chkPassagens) <==>
      GetOrNull(payload, "tipo_solicitacao") in [Str("passagens"), Str("diarias_e_passagens")])
    ensures r.Ok? ==> ItineraryFor(GetOrNull(payload, "trechos"), Itinerary(r.value.ida, r.value.retorno))
    ensures r.Ok? ==> FundingFor(GetOrNull(payload, "debito_recurso"), "projeto", r.value.recurso)
    ensures r.Ok? ==> FundingConsistent(r.value.recurso)
    ensures r.Ok? ==> TransportFor(GetOrNull(payload, "transporte"), r.value.transporte)
    ensures r.Ok? ==> FmtDate(GetOrNull(payload, "data_solicitacao")) == Ok(r.value.dataSolicitacao)
    ensures r.Ok? ==> MissionOf(GetOrNull(payload, "missao")) == Ok(MissionTimes(r.value.missaoInicio, r.value.missaoTermino))
    ensures r.Ok? ==> ServerTextOf(GetOrNull(payload, "servidor")) == Ok(r.value.servidor)
    ensures r.Ok? ==> r.value.motivoViagem == Display(GetOrNull(payload, "motivo_viagem"))
    ensures r.Ok? ==> (
      var just := OrEmptyObj(GetOrNull(payload, "justificativas"));
      && Gated(GetOrNull(flags, "envolve_fds_feriado_ou_dia_anterior"), just,
               "justificativa_fds_feriado_dia_anterior") == Ok(r.value.justificativaFds)
      && Gated(GetOrNull(flags, "fora_do_prazo"), just, "justificativa_fora_prazo") == Ok(r.value.justificativaForaPrazo))
    ensures r.Ok? <==> Anexo1Readable(payload, flags)
  {
    var p := Obj(payload);
    var tipo :- Index(p, "tipo_solicitacao");
    var servidor :- Index(p, "servidor");
    var trechos :- Index(p, "trechos");
    var missao :- Index(p, "missao");
    var deb :- Index(p, "debito_recurso");
    var transp :- Index(p, "transporte");
    var just := OrEmptyObj(GetOrNull(payload, "justificativas"));
    var transporte :- TransportOf(transp);
    var recurso :- FundingOf(deb, "projeto");
    var dataSolicitacao :- Index(p, "data_solicitacao");
    var dataText :- FmtDate(dataSolicitacao);
    var server :- ServerTextOf(servidor);
    var motivo :- Index(p, "motivo_viagem");
    var itinerary :- ItineraryOf(trechos);
    var mission :- MissionOf(missao);
    var fds :- Gated(GetOrNull(flags, "envolve_fds_feriado_ou_dia_anterior"), just, "justificativa_fds_feriado_dia_anterior");
    var foraPrazo :- Gated(GetOrNull(flags, "fora_do_prazo"), just, "justificativa_fora_prazo");
    Ok(Anexo1Placeholders(
      dataText,
      X(tipo in [Str("diarias"), Str("diarias_e_passagens")]),
      X(tipo in [Str("passagens"), Str("diarias_e_passagens")]),
      server,
      Display(motivo),
      itinerary.ida,
      itinerary.retorno,
      mission.inicio,
      mission.termino,
      recurso,
      transporte,
      fds,
      foraPrazo))
  }

  /** A filing date written as an ISO date comes out as the same date in
      the Brazilian order. */
  lemma Anexo1FilingDate(payload: seq<Member>, flags: seq<Member>, d: Dates.Date)
    requires BuildAnexo1(payload, flags).Ok?
    requires Dates.ValidDate(d) && GetOrNull(payload, "data_solicitacao") == Str(Dates.IsoDate(d))
    ensures BuildAnexo1(payload, flags).value.dataSolicitacao == Dates.BrDate(d)
  {
    FmtDateIso(d);
  }

  /** `diarias_e_passagens` ticks both boxes; the other two kinds tick
      exactly their own. */
  lemma Anexo1RequestKinds(payload: seq<Member>, flags: seq<Member>)
    requires BuildAnexo1(payload, flags).Ok?
    ensures GetOrNull(payload, "tipo_solicitacao") == Str("diarias_e_passagens") ==>
      Marked(BuildAnexo1(payload, flags).value.chkDiarias) && Marked(BuildAnexo1(payload, flags).value.chkPassagens)
    ensures GetOrNull(payload, "tipo_solicitacao") == Str("diarias") ==>
      Marked(BuildAnexo1(payload, flags).value.chkDiarias) && !Marked(BuildAnexo1(payload, flags).value.chkPassagens)
    ensures GetOrNull(payload, "tipo_solicitacao") == Str("passagens") ==>
      !Marked(BuildAnexo1(payload, flags).value.chkDiarias) && Marked(BuildAnexo1(payload, flags).value.chkPassagens)
  {
    var p := BuildAnexo1(payload, flags).value;
    KindMarks(GetOrNull(payload, "tipo_solicitacao"), p.chkDiarias, p.chkPassagens);
  }

  lemma KindMarks(tipo: Value, diarias: string, passagens: string)
    requires Marked(diarias) <==> tipo in [Str("diarias"), Str("diarias_e_passagens")]
    requires Marked(passagens) <==> tipo in [Str("passagens"), Str("diarias_e_passagens")]
    ensures tipo == Str("diarias_e_passagens") ==> Marked(diarias) && Marked(passagens)
    ensures tipo == Str("diarias") ==> Marked(diarias) && !Marked(passagens)
    ensures tipo == Str("passagens") ==> !Marked(diarias) && Marked(passagens)
  {
  }

  /** The Anexo I map, with the template's keys in the builder's order. */
  function Anexo1Entries(p: Anexo1Placeholders): (m: Mapping)
    ensures |m| == 37
  {
    [("data_solicitacao", p.dataSolicitacao),
     ("chk_diarias", p.chkDiarias),
     ("chk_passagens", p.chkPassagens),
     ("nome_completo", p.servidor.nomeCompleto),
     ("cargo_funcao", p.servidor.cargoFuncao),
     ("cpf", p.servidor.cpf),
     ("rg", p.servidor.rg),
     ("data_nascimento", p.servidor.dataNascimento),
     ("siape", p.servidor.siape),
     ("nome_mae", p.servidor.nomeMae),
     ("endereco", p.servidor.endereco),
     ("telefone", p.servidor.telefone),
     ("email", p.servidor.email),
     ("banco", p.servidor.banco),
     ("agencia", p.servidor.agencia),
     ("conta", p.servidor.conta),
     ("motivo_viagem", p.motivoViagem),
     ("ida_origem", p.ida.origem),
     ("ida_destino", p.ida.destino),
     ("ida_data_hora", p.ida.dataHora),
     ("retorno_origem", p.retorno.origem),
     ("retorno_destino", p.retorno.destino),
     ("retorno_data_hora", p.retorno.dataHora),
     ("missao_inicio_data_hora", p.missaoInicio),
     ("missao_termino_data_hora", p.missaoTermino),
     ("chk_recurso_cchsa", p.recurso.chkCchsa),
     ("chk_recurso_cavn", p.recurso.chkCavn),
     ("chk_recurso_projeto", p.recurso.chkProjeto),
     ("chk_recurso_outros", p.recurso.chkOutros),
     ("recurso_projeto", p.recurso.projeto),
     ("recurso_outros", p.recurso.outros),
     ("chk_transporte_veiculo_oficial", p.transporte.veiculoOficial),
     ("chk_transporte_empresa_terrestre", p.transporte.empresaTerrestre),
     ("chk_transporte_empresa_aerea", p.transporte.empresaAerea),
     ("chk_transporte_veiculo_proprio", p.transporte.veiculoProprio),
     ("justificativa_fds_feriado_dia_anterior", p.justificativaFds),
     ("justificativa_fora_prazo", p.justificativaForaPrazo)]
  }

  /* ---------------------------------------------------------------------- */
  /* Anexo II                                                                */
  /* ---------------------------------------------------------------------- */

  datatype Anexo2Placeholders = Anexo2Placeholders(
    dataRelatorio: string,
    nome: string,
    cpf: string,
    siape: string,
    orgao: FundingMarks,
    ida: Columns,
    retorno: Columns,
    atividadesDesenvolvidas: string,
    justificativaForaPrazo: string,
    chkViagemRealizadaSim: string,
    chkViagemRealizadaNao: string)

  /** The payload keys Anexo II indexes without a default. */
  const Anexo2RequiredKeys := ["proposto", "afastamento", "data_relatorio", "atividades_desenvolvidas", "viagem_realizada"]

  /** Every read `build_placeholders_anexo2` performs succeeds. */
  predicate Anexo2Readable(payload: seq<Member>) {
    var proposto := GetOrNull(payload, "proposto");
    && (var ks := Keys(payload);
        && "proposto" in ks && "afastamento" in ks && "data_relatorio" in ks
        && "atividades_desenvolvidas" in ks && "viagem_realizada" in ks)
    && proposto.Obj?
    && "orgao" in Keys(proposto.members)
    && "nome" in Keys(proposto.members)
    && "cpf" in Keys(proposto.members)
    && "siape" in Keys(proposto.members)
    && FundingOf(GetOrNull(proposto.members, "orgao"), "projetos").Ok?
    && FmtDate(GetOrNull(payload, "data_relatorio")).Ok?
    && ItineraryOf(GetOrNull(payload, "afastamento")).Ok?
  }

  /** `build_placeholders_anexo2`. Its flags only gate the late
      justification, which is read with defaults and never raises. */
  function BuildAnexo2(payload: seq<Member>, flags: seq<Member>): (r: Result<Anexo2Placeholders>)
    ensures r.Ok? <==> Anexo2Readable(payload)
    ensures r.Ok? ==> forall k :: k in Anexo2RequiredKeys ==> k in Keys(payload)
    ensures r.Ok? ==> !(Marked(r.value.chkViagemRealizadaSim) && Marked(r.value.chkViagemRealizadaNao))
    ensures r.Ok? ==> (Marked(r.value.chkViagemRealizadaSim) <==> GetOrNull(payload, "viagem_realizada") == Str("sim"))
    ensures r.Ok? ==> (Marked(r.value.chkViagemRealizadaNao) <==> GetOrNull(payload, "viagem_realizada") == Str("nao"))
    ensures r.Ok? ==> ItineraryFor(GetOrNull(payload, "afastamento"), Itinerary(r.value.ida, r.value.retorno))
    ensures r.Ok? ==> FundingConsistent(r.value.orgao)
    ensures r.Ok? ==> (
      var proposto := GetOrNull(payload, "proposto");
      && proposto.Obj?
      && FundingFor(GetOrNull(proposto.members, "orgao"), "projetos", r.value.orgao)
      && r.value.nome == Display(GetOrNull(proposto.members, "nome"))
      && r.value.cpf == Display(GetOrNull(proposto.members, "cpf"))
      && r.value.siape == Display(GetOrNull(proposto.members, "siape")))
    ensures r.Ok? ==> FmtDate(GetOrNull(payload, "data_relatorio")) == Ok(r.value.dataRelatorio)
    ensures r.Ok? ==> r.value.atividadesDesenvolvidas == Display(GetOrNull(payload, "atividades_desenvolvidas"))
    ensures r.Ok? && !Truthy(GetOrNull(flags, "prestacao_contas_fora_prazo")) ==> r.value.justificativaForaPrazo == ""
    ensures r.Ok? && Truthy(GetOrNull(flags, "prestacao_contas_fora_prazo")) ==>
      r.value.justificativaForaPrazo == Display(OrEmptyStr(GetOrNull(payload, "justificativa_prestacao_contas_fora_prazo")))
  {
    var p := Obj(payload);
    var proposto :- Index(p, "proposto");
    var orgao :- Index(proposto, "orgao");
    var afast :- Index(p, "afastamento");
    var marks :- FundingOf(orgao, "projetos");
    var dataRelatorio :- Index(p, "data_relatorio");
    var dataText :- FmtDate(dataRelatorio);
    var nome :- Index(proposto, "nome");
    var cpf :- Index(proposto, "cpf");
    var siape :- Index(proposto, "siape");
    var itinerary :- ItineraryOf(afast);
    var atividades :- Index(p, "atividades_desenvolvidas");
    var justificativa := if Truthy(GetOrNull(flags, "prestacao_contas_fora_prazo"))
      then Display(OrEmptyStr(GetOrNull(payload, "justificativa_prestacao_contas_fora_prazo")))
      else "";
    var viagem :- Index(p, "viagem_realizada");
    Ok(Anexo2Placeholders(
      dataText,
      Display(nome), Display(cpf), Display(siape),
      marks,
      itinerary.ida,
      itinerary.retorno,
      Display(atividades),
      justificativa,
      X(viagem == Str("sim")),
      X(viagem == Str("nao"))))
  }

  /** The Anexo II map, with the template's keys in the builder's order. */
  function Anexo2Entries(p: Anexo2Placeholders): (m: Mapping)
    ensures |m| == 20
  {
    [("data_relatorio", p.dataRelatorio),
     ("nome", p.nome),
     ("cpf", p.cpf),
     ("siape", p.siape),
     ("chk_orgao_cchsa", p.orgao.chkCchsa),
     ("chk_orgao_cavn", p.orgao.chkCavn),
     ("chk_orgao_projetos", p.orgao.chkProjeto),
     ("chk_orgao_outros", p.orgao.chkOutros),
     ("orgao_projetos", p.orgao.projeto),
     ("orgao_outros", p.orgao.outros),
     ("ida_origem", p.ida.origem),
     ("ida_destino", p.ida.destino),
     ("ida_data_hora", p.ida.dataHora),
     ("retorno_origem", p.retorno.origem),
     ("retorno_destino", p.retorno.destino),
     ("retorno_data_hora", p.retorno.dataHora),
     ("atividades_desenvolvidas", p.atividadesDesenvolvidas),
     ("justificativa_prestacao_contas_fora_prazo", p.justificativaForaPrazo),
     ("chk_viagem_realizada_sim", p.chkViagemRealizadaSim),
     ("chk_viagem_realizada_nao", p.chkViagemRealizadaNao)]
  }
}
