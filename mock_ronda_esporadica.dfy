/**
 * The in-memory store of sporadic patrols ("rondas esporádicas") behind the
 * `/rondas-esporadicas/...` API routes: a module-level list that `iniciar`
 * appends to and whose records `finalizar`, `atualizar` and the consolidation
 * routes update in place.
 */
module MockRondaEsporadica {
  import opened Common
  import Calendar

  const EM_ANDAMENTO := "em_andamento"
  const FINALIZADA := "finalizada"

  const MSG_SEM_DADOS := "Dados não fornecidos."
  const MSG_HORA_OBRIGATORIA := "Hora de entrada é obrigatória."
  const MSG_FORMATO_HORA := "Formato de hora inválido. Use HH:MM."
  const MSG_HORARIO_VALIDO := "Horário válido"
  const MSG_HORARIO_DIFERENTE := "Horário muito diferente do atual"
  const MSG_DATA_OBRIGATORIA := "Data do plantão é obrigatória."
  const MSG_CAMPOS_OBRIGATORIOS := "Todos os campos são obrigatórios."
  const MSG_JA_EM_ANDAMENTO := "Já existe uma ronda em andamento para este condomínio nesta data."
  const MSG_SAIDA_OBRIGATORIA := "Hora de saída é obrigatória."
  const MSG_NAO_ENCONTRADA := "Ronda não encontrada."
  const MSG_APENAS_EM_ANDAMENTO := "Apenas rondas em andamento podem ser finalizadas."
  const MSG_NADA_A_CONSOLIDAR := "Nenhuma ronda encontrada para consolidação."

  /** One dictionary of the store. `horaSaida` is None until the ronda is finished; `processada` stands for the key that the consolidation routes add. */
  datatype RondaEsporadica = RondaEsporadica(
    id: int,
    condominioId: int,
    userId: int,
    dataPlantao: string,
    horaEntrada: string,
    escalaPlantao: string,
    turno: string,
    observacoes: string,
    supervisorId: Option<int>,
    status: string,
    horaSaida: Option<string>,
    processada: bool,
    dataCriacao: string,
    dataModificacao: string)

  /** JSON body of `iniciar`; None for a key that is absent. */
  datatype IniciarPayload = IniciarPayload(
    condominioId: Option<int>,
    userId: Option<int>,
    dataPlantao: Option<string>,
    horaEntrada: Option<string>,
    escalaPlantao: Option<string>,
    turno: Option<string>,
    observacoes: Option<string>,
    supervisorId: Option<int>)

  /** JSON body of `finalizar`. */
  datatype FinalizarPayload = FinalizarPayload(horaSaida: Option<string>, observacoes: Option<string>)

  /** JSON body of `atualizar`: only the `observacoes` key is read. */
  datatype AtualizarPayload = AtualizarPayload(observacoes: Option<string>)

  /** Answer of `validar-horario`. */
  datatype HorarioCheck = HorarioCheck(horarioValido: bool, mensagem: string, horaAtual: string, horaInformada: string)

  /** Answer of `consolidar-turno`. */
  datatype Consolidacao = Consolidacao(relatorio: string, totalRondas: nat, periodo: string)

  predicate IsActive(r: RondaEsporadica) { r.status == EM_ANDAMENTO }

  /** Ids are the positions 1..n, as allocated by `len(RONDAS_ESPORADICAS_MOCK) + 1` on an append-only list. */
  ghost predicate IdsArePositions(rs: seq<RondaEsporadica>)
  {
    forall i :: 0 <= i < |rs| ==> rs[i].id == i + 1
  }

  /** At most one ronda in progress per condominium and shift date. */
  ghost predicate AtMostOneActive(rs: seq<RondaEsporadica>)
  {
    forall i, j :: 0 <= i < j < |rs| && IsActive(rs[i]) && IsActive(rs[j]) ==>
      rs[i].condominioId != rs[j].condominioId || rs[i].dataPlantao != rs[j].dataPlantao
  }

  /** Index of the first ronda in progress for the condominium and date (the generator scan of the routes). */
  function FindActive(rs: seq<RondaEsporadica>, condominioId: int, dataPlantao: string): (r: Option<nat>)
    ensures r.Some? ==>
      (r.value < |rs| && IsActive(rs[r.value])
       && rs[r.value].condominioId == condominioId && rs[r.value].dataPlantao == dataPlantao)
    ensures r.None? ==> forall j :: 0 <= j < |rs| && rs[j].condominioId == condominioId && rs[j].dataPlantao == dataPlantao ==> !IsActive(rs[j])
  {
    FirstWhere(rs, (x: RondaEsporadica) => x.condominioId == condominioId && x.dataPlantao == dataPlantao && IsActive(x))
  }

  /** Index of the ronda with the given id. */
  function FindById(rs: seq<RondaEsporadica>, id: int): (r: Option<nat>)
    ensures r.Some? ==> r.value < |rs| && rs[r.value].id == id
    ensures r.None? ==> forall j :: 0 <= j < |rs| ==> rs[j].id != id
  {
    FirstWhere(rs, (x: RondaEsporadica) => x.id == id)
  }

  /** On a store whose ids are its positions, the ronda with id n is found exactly when 1 <= n <= length, at position n - 1. */
  lemma FindByIdPositions(rs: seq<RondaEsporadica>, id: int)
    requires IdsArePositions(rs)
    ensures FindById(rs, id).Some? <==> 1 <= id <= |rs|
    ensures FindById(rs, id).Some? ==> FindById(rs, id).value == id - 1
  {
    if 1 <= id <= |rs| {
      assert rs[id - 1].id == id;
    }
  }

  predicate OfDay(r: RondaEsporadica, condominioId: int, data: string)
  {
    r.condominioId == condominioId && r.dataPlantao == data
  }

  /** `[r for r in RONDAS_ESPORADICAS_MOCK if r['condominio_id'] == c and r['data_plantao'] == data]`. */
  function DoDia(rs: seq<RondaEsporadica>, condominioId: int, data: string): (r: seq<RondaEsporadica>)
    ensures |r| <= |rs|
    ensures forall x :: x in r ==> x in rs && OfDay(x, condominioId, data)
  {
    Filter(rs, (x: RondaEsporadica) => OfDay(x, condominioId, data))
  }

  /** Every ronda of the store for the condominium and date is listed. */
  lemma DoDiaComplete(rs: seq<RondaEsporadica>, condominioId: int, data: string, x: RondaEsporadica)
    requires x in rs && OfDay(x, condominioId, data)
    ensures x in DoDia(rs, condominioId, data)
  {
    FilterKeeps(rs, (x: RondaEsporadica) => OfDay(x, condominioId, data), x);
  }

  // ------------------------------------------------------------------
  // validar-horario
  // ------------------------------------------------------------------

  /** JSON body of `validar-horario`. */
  datatype HorarioPayload = HorarioPayload(horaEntrada: Option<string>)

  /**
   * `validar_horario_entrada`: the informed entry time is accepted when it is
   * within 30 minutes of the current time, both read as minutes since
   * midnight; `agora` is the current minute of the day.
   */
  function ValidarHorarioEntrada(body: Option<HorarioPayload>, agora: int): (r: Result<HorarioCheck>)
    requires 0 <= agora < 1440
    ensures body.None? ==> r == Err(HttpError(400, MSG_SEM_DADOS))
    ensures body.Some? && !TruthyStr(body.value.horaEntrada) ==> r == Err(HttpError(400, MSG_HORA_OBRIGATORIA))
    ensures body.Some? && TruthyStr(body.value.horaEntrada) && Calendar.StrptimeHourMinute(body.value.horaEntrada.value).None?
      ==> r == Err(HttpError(400, MSG_FORMATO_HORA))
    ensures r.Ok? <==>
      (body.Some? && TruthyStr(body.value.horaEntrada)
       && Calendar.StrptimeHourMinute(body.value.horaEntrada.value).Some?)
    ensures r.Ok? ==>
      (r.value.horaInformada == body.value.horaEntrada.value
       && r.value.horaAtual == Calendar.FormatHourMinute(agora)
       && (r.value.horarioValido <==> -30 <= Calendar.StrptimeHourMinute(body.value.horaEntrada.value).value - agora <= 30)
       && r.value.mensagem == (if r.value.horarioValido then MSG_HORARIO_VALIDO else MSG_HORARIO_DIFERENTE))
  {
    if body.None? then Err(HttpError(400, MSG_SEM_DADOS))
    else if !TruthyStr(body.value.horaEntrada) then Err(HttpError(400, MSG_HORA_OBRIGATORIA))
    else
      var hora := body.value.horaEntrada.value;
      match Calendar.StrptimeHourMinute(hora)
      case None => Err(HttpError(400, MSG_FORMATO_HORA))
      case Some(entrada) =>
        var diferenca := if entrada >= agora then entrada - agora else agora - entrada;
        var valido := diferenca <= 30;
        Ok(HorarioCheck(valido, if valido then MSG_HORARIO_VALIDO else MSG_HORARIO_DIFERENTE,
                        Calendar.FormatHourMinute(agora), hora))
  }

  /** There is no wrap-around at midnight: 23:50 is refused at 00:05 although the two are 15 minutes apart. */
  lemma ValidarHorarioNoMidnightWrap()
    ensures ValidarHorarioEntrada(Some(HorarioPayload(Some("23:50"))), 5).Ok?
    ensures !ValidarHorarioEntrada(Some(HorarioPayload(Some("23:50"))), 5).value.horarioValido
  {
    assert Calendar.StrptimeHourMinute("23:50") == Some(23 * 60 + 50) by {
      assert Common.DigitValue('2') == 2 && Common.DigitValue('3') == 3;
      assert Common.DigitValue('5') == 5 && Common.DigitValue('0') == 0;
    }
  }

  // ------------------------------------------------------------------
  // The consolidated report
  // ------------------------------------------------------------------

  /** The value Python prints for `r.get(key, 'N/A')`. */
  function OrNA(o: Option<string>): string { if o.Some? then o.value else "N/A" }

  /** Heading of the consolidated report. */
  function ReportHeader(condominioId: int, data: string, total: nat): string
  {
    "\nRELATÓRIO CONSOLIDADO - RONDAS ESPORÁDICAS\nCondomínio: " + IntToString(condominioId)
    + "\nData: " + data + "\nTotal de Rondas: " + NatToString(total) + "\n\nDETALHES:\n"
  }

  /** The block the report holds for one ronda. */
  function Block(r: RondaEsporadica): string
  {
    "\nRonda #" + IntToString(r.id) + "\n- Status: " + r.status + "\n- Turno: " + r.turno
    + "\n- Entrada: " + r.horaEntrada + "\n- Saída: " + OrNA(r.horaSaida)
    + "\n- Observações: " + r.observacoes + "\n"
  }

  /** The blocks of the given rondas, one after the other in their order. */
  function Blocks(rs: seq<RondaEsporadica>): string
  {
    ConcatMap(rs, Block)
  }

  /** The report text for a condominium and date. */
  function ConsolidatedReport(condominioId: int, data: string, rs: seq<RondaEsporadica>): string
  {
    ReportHeader(condominioId, data, |rs|) + Blocks(rs)
  }

  /** The block of the i-th ronda sits right after the blocks of the rondas before it: one block per ronda, in list order. */
  lemma BlockInOrder(rs: seq<RondaEsporadica>, i: nat)
    requires i < |rs|
    ensures Blocks(rs) == Blocks(rs[..i]) + Block(rs[i]) + Blocks(rs[i + 1..])
  {
    ConcatMapAt(rs, i, Block);
  }

  /** The `+=` loop that appends one block per ronda to the heading. */
  method BuildConsolidatedReport(condominioId: int, data: string, rs: seq<RondaEsporadica>) returns (relatorio: string)
    ensures relatorio == ConsolidatedReport(condominioId, data, rs)
  {
    relatorio := AppendEach(ReportHeader(condominioId, data, |rs|), rs, Block);
  }

  // ------------------------------------------------------------------
  // The store
  // ------------------------------------------------------------------

  /** The record `iniciar` builds from a request whose required fields are all present. */
  function NewRonda(id: int, p: IniciarPayload, now: string): RondaEsporadica
    requires p.condominioId.Some? && p.userId.Some? && p.dataPlantao.Some? && p.horaEntrada.Some?
    requires p.escalaPlantao.Some? && p.turno.Some?
  {
    RondaEsporadica(id, p.condominioId.value, p.userId.value, p.dataPlantao.value, p.horaEntrada.value,
                    p.escalaPlantao.value, p.turno.value,
                    if p.observacoes.Some? then p.observacoes.value else "",
                    p.supervisorId, EM_ANDAMENTO, None, false, now, now)
  }

  /** `all([condominio_id, user_id, data_plantao, hora_entrada, escala_plantao, turno])`. */
  predicate RequiredPresent(p: IniciarPayload)
  {
    TruthyInt(p.condominioId) && TruthyInt(p.userId) && TruthyStr(p.dataPlantao)
    && TruthyStr(p.horaEntrada) && TruthyStr(p.escalaPlantao) && TruthyStr(p.turno)
  }

  /** `RONDAS_ESPORADICAS_MOCK`. */
  class RondaEsporadicaStore {
    var rondas: seq<RondaEsporadica>

    ghost predicate Valid()
      reads this
    {
      IdsArePositions(rondas) && AtMostOneActive(rondas)
    }

    constructor()
      ensures rondas == [] && Valid()
    {
      rondas := [];
    }

    /** `ronda_esporadica_em_andamento`: the first ronda in progress for the condominium and date, if any. */
    function EmAndamento(condominioId: int, dataPlantao: Option<string>): (r: Result<Option<RondaEsporadica>>)
      reads this
      ensures !TruthyStr(dataPlantao) <==> r == Err(HttpError(400, MSG_DATA_OBRIGATORIA))
      ensures r.Ok? <==> TruthyStr(dataPlantao)
      ensures r.Ok? && r.value.Some? ==>
        (r.value.value in rondas && IsActive(r.value.value)
         && OfDay(r.value.value, condominioId, dataPlantao.value))
      ensures r.Ok? && r.value.None? ==> forall j :: 0 <= j < |rondas| && OfDay(rondas[j], condominioId, dataPlantao.value) ==> !IsActive(rondas[j])
    {
      if !TruthyStr(dataPlantao) then Err(HttpError(400, MSG_DATA_OBRIGATORIA))
      else match FindActive(rondas, condominioId, dataPlantao.value)
        case None => Ok(None)
        case Some(i) => Ok(Some(rondas[i]))
    }

    /** `iniciar_ronda_esporadica`: validates the body and appends a new ronda in progress. */
    method Iniciar(body: Option<IniciarPayload>, now: string) returns (r: Result<int>)
      requires Valid()
      modifies this
      ensures Valid()
      ensures body.None? ==> r == Err(HttpError(400, MSG_SEM_DADOS))
      ensures body.Some? && !RequiredPresent(body.value) ==> r == Err(HttpError(400, MSG_CAMPOS_OBRIGATORIOS))
      ensures (body.Some? && RequiredPresent(body.value)
         && FindActive(old(rondas), body.value.condominioId.value, body.value.dataPlantao.value).Some?)
        ==> r == Err(HttpError(400, MSG_JA_EM_ANDAMENTO))
      ensures r.Err? ==> rondas == old(rondas)
      ensures r.Ok? <==>
        (body.Some? && RequiredPresent(body.value)
         && FindActive(old(rondas), body.value.condominioId.value, body.value.dataPlantao.value).None?)
      ensures r.Ok? ==>
        (r.value == |old(rondas)| + 1
         && rondas == old(rondas) + [NewRonda(r.value, body.value, now)])
    {
      if body.None? {
        return Err(HttpError(400, MSG_SEM_DADOS));
      }
      var p := body.value;
      if !RequiredPresent(p) {
        return Err(HttpError(400, MSG_CAMPOS_OBRIGATORIOS));
      }
      if FindActive(rondas, p.condominioId.value, p.dataPlantao.value).Some? {
        return Err(HttpError(400, MSG_JA_EM_ANDAMENTO));
      }
      var nova := NewRonda(|rondas| + 1, p, now);
      rondas := rondas + [nova];
      r := Ok(nova.id);
    }

    /** `finalizar_ronda_esporadica`: records the exit time and closes a ronda in progress. */
    method Finalizar(rondaId: int, body: Option<FinalizarPayload>, now: string) returns (r: Result<string>)
      requires Valid()
      modifies this
      ensures Valid()
      ensures body.None? ==> r == Err(HttpError(400, MSG_SEM_DADOS))
      ensures body.Some? && !TruthyStr(body.value.horaSaida) ==> r == Err(HttpError(400, MSG_SAIDA_OBRIGATORIA))
      ensures body.Some? && TruthyStr(body.value.horaSaida) && !(1 <= rondaId <= |old(rondas)|)
        ==> r == Err(HttpError(404, MSG_NAO_ENCONTRADA))
      ensures (body.Some? && TruthyStr(body.value.horaSaida) && 1 <= rondaId <= |old(rondas)|
         && !IsActive(old(rondas)[rondaId - 1]))
        ==> r == Err(HttpError(400, MSG_APENAS_EM_ANDAMENTO))
      ensures r.Err? ==> rondas == old(rondas)
      ensures r.Ok? <==>
        (body.Some? && TruthyStr(body.value.horaSaida) && 1 <= rondaId <= |old(rondas)|
         && IsActive(old(rondas)[rondaId - 1]))
      ensures r.Ok? ==>
        (rondas == old(rondas)[rondaId - 1 := old(rondas)[rondaId - 1].(
         horaSaida := body.value.horaSaida,
         status := FINALIZADA,
         observacoes := if body.value.observacoes.Some? then body.value.observacoes.value else old(rondas)[rondaId - 1].observacoes,
         dataModificacao := now)])
    {
      if body.None? {
        return Err(HttpError(400, MSG_SEM_DADOS));
      }
      var p := body.value;
      if !TruthyStr(p.horaSaida) {
        return Err(HttpError(400, MSG_SAIDA_OBRIGATORIA));
      }
      FindByIdPositions(rondas, rondaId);
      var found := FindById(rondas, rondaId);
      if found.None? {
        return Err(HttpError(404, MSG_NAO_ENCONTRADA));
      }
      var i := found.value;
      var ronda := rondas[i];
      if ronda.status != EM_ANDAMENTO {
        return Err(HttpError(400, MSG_APENAS_EM_ANDAMENTO));
      }
      var obs := if p.observacoes.Some? then p.observacoes.value else ronda.observacoes;
      rondas := rondas[i := ronda.(horaSaida := p.horaSaida, status := FINALIZADA, observacoes := obs, dataModificacao := now)];
      r := Ok("Ronda esporádica finalizada com sucesso.");
    }

    /** `atualizar_ronda_esporadica`: replaces the observations when the body carries them and stamps the modification time. */
    method Atualizar(rondaId: int, body: Option<AtualizarPayload>, now: string) returns (r: Result<string>)
      requires Valid()
      modifies this
      ensures Valid()
      ensures body.None? ==> r == Err(HttpError(400, MSG_SEM_DADOS))
      ensures body.Some? && !(1 <= rondaId <= |old(rondas)|) ==> r == Err(HttpError(404, MSG_NAO_ENCONTRADA))
      ensures r.Err? ==> rondas == old(rondas)
      ensures r.Ok? <==> body.Some? && 1 <= rondaId <= |old(rondas)|
      ensures r.Ok? ==>
        (rondas == old(rondas)[rondaId - 1 := old(rondas)[rondaId - 1].(
         observacoes := if body.value.observacoes.Some? then body.value.observacoes.value else old(rondas)[rondaId - 1].observacoes,
         dataModificacao := now)])
    {
      if body.None? {
        return Err(HttpError(400, MSG_SEM_DADOS));
      }
      FindByIdPositions(rondas, rondaId);
      var found := FindById(rondas, rondaId);
      if found.None? {
        return Err(HttpError(404, MSG_NAO_ENCONTRADA));
      }
      var i := found.value;
      var ronda := rondas[i];
      var obs := if body.value.observacoes.Some? then body.value.observacoes.value else ronda.observacoes;
      rondas := rondas[i := ronda.(observacoes := obs, dataModificacao := now)];
      r := Ok("Ronda esporádica atualizada com sucesso.");
    }

    /** `listar_rondas_esporadicas_do_dia`: the rondas of the condominium and date, in store order. */
    method ListarDoDia(condominioId: int, data: string) returns (resultado: seq<RondaEsporadica>)
      ensures resultado == DoDia(rondas, condominioId, data)
    {
      resultado := [];
      var i := 0;
      while i < |rondas|
        invariant 0 <= i <= |rondas|
        invariant resultado == DoDia(rondas[..i], condominioId, data)
      {
        assert rondas[..i + 1][..i] == rondas[..i];
        if rondas[i].condominioId == condominioId && rondas[i].dataPlantao == data {
          resultado := resultado + [rondas[i]];
        }
        i := i + 1;
      }
      assert rondas[..i] == rondas;
    }

    /** `consolidar_turno_rondas_esporadicas`: the consolidated report of the day, or 404 when the day has no ronda. */
    method ConsolidarTurno(condominioId: int, data: string) returns (r: Result<Consolidacao>)
      ensures DoDia(rondas, condominioId, data) == [] <==> r == Err(HttpError(404, MSG_NADA_A_CONSOLIDAR))
      ensures r.Ok? <==> DoDia(rondas, condominioId, data) != []
      ensures r.Ok? ==>
        (r.value.totalRondas == |DoDia(rondas, condominioId, data)|
         && r.value.relatorio == ConsolidatedReport(condominioId, data, DoDia(rondas, condominioId, data))
         && r.value.periodo == data)
    {
      var doDia := ListarDoDia(condominioId, data);
      if doDia == [] {
        return Err(HttpError(404, MSG_NADA_A_CONSOLIDAR));
      }
      var relatorio := BuildConsolidatedReport(condominioId, data, doDia);
      r := Ok(Consolidacao(relatorio, |doDia|, data));
    }

    /** `detalhe_ronda_esporadica`: the ronda with the given id, or 404. */
    function Detalhe(rondaId: int): (r: Result<RondaEsporadica>)
      reads this
      requires Valid()
      ensures r.Ok? <==> 1 <= rondaId <= |rondas|
      ensures r.Ok? ==> r.value == rondas[rondaId - 1]
      ensures r.Err? ==> r.error == HttpError(404, MSG_NAO_ENCONTRADA)
    {
      FindByIdPositions(rondas, rondaId);
      match FindById(rondas, rondaId)
      case None => Err(HttpError(404, MSG_NAO_ENCONTRADA))
      case Some(i) => Ok(rondas[i])
    }
  }

  /** A new ronda can be appended without breaking the invariants when no ronda of its day is in progress. */
  lemma AppendKeepsInvariants(rs: seq<RondaEsporadica>, x: RondaEsporadica)
    requires IdsArePositions(rs) && AtMostOneActive(rs)
    requires x.id == |rs| + 1
    requires FindActive(rs, x.condominioId, x.dataPlantao).None?
    ensures IdsArePositions(rs + [x]) && AtMostOneActive(rs + [x])
  {
  }

  /** Closing or annotating a ronda keeps the ids and never adds a ronda in progress. */
  lemma UpdateKeepsInvariants(rs: seq<RondaEsporadica>, i: nat, y: RondaEsporadica)
    requires IdsArePositions(rs) && AtMostOneActive(rs) && i < |rs|
    requires y.id == rs[i].id && y.condominioId == rs[i].condominioId && y.dataPlantao == rs[i].dataPlantao
    requires IsActive(y) ==> IsActive(rs[i])
    ensures IdsArePositions(rs[i := y]) && AtMostOneActive(rs[i := y])
  {
  }
}
