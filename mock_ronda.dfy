/**
 * The in-memory store of regular patrols ("rondas") behind the `/rondas/...`
 * API routes: a module-level list that `iniciar` appends to and whose records
 * `finalizar` and `atualizar` update in place. Unlike the sporadic store, a
 * ronda is "in progress" for its condominium whatever its shift date.
 */
module MockRonda {
  import opened Common
  import Calendar

  const EM_ANDAMENTO := "em_andamento"
  const FINALIZADA := "finalizada"
  const ESCALA_PADRAO := "06h às 18h"

  const MSG_SEM_DADOS := "Dados não fornecidos."
  const MSG_CAMPOS_OBRIGATORIOS := "Condomínio e data são obrigatórios."
  const MSG_JA_EM_ANDAMENTO := "Já existe uma ronda em andamento para este condomínio."
  const MSG_NAO_ENCONTRADA := "Ronda não encontrada."
  const MSG_APENAS_EM_ANDAMENTO := "Apenas rondas em andamento podem ser finalizadas."
  const MSG_SEM_RONDAS_NA_DATA := "Nenhuma ronda encontrada para esta data."
  const MSG_ERRO_LISTAR := "Erro ao listar rondas: "

  /** A UTC moment: the `isoformat()` text the store keeps and the whole seconds `fromisoformat` reads back from it. */
  datatype Instant = Instant(iso: string, seconds: int)

  /** What the routes read from the clock: the local minute of the day (for `strftime('%H:%M')`), the local `isoformat()` and the UTC moment. */
  datatype Clock = Clock(localMinute: int, localIso: string, utc: Instant)

  predicate ValidClock(c: Clock) { 0 <= c.localMinute < 1440 }

  /** One dictionary of `RONDAS_MOCK`. Keys the store may lack are Options. */
  datatype Ronda = Ronda(
    id: int,
    condominioId: int,
    dataPlantao: string,
    escalaPlantao: string,
    logBruto: string,
    status: string,
    primeiroEvento: Instant,
    ultimoEvento: Option<Instant>,
    supervisorId: int,
    duracaoTotalMinutos: Option<int>,
    observacoes: Option<string>,
    dataCriacao: string,
    dataModificacao: string)

  /** JSON body of `iniciar`; None for a key that is absent. */
  datatype IniciarPayload = IniciarPayload(
    condominioId: Option<int>,
    dataPlantao: Option<string>,
    escalaPlantao: Option<string>,
    supervisorId: Option<int>)

  /** JSON body of `atualizar`: the two keys it copies when present. */
  datatype AtualizarPayload = AtualizarPayload(logBruto: Option<string>, observacoes: Option<string>)

  predicate IsActive(r: Ronda) { r.status == EM_ANDAMENTO }

  /** Ids are the positions 1..n, as allocated by `len(RONDAS_MOCK) + 1` on an append-only list. */
  ghost predicate IdsArePositions(rs: seq<Ronda>)
  {
    forall i :: 0 <= i < |rs| ==> rs[i].id == i + 1
  }

  /** At most one ronda in progress per condominium, whatever the date. */
  ghost predicate AtMostOneActive(rs: seq<Ronda>)
  {
    forall i, j :: 0 <= i < j < |rs| && IsActive(rs[i]) && IsActive(rs[j]) ==>
      rs[i].condominioId != rs[j].condominioId
  }

  /** Index of the first ronda in progress for the condominium, in list order. */
  function FindActive(rs: seq<Ronda>, condominioId: int): (r: Option<nat>)
    ensures r.Some? ==>
      (r.value < |rs| && IsActive(rs[r.value]) && rs[r.value].condominioId == condominioId
       && forall j :: 0 <= j < r.value && rs[j].condominioId == condominioId ==> !IsActive(rs[j]))
    ensures r.None? ==> forall j :: 0 <= j < |rs| && rs[j].condominioId == condominioId ==> !IsActive(rs[j])
  {
    FirstWhere(rs, (x: Ronda) => x.condominioId == condominioId && IsActive(x))
  }

  /** Index of the ronda with the given id. */
  function FindById(rs: seq<Ronda>, id: int): (r: Option<nat>)
    ensures r.Some? ==> r.value < |rs| && rs[r.value].id == id
    ensures r.None? ==> forall j :: 0 <= j < |rs| ==> rs[j].id != id
  {
    FirstWhere(rs, (x: Ronda) => x.id == id)
  }

  /** On a store whose ids are its positions, the ronda with id n is found exactly when 1 <= n <= length, at position n - 1. */
  lemma FindByIdPositions(rs: seq<Ronda>, id: int)
    requires IdsArePositions(rs)
    ensures FindById(rs, id).Some? <==> 1 <= id <= |rs|
    ensures FindById(rs, id).Some? ==> FindById(rs, id).value == id - 1
  {
    if 1 <= id <= |rs| {
      assert rs[id - 1].id == id;
    }
  }

  predicate OfDay(r: Ronda, condominioId: int, data: string)
  {
    r.condominioId == condominioId && r.dataPlantao == data
  }

  /** `[r for r in RONDAS_MOCK if r['condominio_id'] == c and r['data_plantao'] == data]`. */
  function DoDia(rs: seq<Ronda>, condominioId: int, data: string): (r: seq<Ronda>)
    ensures |r| <= |rs|
    ensures forall x :: x in r ==> x in rs && OfDay(x, condominioId, data)
  {
    Filter(rs, (x: Ronda) => OfDay(x, condominioId, data))
  }

  /** Every ronda of the store for the condominium and date is selected. */
  lemma DoDiaComplete(rs: seq<Ronda>, condominioId: int, data: string, x: Ronda)
    requires x in rs && OfDay(x, condominioId, data)
    ensures x in DoDia(rs, condominioId, data)
  {
    FilterKeeps(rs, (x: Ronda) => OfDay(x, condominioId, data), x);
  }

  /**
   * `int((fim - inicio).total_seconds() / 60)`: the elapsed whole minutes,
   * truncated toward zero (a clock that went backwards gives a negative count).
   */
  function DurationMinutes(inicio: Instant, fim: Instant): (m: int)
    ensures fim.seconds >= inicio.seconds ==>
      (m >= 0 && 60 * m <= fim.seconds - inicio.seconds < 60 * m + 60)
    ensures fim.seconds < inicio.seconds ==>
      (m <= 0 && 60 * m - 60 < fim.seconds - inicio.seconds <= 60 * m)
  {
    TruncDiv(fim.seconds - inicio.seconds, 60)
  }

  /** The log line written when a ronda starts. */
  function LogInicio(minute: int): string
    requires 0 <= minute < 1440
  {
    "Início de ronda: " + Calendar.FormatHourMinute(minute)
  }

  /** The line `finalizar` appends to the log. */
  function LogTermino(minute: int): string
    requires 0 <= minute < 1440
  {
    "\nTérmino de ronda: " + Calendar.FormatHourMinute(minute)
  }

  /** The record `iniciar` builds: escala defaults to "06h às 18h" and supervisor to 1 when the keys are absent. */
  function NewRonda(id: int, p: IniciarPayload, clock: Clock): (r: Ronda)
    requires p.condominioId.Some? && p.dataPlantao.Some? && ValidClock(clock)
    ensures r.id == id && IsActive(r) && r.condominioId == p.condominioId.value && r.dataPlantao == p.dataPlantao.value
    ensures r.escalaPlantao == (if p.escalaPlantao.Some? then p.escalaPlantao.value else ESCALA_PADRAO)
    ensures r.supervisorId == (if p.supervisorId.Some? then p.supervisorId.value else 1)
    ensures StartsWith(r.logBruto, "Início de ronda: ")
    ensures r.ultimoEvento.None? && r.duracaoTotalMinutos.None? && r.observacoes.None?
  {
    Ronda(id, p.condominioId.value, p.dataPlantao.value,
          if p.escalaPlantao.Some? then p.escalaPlantao.value else ESCALA_PADRAO,
          LogInicio(clock.localMinute), EM_ANDAMENTO, clock.utc, None,
          if p.supervisorId.Some? then p.supervisorId.value else 1,
          None, None, clock.localIso, clock.localIso)
  }

  /** The ronda as `finalizar` leaves it. */
  function Finished(r: Ronda, clock: Clock): Ronda
    requires ValidClock(clock)
  {
    r.(status := FINALIZADA,
       ultimoEvento := Some(clock.utc),
       logBruto := r.logBruto + LogTermino(clock.localMinute),
       dataModificacao := clock.localIso,
       duracaoTotalMinutos := Some(DurationMinutes(r.primeiroEvento, clock.utc)))
  }

  /** Finishing keeps the old log as a prefix of the new one and never leaves the ronda in progress. */
  lemma FinishedExtendsLog(r: Ronda, clock: Clock)
    requires ValidClock(clock)
    ensures StartsWith(Finished(r, clock).logBruto, r.logBruto)
    ensures !IsActive(Finished(r, clock))
    ensures Finished(r, clock).duracaoTotalMinutos.Some?
  {
    var log := Finished(r, clock).logBruto;
    assert log[..|r.logBruto|] == r.logBruto;
  }

  // ------------------------------------------------------------------
  // The report
  // ------------------------------------------------------------------

  /** Heading of the report of a condominium and date. */
  function ReportHeader(condominioId: int, data: string, total: nat): string
  {
    "\nRELATÓRIO DE RONDAS - CONDOMÍNIO " + IntToString(condominioId)
    + "\nData: " + data + "\nTotal de Rondas: " + NatToString(total) + "\n\nDETALHES:\n"
  }

  /** The value Python prints for `r.get(key, 'N/A')`. */
  function OrNA(o: Option<string>): string { if o.Some? then o.value else "N/A" }

  /** The block the report holds for one ronda; a missing duration prints as 0. */
  function Block(r: Ronda): string
  {
    "\nRonda #" + IntToString(r.id) + "\n- Status: " + r.status + "\n- Escala: " + r.escalaPlantao
    + "\n- Início: " + r.primeiroEvento.iso
    + "\n- Fim: " + OrNA(if r.ultimoEvento.Some? then Some(r.ultimoEvento.value.iso) else None)
    + "\n- Duração: " + IntToString(if r.duracaoTotalMinutos.Some? then r.duracaoTotalMinutos.value else 0)
    + " minutos\n- Log: " + r.logBruto + "\n"
  }

  function Report(condominioId: int, data: string, rs: seq<Ronda>): string
  {
    ReportHeader(condominioId, data, |rs|) + ConcatMap(rs, Block)
  }

  /** The block of the i-th ronda sits right after the blocks of the rondas before it: one block per ronda, in list order. */
  lemma BlockInOrder(rs: seq<Ronda>, i: nat)
    requires i < |rs|
    ensures ConcatMap(rs, Block) == ConcatMap(rs[..i], Block) + Block(rs[i]) + ConcatMap(rs[i + 1..], Block)
  {
    ConcatMapAt(rs, i, Block);
  }

  /** `RONDAS_MOCK`. */
  class RondaStore {
    var rondas: seq<Ronda>

    ghost predicate Valid()
      reads this
    {
      IdsArePositions(rondas) && AtMostOneActive(rondas)
    }

    constructor()
      ensures rondas == [] && Valid()
    {
      rondas := [];
    }

    /** `ronda_em_andamento`: the first ronda in progress of the condominium, in list order, or none. */
    function EmAndamento(condominioId: int): (r: Option<Ronda>)
      reads this
      ensures r.Some? ==>
        (exists i :: 0 <= i < |rondas| && rondas[i] == r.value
          && IsActive(rondas[i]) && rondas[i].condominioId == condominioId
          && forall j :: 0 <= j < i && rondas[j].condominioId == condominioId ==> !IsActive(rondas[j]))
      ensures r.None? ==> forall j :: 0 <= j < |rondas| && rondas[j].condominioId == condominioId ==> !IsActive(rondas[j])
    {
      match FindActive(rondas, condominioId)
      case None => None
      case Some(i) => Some(rondas[i])
    }

    /** `listar_rondas_do_dia`: a date that `strptime("%Y-%m-%d")` refuses ends in a 500; otherwise the rondas of the day in list order. */
    method ListarDoDia(condominioId: int, data: string) returns (r: Result<seq<Ronda>>)
      ensures Calendar.StrptimeIsoDate(data).None? <==> r.Err?
      ensures r.Err? ==> r.error.code == 500 && StartsWith(r.error.message, MSG_ERRO_LISTAR)
      ensures r.Ok? ==> r.value == DoDia(rondas, condominioId, data)
    {
      if Calendar.StrptimeIsoDate(data).None? {
        return Err(HttpError(500, MSG_ERRO_LISTAR));
      }
      var resultado := [];
      var i := 0;
      while i < |rondas|
        invariant 0 <= i <= |rondas|
        invariant resultado == DoDia(rondas[..i], condominioId, data)
      {
        assert rondas[..i + 1][..i] == rondas[..i];
        if rondas[i].condominioId == condominioId && rondas[i].dataPlantao == data {
          resultado := resultado + [rondas[i]];
        }
        i := i + 1;
      }
      assert rondas[..i] == rondas;
      r := Ok(resultado);
    }

    /** `iniciar_ronda`: validates the body and appends a new ronda in progress. */
    method Iniciar(body: Option<IniciarPayload>, clock: Clock) returns (r: Result<int>)
      requires Valid() && ValidClock(clock)
      modifies this
      ensures Valid()
      ensures body.None? ==> r == Err(HttpError(400, MSG_SEM_DADOS))
      ensures body.Some? && !(TruthyInt(body.value.condominioId) && TruthyStr(body.value.dataPlantao))
        ==> r == Err(HttpError(400, MSG_CAMPOS_OBRIGATORIOS))
      ensures (body.Some? && TruthyInt(body.value.condominioId) && TruthyStr(body.value.dataPlantao)
         && FindActive(old(rondas), body.value.condominioId.value).Some?)
        ==> r == Err(HttpError(400, MSG_JA_EM_ANDAMENTO))
      ensures r.Err? ==> rondas == old(rondas)
      ensures r.Ok? <==>
        (body.Some? && TruthyInt(body.value.condominioId) && TruthyStr(body.value.dataPlantao)
         && FindActive(old(rondas), body.value.condominioId.value).None?)
      ensures r.Ok? ==>
        (r.value == |old(rondas)| + 1
         && rondas == old(rondas) + [NewRonda(r.value, body.value, clock)])
    {
      if body.None? {
        return Err(HttpError(400, MSG_SEM_DADOS));
      }
      var p := body.value;
      if !TruthyInt(p.condominioId) || !TruthyStr(p.dataPlantao) {
        return Err(HttpError(400, MSG_CAMPOS_OBRIGATORIOS));
      }
      if FindActive(rondas, p.condominioId.value).Some? {
        return Err(HttpError(400, MSG_JA_EM_ANDAMENTO));
      }
      var nova := NewRonda(|rondas| + 1, p, clock);
      rondas := rondas + [nova];
      r := Ok(nova.id);
    }

    /** `finalizar_ronda`: closes a ronda in progress, extends its log and stores its duration, which it returns. */
    method Finalizar(rondaId: int, clock: Clock) returns (r: Result<int>)
      requires Valid() && ValidClock(clock)
      modifies this
      ensures Valid()
      ensures !(1 <= rondaId <= |old(rondas)|) ==> r == Err(HttpError(404, MSG_NAO_ENCONTRADA))
      ensures 1 <= rondaId <= |old(rondas)| && !IsActive(old(rondas)[rondaId - 1])
        ==> r == Err(HttpError(400, MSG_APENAS_EM_ANDAMENTO))
      ensures r.Err? ==> rondas == old(rondas)
      ensures r.Ok? <==> 1 <= rondaId <= |old(rondas)| && IsActive(old(rondas)[rondaId - 1])
      ensures r.Ok? ==>
        (rondas == old(rondas)[rondaId - 1 := Finished(old(rondas)[rondaId - 1], clock)]
         && r.value == DurationMinutes(old(rondas)[rondaId - 1].primeiroEvento, clock.utc)
         && StartsWith(rondas[rondaId - 1].logBruto, old(rondas)[rondaId - 1].logBruto))
    {
      FindByIdPositions(rondas, rondaId);
      var found := FindById(rondas, rondaId);
      if found.None? {
        return Err(HttpError(404, MSG_NAO_ENCONTRADA));
      }
      var i := found.value;
      var ronda := rondas[i];
      if ronda.status != EM_ANDAMENTO {
        return Err(HttpError(400, MSG_APENAS_EM_ANDAMENTO));
      }
      FinishedExtendsLog(ronda, clock);
      var fim := Finished(ronda, clock);
      rondas := rondas[i := fim];
      r := Ok(fim.duracaoTotalMinutos.value);
    }

    /** `atualizar_ronda`: copies the `log_bruto` and `observacoes` keys present in the body and stamps the modification time. */
    method Atualizar(rondaId: int, body: Option<AtualizarPayload>, now: string) returns (r: Result<string>)
      requires Valid()
      modifies this
      ensures Valid()
      ensures body.None? ==> r == Err(HttpError(400, MSG_SEM_DADOS))
      ensures body.Some? && !(1 <= rondaId <= |old(rondas)|) ==> r == Err(HttpError(404, MSG_NAO_ENCONTRADA))
      ensures r.Err? ==> rondas == old(rondas)
      ensures r.Ok? <==> body.Some? && 1 <= rondaId <= |old(rondas)|
      ensures r.Ok? ==>
        (rondas == old(rondas)[rondaId - 1 := old(rondas)[rondaId - 1].(
         logBruto := if body.value.logBruto.Some? then body.value.logBruto.value else old(rondas)[rondaId - 1].logBruto,
         observacoes := if body.value.observacoes.Some? then body.value.observacoes else old(rondas)[rondaId - 1].observacoes,
         dataModificacao := now)]
         && rondas[rondaId - 1].status == old(rondas)[rondaId - 1].status)
    {
      if body.None? {
        return Err(HttpError(400, MSG_SEM_DADOS));
      }
      FindByIdPositions(rondas, rondaId);
      var found := FindById(rondas, rondaId);
      if found.None? {
        return Err(HttpError(404, MSG_NAO_ENCONTRADA));
      }
      var i := found.value;
      var ronda := rondas[i];
      var p := body.value;
      var log := if p.logBruto.Some? then p.logBruto.value else ronda.logBruto;
      var obs := if p.observacoes.Some? then p.observacoes else ronda.observacoes;
      rondas := rondas[i := ronda.(logBruto := log, observacoes := obs, dataModificacao := now)];
      r := Ok("Ronda atualizada com sucesso.");
    }

    /** `gerar_relatorio_ronda`: 404 when the day has no ronda, otherwise the report built by the `+=` loop. */
    method GerarRelatorio(condominioId: int, data: string) returns (r: Result<string>)
      ensures DoDia(rondas, condominioId, data) == [] <==> r == Err(HttpError(404, MSG_SEM_RONDAS_NA_DATA))
      ensures r.Ok? <==> DoDia(rondas, condominioId, data) != []
      ensures r.Ok? ==> r.value == Report(condominioId, data, DoDia(rondas, condominioId, data))
    {
      var doDia := DoDia(rondas, condominioId, data);
      if doDia == [] {
        return Err(HttpError(404, MSG_SEM_RONDAS_NA_DATA));
      }
      var relatorio := AppendEach(ReportHeader(condominioId, data, |doDia|), doDia, Block);
      r := Ok(relatorio);
    }

    /** `detalhe_ronda`: the ronda with the given id, or 404. */
    function Detalhe(rondaId: int): (r: Result<Ronda>)
      reads this
      requires Valid()
      ensures r.Ok? <==> 1 <= rondaId <= |rondas|
      ensures r.Ok? ==> r.value == rondas[rondaId - 1]
      ensures r.Err? ==> r.error == HttpError(404, MSG_NAO_ENCONTRADA)
    {
      FindByIdPositions(rondas, rondaId);
      match FindById(rondas, rondaId)
      case None => Err(HttpError(404, MSG_NAO_ENCONTRADA))
      case Some(i) => Ok(rondas[i])
    }
  }
}
