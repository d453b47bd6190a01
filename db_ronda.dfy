/**
 * The database-backed ronda routes, over an abstract `Ronda` table: a
 * sequence of rows with an auto-increment id. Unlike the in-memory store, a
 * ronda blocks a new start only for the same condominium AND the same shift
 * date, and `finalizar` closes a ronda whatever its current status.
 */
module DbRonda {
  import opened Common
  import opened Calendar

  const EM_ANDAMENTO := "em_andamento"
  const FINALIZADA := "finalizada"
  const ESCALA_PADRAO := "06h às 18h"
  const USUARIO_PADRAO := 1

  const MSG_DATA_OBRIGATORIA := "Data do plantão é obrigatória."
  const MSG_SEM_DADOS := "Dados não fornecidos."
  const MSG_CAMPOS_OBRIGATORIOS := "Condomínio e data são obrigatórios."
  const MSG_JA_EM_ANDAMENTO := "Já existe uma ronda em andamento para este condomínio e data."
  const MSG_NAO_ENCONTRADA := "Ronda não encontrada."
  const MSG_ERRO_VERIFICAR := "Erro ao verificar ronda em andamento: "
  const MSG_ERRO_INICIAR := "Erro ao iniciar ronda: "

  /** The columns of a `Ronda` row the routes read or write. */
  datatype RondaRow = RondaRow(
    id: int,
    condominioId: int,
    dataPlantao: Date,
    escalaPlantao: string,
    supervisorId: Option<int>,
    userId: int,
    status: string,
    dataHoraInicio: string,
    dataHoraFim: Option<string>,
    logBruto: Option<string>,
    observacoes: Option<string>)

  /** JSON body of `iniciar`; None for a key that is absent. */
  datatype IniciarPayload = IniciarPayload(
    condominioId: Option<int>,
    dataPlantao: Option<string>,
    escalaPlantao: Option<string>,
    supervisorId: Option<int>,
    userId: Option<int>)

  /** JSON body of `finalizar` and `atualizar`: the keys copied when present. */
  datatype LogPayload = LogPayload(logBruto: Option<string>, observacoes: Option<string>)

  predicate IsActive(r: RondaRow) { r.status == EM_ANDAMENTO }

  /** The filter `condominio_id=c, data_plantao_ronda=d, status_ronda="em_andamento"`. */
  predicate ActiveSameDay(r: RondaRow, condominioId: int, d: Date)
  {
    r.condominioId == condominioId && r.dataPlantao == d && IsActive(r)
  }

  /** The rule of the in-memory store: any ronda of the condominium in progress, whatever its date. */
  predicate ActiveAnyDay(r: RondaRow, condominioId: int)
  {
    r.condominioId == condominioId && IsActive(r)
  }

  /** Ids are distinct and below the next id the sequence will hand out. */
  ghost predicate IdsBelow(rows: seq<RondaRow>, nextId: int)
  {
    (forall i :: 0 <= i < |rows| ==> 1 <= rows[i].id < nextId)
    && (forall i, j :: 0 <= i < j < |rows| ==> rows[i].id != rows[j].id)
  }

  /** At most one ronda in progress per condominium and date. */
  ghost predicate AtMostOneActiveSameDay(rows: seq<RondaRow>)
  {
    forall i, j :: 0 <= i < j < |rows| && IsActive(rows[i]) && IsActive(rows[j]) ==>
      rows[i].condominioId != rows[j].condominioId || rows[i].dataPlantao != rows[j].dataPlantao
  }

  /** A row matching the in-progress filter (`.first()`; the table order is not modelled, so the first in sequence order). */
  function FindActiveSameDay(rows: seq<RondaRow>, condominioId: int, d: Date): (r: Option<nat>)
    ensures r.Some? ==> r.value < |rows| && ActiveSameDay(rows[r.value], condominioId, d)
    ensures r.None? ==> forall j :: 0 <= j < |rows| ==> !ActiveSameDay(rows[j], condominioId, d)
  {
    FirstWhere(rows, (x: RondaRow) => ActiveSameDay(x, condominioId, d))
  }

  /** `get_ronda_by_id`. */
  function FindById(rows: seq<RondaRow>, id: int): (r: Option<nat>)
    ensures r.Some? ==> r.value < |rows| && rows[r.value].id == id
    ensures r.None? ==> forall j :: 0 <= j < |rows| ==> rows[j].id != id
  {
    FirstWhere(rows, (x: RondaRow) => x.id == id)
  }

  /** The same-date rule is weaker than the any-date rule: whatever it refuses, the in-memory rule refuses too. */
  lemma SameDayConflictIsAnyDayConflict(rows: seq<RondaRow>, condominioId: int, d: Date)
    ensures FindActiveSameDay(rows, condominioId, d).Some? ==>
      exists j :: 0 <= j < |rows| && ActiveAnyDay(rows[j], condominioId)
  {
    if FindActiveSameDay(rows, condominioId, d).Some? {
      var j := FindActiveSameDay(rows, condominioId, d).value;
      assert ActiveAnyDay(rows[j], condominioId);
    }
  }

  /** The converse fails: a ronda still open on the 1st lets the table start another on the 2nd, which the in-memory rule refuses. */
  lemma AnyDayConflictNotSameDay()
    ensures var rows := [RondaRow(1, 7, Date(2024, 1, 1), ESCALA_PADRAO, None, 1, EM_ANDAMENTO, "", None, None, None)];
      ActiveAnyDay(rows[0], 7) && FindActiveSameDay(rows, 7, Date(2024, 1, 2)).None?
  {
  }

  /** The row `iniciar` adds. */
  function NewRow(id: int, condominioId: int, d: Date, p: IniciarPayload, now: string): (r: RondaRow)
    ensures r.id == id && r.condominioId == condominioId && r.dataPlantao == d && IsActive(r)
    ensures r.escalaPlantao == (if p.escalaPlantao.Some? then p.escalaPlantao.value else ESCALA_PADRAO)
    ensures r.userId == (if p.userId.Some? then p.userId.value else USUARIO_PADRAO)
    ensures r.supervisorId == p.supervisorId
  {
    RondaRow(id, condominioId, d,
             if p.escalaPlantao.Some? then p.escalaPlantao.value else ESCALA_PADRAO,
             p.supervisorId,
             if p.userId.Some? then p.userId.value else USUARIO_PADRAO,
             EM_ANDAMENTO, now, None, None, None)
  }

  /** A row with the `log_bruto` and `observacoes` keys of the body copied in when present. */
  function WithLog(r: RondaRow, p: LogPayload): RondaRow
  {
    r.(logBruto := if p.logBruto.Some? then p.logBruto else r.logBruto,
       observacoes := if p.observacoes.Some? then p.observacoes else r.observacoes)
  }

  /** The table of rondas and its id sequence. */
  class RondaTable {
    var rows: seq<RondaRow>
    var nextId: int

    ghost predicate Valid()
      reads this
    {
      nextId >= 1 && IdsBelow(rows, nextId) && AtMostOneActiveSameDay(rows)
    }

    constructor()
      ensures rows == [] && nextId == 1 && Valid()
    {
      rows := [];
      nextId := 1;
    }

    /**
     * `verificar_ronda_em_andamento`: a missing date is a 400, a date that
     * `strptime("%Y-%m-%d")` refuses raises and ends in a 500; otherwise the
     * condominium's ronda in progress on that date, if any.
     */
    function VerificarEmAndamento(condominioId: int, dataPlantao: Option<string>): (r: Result<Option<RondaRow>>)
      reads this
      ensures !TruthyStr(dataPlantao) <==> r == Err(HttpError(400, MSG_DATA_OBRIGATORIA))
      ensures TruthyStr(dataPlantao) && StrptimeIsoDate(dataPlantao.value).None? <==> r.Err? && r.error.code == 500
      ensures r.Err? && r.error.code == 500 ==> StartsWith(r.error.message, MSG_ERRO_VERIFICAR)
      ensures r.Ok? <==> TruthyStr(dataPlantao) && StrptimeIsoDate(dataPlantao.value).Some?
      ensures r.Ok? && r.value.Some? ==>
        (r.value.value in rows && ActiveSameDay(r.value.value, condominioId, StrptimeIsoDate(dataPlantao.value).value))
      ensures r.Ok? && r.value.None? ==>
        forall j :: 0 <= j < |rows| ==> !ActiveSameDay(rows[j], condominioId, StrptimeIsoDate(dataPlantao.value).value)
    {
      if !TruthyStr(dataPlantao) then Err(HttpError(400, MSG_DATA_OBRIGATORIA))
      else match StrptimeIsoDate(dataPlantao.value)
        case None => Err(HttpError(500, MSG_ERRO_VERIFICAR))
        case Some(d) =>
          match FindActiveSameDay(rows, condominioId, d)
          case None => Ok(None)
          case Some(i) => Ok(Some(rows[i]))
    }

    /** `iniciar_ronda`: validates the body, parses the date and adds a ronda in progress. */
    method Iniciar(body: Option<IniciarPayload>, now: string) returns (r: Result<int>)
      requires Valid()
      modifies this
      ensures Valid()
      ensures body.None? ==> r == Err(HttpError(400, MSG_SEM_DADOS))
      ensures body.Some? && !(TruthyInt(body.value.condominioId) && TruthyStr(body.value.dataPlantao))
        ==> r == Err(HttpError(400, MSG_CAMPOS_OBRIGATORIOS))
      ensures (body.Some? && TruthyInt(body.value.condominioId) && TruthyStr(body.value.dataPlantao)
         && StrptimeIsoDate(body.value.dataPlantao.value).None?)
        ==> r.Err? && r.error.code == 500 && StartsWith(r.error.message, MSG_ERRO_INICIAR)
      ensures (body.Some? && TruthyInt(body.value.condominioId) && TruthyStr(body.value.dataPlantao)
         && StrptimeIsoDate(body.value.dataPlantao.value).Some?
         && FindActiveSameDay(old(rows), body.value.condominioId.value, StrptimeIsoDate(body.value.dataPlantao.value).value).Some?)
        ==> r == Err(HttpError(400, MSG_JA_EM_ANDAMENTO))
      ensures r.Err? ==> rows == old(rows) && nextId == old(nextId)
      ensures r.Ok? <==>
        (body.Some? && TruthyInt(body.value.condominioId) && TruthyStr(body.value.dataPlantao)
         && StrptimeIsoDate(body.value.dataPlantao.value).Some?
         && FindActiveSameDay(old(rows), body.value.condominioId.value, StrptimeIsoDate(body.value.dataPlantao.value).value).None?)
      ensures r.Ok? ==>
        (r.value == old(nextId) && nextId == old(nextId) + 1
         && rows == old(rows) + [NewRow(r.value, body.value.condominioId.value,
                                        StrptimeIsoDate(body.value.dataPlantao.value).value, body.value, now)])
    {
      if body.None? {
        return Err(HttpError(400, MSG_SEM_DADOS));
      }
      var p := body.value;
      if !TruthyInt(p.condominioId) || !TruthyStr(p.dataPlantao) {
        return Err(HttpError(400, MSG_CAMPOS_OBRIGATORIOS));
      }
      var parsed := StrptimeIsoDate(p.dataPlantao.value);
      if parsed.None? {
        return Err(HttpError(500, MSG_ERRO_INICIAR));
      }
      var d := parsed.value;
      if FindActiveSameDay(rows, p.condominioId.value, d).Some? {
        return Err(HttpError(400, MSG_JA_EM_ANDAMENTO));
      }
      var nova := NewRow(nextId, p.condominioId.value, d, p, now);
      rows := rows + [nova];
      nextId := nextId + 1;
      r := Ok(nova.id);
    }

    /** `finalizar_ronda`: copies the log keys present in the body and closes the ronda, whatever its status. */
    method Finalizar(rondaId: int, body: Option<LogPayload>, now: string) returns (r: Result<string>)
      requires Valid()
      modifies this
      ensures Valid()
      ensures nextId == old(nextId)
      ensures body.None? ==> r == Err(HttpError(400, MSG_SEM_DADOS))
      ensures body.Some? && FindById(old(rows), rondaId).None? ==> r == Err(HttpError(404, MSG_NAO_ENCONTRADA))
      ensures r.Err? ==> rows == old(rows)
      ensures r.Ok? <==> body.Some? && FindById(old(rows), rondaId).Some?
      ensures r.Ok? ==>
        (var i := FindById(old(rows), rondaId).value;
         rows == old(rows)[i := WithLog(old(rows)[i], body.value).(status := FINALIZADA, dataHoraFim := Some(now))])
    {
      if body.None? {
        return Err(HttpError(400, MSG_SEM_DADOS));
      }
      var found := FindById(rows, rondaId);
      if found.None? {
        return Err(HttpError(404, MSG_NAO_ENCONTRADA));
      }
      var i := found.value;
      rows := rows[i := WithLog(rows[i], body.value).(status := FINALIZADA, dataHoraFim := Some(now))];
      r := Ok("Ronda finalizada com sucesso!");
    }

    /** `atualizar_ronda`: copies the log keys present in the body; the status is not touched. */
    method Atualizar(rondaId: int, body: Option<LogPayload>) returns (r: Result<string>)
      requires Valid()
      modifies this
      ensures Valid()
      ensures nextId == old(nextId)
      ensures body.None? ==> r == Err(HttpError(400, MSG_SEM_DADOS))
      ensures body.Some? && FindById(old(rows), rondaId).None? ==> r == Err(HttpError(404, MSG_NAO_ENCONTRADA))
      ensures r.Err? ==> rows == old(rows)
      ensures r.Ok? <==> body.Some? && FindById(old(rows), rondaId).Some?
      ensures r.Ok? ==>
        (var i := FindById(old(rows), rondaId).value;
         rows == old(rows)[i := WithLog(old(rows)[i], body.value)]
         && rows[i].status == old(rows)[i].status)
    {
      if body.None? {
        return Err(HttpError(400, MSG_SEM_DADOS));
      }
      var found := FindById(rows, rondaId);
      if found.None? {
        return Err(HttpError(404, MSG_NAO_ENCONTRADA));
      }
      var i := found.value;
      rows := rows[i := WithLog(rows[i], body.value)];
      r := Ok("Ronda atualizada com sucesso!");
    }
  }
}
