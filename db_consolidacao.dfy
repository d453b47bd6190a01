/**
 * The database-backed consolidation routes of sporadic rondas: the status of
 * one day (counters and flags over the day's rows), the validation of the
 * statistics period, and the order of the calls in the complete process.
 */
module DbConsolidacao {
  import opened Common
  import opened Calendar
  import opened DbRondaEsporadica

  const PROCESSADA := "processada"
  const TIPO_ESPORADICA := "esporadica"

  const MSG_ERRO_STATUS := "Erro ao verificar status: "
  const MSG_DATAS_OBRIGATORIAS := "Data início e fim são obrigatórias"
  const MSG_FORMATO_DATA := "Formato de data inválido. Use YYYY-MM-DD"
  const MSG_ERRO_PROCESSO := "Erro no processo completo: "

  /** The columns of a main `Ronda` row that the status query reads. */
  datatype PrincipalRow = PrincipalRow(id: int, condominioId: int, dataPlantao: Date, tipo: string)

  // ------------------------------------------------------------------
  // Status of one day
  // ------------------------------------------------------------------

  datatype Status = Status(
    totalRondasEsporadicas: nat,
    rondasFinalizadas: nat,
    rondasProcessadas: nat,
    duracaoTotalMinutos: int,
    rondaPrincipalCriada: bool,
    rondaPrincipalId: Option<int>,
    podeConsolidar: bool,
    jaConsolidado: bool)

  predicate DoDia(r: Row, condominioId: int, data: Date)
  {
    r.condominioId == condominioId && r.dataPlantao == data
  }

  predicate PrincipalDoDia(p: PrincipalRow, condominioId: int, data: Date)
  {
    p.condominioId == condominioId && p.dataPlantao == data && p.tipo == TIPO_ESPORADICA
  }

  predicate IsProcessada(r: Row) { r.status == PROCESSADA }
  predicate TemDuracao(r: Row) { r.duracaoMinutos.Some? }

  /**
   * `status_consolidacao`: a date strptime refuses ends in a 500; otherwise
   * the counters of the day's sporadic rondas and whether the esporadica
   * main ronda of that day exists.
   */
  function StatusConsolidacao(rows: seq<Row>, principais: seq<PrincipalRow>, condominioId: int, data: string): (r: Result<Status>)
    ensures StrptimeIsoDate(data).None? <==> r.Err?
    ensures r.Err? ==> r.error.code == 500 && StartsWith(r.error.message, MSG_ERRO_STATUS)
    ensures r.Ok? ==>
      (var d := StrptimeIsoDate(data).value;
       var doDia := Filter(rows, (x: Row) => DoDia(x, condominioId, d));
       var s := r.value;
       s.totalRondasEsporadicas == |doDia|
       && s.rondasFinalizadas == CountIf(doDia, IsFinalizada)
       && s.rondasProcessadas == CountIf(doDia, IsProcessada)
       && s.rondasFinalizadas + s.rondasProcessadas <= s.totalRondasEsporadicas
       && s.duracaoTotalMinutos == SumOf(doDia, DuracaoOr0)
       && (s.podeConsolidar <==> exists x :: x in doDia && IsFinalizada(x))
       && (s.rondaPrincipalCriada <==> exists p :: p in principais && PrincipalDoDia(p, condominioId, d))
       && (s.rondaPrincipalId.Some? <==> s.rondaPrincipalCriada)
       && s.jaConsolidado == s.rondaPrincipalCriada)
  {
    match StrptimeIsoDate(data)
    case None => Err(HttpError(500, MSG_ERRO_STATUS))
    case Some(d) =>
      var doDia := Filter(rows, (x: Row) => DoDia(x, condominioId, d));
      var principal := FirstWhere(principais, (p: PrincipalRow) => PrincipalDoDia(p, condominioId, d));
      var total := |doDia|;
      var finalizadas := CountIf(doDia, IsFinalizada);
      CountIfDisjoint(doDia, IsFinalizada, IsProcessada);
      CountIfPositive(doDia, IsFinalizada);
      assert principal.Some? <==> exists p :: p in principais && PrincipalDoDia(p, condominioId, d) by {
        if principal.None? {
          forall p | p in principais
            ensures !PrincipalDoDia(p, condominioId, d)
          {
            var i :| 0 <= i < |principais| && principais[i] == p;
          }
        } else {
          assert principais[principal.value] in principais;
        }
      }
      Ok(Status(
        total,
        finalizadas,
        CountIf(doDia, IsProcessada),
        SumOf(doDia, DuracaoOr0),
        principal.Some?,
        if principal.Some? then Some(principais[principal.value].id) else None,
        total > 0 && finalizadas > 0,
        principal.Some?))
  }

  /** `sum(r.duracao_minutos or 0 ...)`: rondas without a duration add nothing, so the sum is that of the rondas that have one. */
  lemma {:induction false} DuracaoSemValorNaoConta(rs: seq<Row>)
    ensures SumOf(rs, DuracaoOr0) == SumOf(Filter(rs, TemDuracao), DuracaoOr0)
  {
    if |rs| > 0 {
      var init, last := rs[..|rs| - 1], rs[|rs| - 1];
      DuracaoSemValorNaoConta(init);
      var kept := Filter(init, TemDuracao);
      assert SumOf(rs, DuracaoOr0) == SumOf(init, DuracaoOr0) + DuracaoOr0(last);
      if TemDuracao(last) {
        assert Filter(rs, TemDuracao) == kept + [last];
        SumOfSnoc(kept, last, DuracaoOr0);
      } else {
        assert Filter(rs, TemDuracao) == kept + [];
        assert kept + [] == kept;
      }
    }
  }

  // ------------------------------------------------------------------
  // Statistics period
  // ------------------------------------------------------------------

  /** The checks of `obter_estatisticas_consolidacao` before the service call: both dates present and well formed. */
  function ValidarPeriodo(inicio: Option<string>, fim: Option<string>): (r: Result<(Date, Date)>)
    ensures !TruthyStr(inicio) || !TruthyStr(fim) <==> r == Err(HttpError(400, MSG_DATAS_OBRIGATORIAS))
    ensures TruthyStr(inicio) && TruthyStr(fim)
        && (StrptimeIsoDate(inicio.value).None? || StrptimeIsoDate(fim.value).None?)
      <==> r == Err(HttpError(400, MSG_FORMATO_DATA))
    ensures r.Ok? <==>
      (TruthyStr(inicio) && TruthyStr(fim)
       && StrptimeIsoDate(inicio.value).Some? && StrptimeIsoDate(fim.value).Some?)
    ensures r.Ok? ==>
      (Some(r.value.0) == StrptimeIsoDate(inicio.value) && Some(r.value.1) == StrptimeIsoDate(fim.value))
  {
    if !TruthyStr(inicio) || !TruthyStr(fim) then Err(HttpError(400, MSG_DATAS_OBRIGATORIAS))
    else match (StrptimeIsoDate(inicio.value), StrptimeIsoDate(fim.value))
      case (Some(di), Some(df)) => Ok((di, df))
      case _ => Err(HttpError(400, MSG_FORMATO_DATA))
  }

  // ------------------------------------------------------------------
  // Complete process: consolidate, send, then mark
  // ------------------------------------------------------------------

  /** What the consolidation service answers; the service itself is not part of this model. */
  datatype Consolidacao = Consolidacao(
    sucesso: bool,
    whatsappEnviado: bool,
    totalRondas: int,
    duracaoTotalMinutos: int,
    rondaPrincipalId: Option<int>)

  /** A call the route makes into the consolidation service. */
  datatype Chamada = Consolidar(condominioId: int, data: Date) | Marcar(condominioId: int, data: Date)

  datatype Resumo = Resumo(
    consolidacao: Consolidacao,
    rondasProcessadas: bool,
    totalRondas: int,
    duracaoTotalMinutos: int,
    whatsappEnviado: bool,
    rondaPrincipalId: Option<int>)

  /**
   * `processo_completo_consolidacao`. The service outcomes are parameters:
   * `consolidacao` is what consolidating answers and `marcou` what marking
   * answers. The route returns its answer and the calls it made, in order.
   */
  function ProcessoCompleto(condominioId: int, data: string, consolidacao: Consolidacao, marcou: bool): (r: (Result<Resumo>, seq<Chamada>))
    ensures StrptimeIsoDate(data).None? <==> r.0.Err? && r.0.error.code == 500
    ensures r.0.Err? && r.0.error.code == 500 ==> StartsWith(r.0.error.message, MSG_ERRO_PROCESSO)
    ensures StrptimeIsoDate(data).None? ==> r.1 == []
    ensures StrptimeIsoDate(data).Some? ==>
      (var d := StrptimeIsoDate(data).value;
       |r.1| >= 1 && r.1[0] == Consolidar(condominioId, d)
       && (Marcar(condominioId, d) in r.1 <==> consolidacao.sucesso && consolidacao.whatsappEnviado)
       && (r.1 == [Consolidar(condominioId, d)] || r.1 == [Consolidar(condominioId, d), Marcar(condominioId, d)])
       && (!consolidacao.sucesso <==> r.0.Err?))
    ensures r.0.Ok? ==>
      (r.0.value.consolidacao == consolidacao
       && r.0.value.rondasProcessadas == (consolidacao.whatsappEnviado && marcou)
       && r.0.value.totalRondas == consolidacao.totalRondas
       && r.0.value.whatsappEnviado == consolidacao.whatsappEnviado
       && r.0.value.duracaoTotalMinutos == consolidacao.duracaoTotalMinutos
       && r.0.value.rondaPrincipalId == consolidacao.rondaPrincipalId)
    ensures r.0.Err? && StrptimeIsoDate(data).Some? ==> r.0.error.code == 404
  {
    match StrptimeIsoDate(data)
    case None => (Err(HttpError(500, MSG_ERRO_PROCESSO)), [])
    case Some(d) =>
      // the 404 body is the service's own answer, which is not modelled
      if !consolidacao.sucesso then (Err(HttpError(404, "")), [Consolidar(condominioId, d)])
      else
        var calls := if consolidacao.whatsappEnviado then [Consolidar(condominioId, d), Marcar(condominioId, d)]
                     else [Consolidar(condominioId, d)];
        var processadas := consolidacao.whatsappEnviado && marcou;
        (Ok(Resumo(consolidacao, processadas, consolidacao.totalRondas, consolidacao.duracaoTotalMinutos,
                   consolidacao.whatsappEnviado, consolidacao.rondaPrincipalId)),
         calls)
  }
}
