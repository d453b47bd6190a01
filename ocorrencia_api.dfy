/**
 * The occurrence API used by the mobile app: the report analyser, the
 * occurrence history (filters built from the query string, the 100 most
 * recent occurrences) and the saving of a new occurrence awaiting review.
 */
module OcorrenciaApi {
  import opened Common
  import opened ReportExtraction
  import opened OcorrenciaRoutes

  const LIMITE_HISTORICO := 100

  const MSG_SEM_DADOS := "Dados não fornecidos."
  const MSG_RELATORIO_OBRIGATORIO := "Relatório final é obrigatório."

  // ------------------------------------------------------------------
  // Report analyser
  // ------------------------------------------------------------------

  /** The field step 3 adds here: the classifier's type name, when it gives one. */
  function CamposTipoNome(classificacao: Option<string>): map<Chave, Valor>
  {
    if TruthyStr(classificacao) then map[ChaveTipoOcorrencia := Texto(classificacao.value)] else map[]
  }

  /** What the API analyser answers for what the patterns found. */
  function CamposApiDe(dh: Option<DataHora>, local: Option<string>, condominios: seq<Condominio>,
                       classificacao: Option<string>, corrigido: string): map<Chave, Valor>
  {
    CamposDataHora(dh) + CamposLocal(local, condominios) + CamposTipoNome(classificacao)
    + map[ChaveRelatorioCorrigido := Texto(corrigido)]
  }

  /** Everything the API analyser answers for the cleaned text `t`. */
  function CamposApi(t: string, condominios: seq<Condominio>, classificacao: Option<string>, corrigido: string): map<Chave, Valor>
  {
    CamposApiDe(ExtrairDataHora(t), ExtrairLocal(t), condominios, classificacao, corrigido)
  }

  /** Step 3 of `analisar_relatorio_api`. */
  method PassoTipoNome(dados: map<Chave, Valor>, classificacao: Option<string>) returns (out: map<Chave, Valor>)
    ensures out == dados + CamposTipoNome(classificacao)
  {
    out := dados;
    if TruthyStr(classificacao) {
      out := out[ChaveTipoOcorrencia := Texto(classificacao.value)];
    }
  }

  /** The steps of `analisar_relatorio_api` after the empty-text check, on what the patterns found. */
  method PreencherApi(dh: Option<DataHora>, local: Option<string>, condominios: seq<Condominio>,
                      classificacao: Option<string>, corrigido: string)
    returns (d: map<Chave, Valor>)
    ensures d == CamposApiDe(dh, local, condominios, classificacao, corrigido)
  {
    var a := PassoDataHora(map[], dh);
    assert a == CamposDataHora(dh);
    var b := PassoLocal(a, local, condominios);
    var c := PassoTipoNome(b, classificacao);
    d := c[ChaveRelatorioCorrigido := Texto(corrigido)];
    assert d == c + map[ChaveRelatorioCorrigido := Texto(corrigido)];
  }

  /**
   * `analisar_relatorio_api`: the same date, turno, address and condominium
   * steps as the page analyser, then the classifier's type name and the
   * corrected report. `classificacao` is the classifier's answer on the
   * cleaned text and `corrigir` the report service, which receives the text
   * as sent, not the cleaned one.
   */
  method AnalisarRelatorioApi(texto: Option<string>, condominios: seq<Condominio>, classificacao: Option<string>,
                              corrigir: string -> string)
    returns (r: Result<map<Chave, Valor>>)
    ensures !TruthyStr(texto) <==> r == Err(HttpError(400, MSG_TEXTO_VAZIO))
    ensures r.Ok? <==> TruthyStr(texto)
    ensures r.Ok? ==> r.value == CamposApi(CleanText(texto.value), condominios, classificacao, corrigir(texto.value))
  {
    if !TruthyStr(texto) {
      return Err(HttpError(400, MSG_TEXTO_VAZIO));
    }
    var t := CleanText(texto.value);
    var d := PreencherApi(ExtrairDataHora(t), ExtrairLocal(t), condominios, classificacao, corrigir(texto.value));
    r := Ok(d);
  }

  /**
   * The API's answer always carries the corrected report, carries the type
   * name exactly when the classifier found one, and never carries the type
   * id or collaborators of the page analyser.
   */
  lemma AnaliseApiChaves(dh: Option<DataHora>, local: Option<string>, condominios: seq<Condominio>,
                         classificacao: Option<string>, corrigido: string)
    ensures var dados := CamposApiDe(dh, local, condominios, classificacao, corrigido);
      dados[ChaveRelatorioCorrigido] == Texto(corrigido)
      && (ChaveTipoOcorrencia in dados <==> TruthyStr(classificacao))
      && (TruthyStr(classificacao) ==> dados[ChaveTipoOcorrencia] == Texto(classificacao.value))
      && ChaveTipoId !in dados && ChaveColaboradores !in dados
  {
    var a, b, c := CamposDataHora(dh), CamposLocal(local, condominios), CamposTipoNome(classificacao);
    var d := map[ChaveRelatorioCorrigido := Texto(corrigido)];
    Uniao(a, b, c, d, ChaveTipoOcorrencia);
    Uniao(a, b, c, d, ChaveTipoId);
    Uniao(a, b, c, d, ChaveColaboradores);
  }

  // ------------------------------------------------------------------
  // History
  // ------------------------------------------------------------------

  /** `request.args.get(name, type=int)`: the parsed number, or None when absent or not an integer. */
  function ArgInt(raw: Option<string>): (r: Option<int>)
    ensures r.Some? <==> raw.Some? && PyInt(raw.value).Some?
    ensures r.Some? ==> r == PyInt(raw.value)
  {
    if raw.Some? then PyInt(raw.value) else None
  }

  /** A value of the filter dictionary handed to the occurrence filter service. */
  datatype Filtro = FiltroTexto(texto: string) | FiltroNumero(numero: int)

  /** The keys of the filter dictionary. */
  datatype CampoFiltro = PorStatus | PorCondominio | PorTipo | PorDataInicio | PorDataFim | PorSupervisor

  /** The name each filter key is handed to the filter service under. */
  function NomeFiltro(c: CampoFiltro): string
  {
    match c
    case PorStatus => "status"
    case PorCondominio => "condominio_id"
    case PorTipo => "tipo_id"
    case PorDataInicio => "data_inicio_str"
    case PorDataFim => "data_fim_str"
    case PorSupervisor => "supervisor_id"
  }

  /** Distinct filter keys are handed over under distinct names. */
  lemma NomeFiltroInjetivo(c1: CampoFiltro, c2: CampoFiltro)
    ensures NomeFiltro(c1) == NomeFiltro(c2) ==> c1 == c2
  {
  }

  /** The query string of `historico_ocorrencias`, as sent. */
  datatype Args = Args(
    status: Option<string>,
    condominioId: Option<string>,
    tipoId: Option<string>,
    dataInicio: Option<string>,
    dataFim: Option<string>,
    supervisorId: Option<string>)

  /** One conditional entry of the filter dictionary. */
  function Incluir(m: map<CampoFiltro, Filtro>, presente: bool, k: CampoFiltro, v: Filtro): map<CampoFiltro, Filtro>
  {
    if presente then m[k := v] else m
  }

  function ComoNumero(o: Option<int>): Filtro { FiltroNumero(if o.Some? then o.value else 0) }

  function ComoTexto(o: Option<string>): Filtro { FiltroTexto(if o.Some? then o.value else "") }

  /** The filter dictionary as `historico_ocorrencias` builds it, from the parameters after parsing. */
  function FiltrosDe(status: Option<string>, condominioId: Option<int>, tipoId: Option<int>,
                     dataInicio: Option<string>, dataFim: Option<string>, supervisorId: Option<int>): map<CampoFiltro, Filtro>
  {
    var m0: map<CampoFiltro, Filtro> := map[];
    var m1 := Incluir(m0, TruthyStr(status), PorStatus, ComoTexto(status));
    var m2 := Incluir(m1, TruthyInt(condominioId), PorCondominio, ComoNumero(condominioId));
    var m3 := Incluir(m2, TruthyInt(tipoId), PorTipo, ComoNumero(tipoId));
    var m4 := Incluir(m3, TruthyStr(dataInicio), PorDataInicio, ComoTexto(dataInicio));
    var m5 := Incluir(m4, TruthyStr(dataFim), PorDataFim, ComoTexto(dataFim));
    Incluir(m5, TruthyInt(supervisorId), PorSupervisor, ComoNumero(supervisorId))
  }

  /** The filter dictionary of a query string. */
  function Filtros(a: Args): map<CampoFiltro, Filtro>
  {
    FiltrosDe(a.status, ArgInt(a.condominioId), ArgInt(a.tipoId), a.dataInicio, a.dataFim, ArgInt(a.supervisorId))
  }

  /** `historico_ocorrencias`, lines filling `filters`: one entry per truthy parameter. */
  method ConstruirFiltros(a: Args) returns (filters: map<CampoFiltro, Filtro>)
    ensures filters == Filtros(a)
  {
    var condominioId, tipoId, supervisorId := ArgInt(a.condominioId), ArgInt(a.tipoId), ArgInt(a.supervisorId);
    filters := PreencherFiltros(a.status, condominioId, tipoId, a.dataInicio, a.dataFim, supervisorId);
  }

  /** The six conditional assignments of `historico_ocorrencias`, on the parsed parameters. */
  method PreencherFiltros(status: Option<string>, condominioId: Option<int>, tipoId: Option<int>,
                          dataInicio: Option<string>, dataFim: Option<string>, supervisorId: Option<int>)
    returns (filters: map<CampoFiltro, Filtro>)
    ensures filters == FiltrosDe(status, condominioId, tipoId, dataInicio, dataFim, supervisorId)
  {
    filters := map[];
    if TruthyStr(status) {
      filters := filters[PorStatus := FiltroTexto(status.value)];
    }
    ghost var m1 := filters;
    if TruthyInt(condominioId) {
      filters := filters[PorCondominio := FiltroNumero(condominioId.value)];
    }
    assert filters == Incluir(m1, TruthyInt(condominioId), PorCondominio, ComoNumero(condominioId));
    ghost var m2 := filters;
    if TruthyInt(tipoId) {
      filters := filters[PorTipo := FiltroNumero(tipoId.value)];
    }
    assert filters == Incluir(m2, TruthyInt(tipoId), PorTipo, ComoNumero(tipoId));
    ghost var m3 := filters;
    if TruthyStr(dataInicio) {
      filters := filters[PorDataInicio := FiltroTexto(dataInicio.value)];
    }
    assert filters == Incluir(m3, TruthyStr(dataInicio), PorDataInicio, ComoTexto(dataInicio));
    ghost var m4 := filters;
    if TruthyStr(dataFim) {
      filters := filters[PorDataFim := FiltroTexto(dataFim.value)];
    }
    assert filters == Incluir(m4, TruthyStr(dataFim), PorDataFim, ComoTexto(dataFim));
    ghost var m5 := filters;
    if TruthyInt(supervisorId) {
      filters := filters[PorSupervisor := FiltroNumero(supervisorId.value)];
    }
    assert filters == Incluir(m5, TruthyInt(supervisorId), PorSupervisor, ComoNumero(supervisorId));
  }

  /**
   * The filter dictionary holds exactly the truthy parameters, each with its
   * value: the numeric ones parsed, the dates as sent.
   */
  lemma FiltrosExatos(status: Option<string>, condominioId: Option<int>, tipoId: Option<int>,
                      dataInicio: Option<string>, dataFim: Option<string>, supervisorId: Option<int>)
    ensures var f := FiltrosDe(status, condominioId, tipoId, dataInicio, dataFim, supervisorId);
      (PorStatus in f <==> TruthyStr(status)) && (TruthyStr(status) ==> f[PorStatus] == FiltroTexto(status.value))
      && (PorCondominio in f <==> TruthyInt(condominioId))
      && (TruthyInt(condominioId) ==> f[PorCondominio] == FiltroNumero(condominioId.value))
      && (PorTipo in f <==> TruthyInt(tipoId))
      && (TruthyInt(tipoId) ==> f[PorTipo] == FiltroNumero(tipoId.value))
      && (PorDataInicio in f <==> TruthyStr(dataInicio))
      && (TruthyStr(dataInicio) ==> f[PorDataInicio] == FiltroTexto(dataInicio.value))
      && (PorDataFim in f <==> TruthyStr(dataFim))
      && (TruthyStr(dataFim) ==> f[PorDataFim] == FiltroTexto(dataFim.value))
      && (PorSupervisor in f <==> TruthyInt(supervisorId))
      && (TruthyInt(supervisorId) ==> f[PorSupervisor] == FiltroNumero(supervisorId.value))
  {
  }

  /** The columns of an `Ocorrencia` that the history and the saving route read or write. */
  datatype Ocorrencia = Ocorrencia(
    relatorioFinal: string,
    status: string,
    dataHoraOcorrencia: int,
    turno: string,
    enderecoEspecifico: string,
    condominioId: Option<int>,
    tipoId: Option<int>,
    registradoPor: Option<int>,
    supervisorId: Option<int>)

  ghost predicate MaisRecentesPrimeiro(s: seq<Ocorrencia>)
  {
    forall i, j :: 0 <= i < j < |s| ==> s[i].dataHoraOcorrencia >= s[j].dataHoraOcorrencia
  }

  /** Inserts `x` into a list ordered most recent first. */
  function Inserir(x: Ocorrencia, s: seq<Ocorrencia>): (r: seq<Ocorrencia>)
    ensures multiset(r) == multiset(s) + multiset{x}
  {
    if |s| == 0 then [x]
    else if x.dataHoraOcorrencia >= s[0].dataHoraOcorrencia then [x] + s
    else
      assert s == [s[0]] + s[1..];
      [s[0]] + Inserir(x, s[1..])
  }

  lemma {:induction false} InserirOrdena(x: Ocorrencia, s: seq<Ocorrencia>)
    requires MaisRecentesPrimeiro(s)
    ensures MaisRecentesPrimeiro(Inserir(x, s))
  {
    if |s| > 0 && x.dataHoraOcorrencia < s[0].dataHoraOcorrencia {
      var tail := Inserir(x, s[1..]);
      InserirOrdena(x, s[1..]);
      forall y | y in tail
        ensures y.dataHoraOcorrencia <= s[0].dataHoraOcorrencia
      {
        assert y in multiset(tail);
        if y != x {
          assert y in multiset(s[1..]);
          var k :| 0 <= k < |s[1..]| && s[1..][k] == y;
          assert s[k + 1] == y;
        }
      }
      assert forall j :: 0 < j < |tail| + 1 ==> ([s[0]] + tail)[j] == tail[j - 1];
    }
  }

  /** `order_by(data_hora_ocorrencia.desc())`. */
  function MaisRecentes(s: seq<Ocorrencia>): (r: seq<Ocorrencia>)
    ensures multiset(r) == multiset(s)
    ensures MaisRecentesPrimeiro(r)
  {
    if |s| == 0 then []
    else
      assert s == [s[0]] + s[1..];
      var rest := MaisRecentes(s[1..]);
      InserirOrdena(s[0], rest);
      Inserir(s[0], rest)
  }

  function Min(a: int, b: int): int { if a < b then a else b }

  /**
   * `historico_ocorrencias`, the query: the occurrences the filter service
   * keeps (`selecionada`), most recent first, at most 100.
   */
  function Historico(ocorrencias: seq<Ocorrencia>, selecionada: Ocorrencia -> bool): (r: seq<Ocorrencia>)
    ensures |r| == Min(CountIf(ocorrencias, selecionada), LIMITE_HISTORICO)
    ensures MaisRecentesPrimeiro(r)
    ensures multiset(r) <= multiset(Filter(ocorrencias, selecionada))
    ensures forall x :: x in r ==> x in ocorrencias && selecionada(x)
  {
    var ordenadas := MaisRecentes(Filter(ocorrencias, selecionada));
    assert |ordenadas| == |multiset(ordenadas)|;
    var n := Min(|ordenadas|, LIMITE_HISTORICO);
    TopoDaLista(ordenadas, n);
    forall x | x in ordenadas[..n] ensures x in ocorrencias && selecionada(x) {
      assert x in multiset(ordenadas[..n]);
      assert x in multiset(Filter(ocorrencias, selecionada));
      FilterKeeps(ocorrencias, selecionada, x);
    }
    ordenadas[..n]
  }

  /** The first `n` of an ordered list: ordered, part of it, and nothing after them is more recent. */
  lemma TopoDaLista(s: seq<Ocorrencia>, n: nat)
    requires n <= |s| && MaisRecentesPrimeiro(s)
    ensures MaisRecentesPrimeiro(s[..n])
    ensures multiset(s[..n]) <= multiset(s)
    ensures multiset(s) - multiset(s[..n]) == multiset(s[n..])
    ensures forall x, y :: x in multiset(s[n..]) && y in s[..n] ==> x.dataHoraOcorrencia <= y.dataHoraOcorrencia
  {
    assert s == s[..n] + s[n..];
    assert multiset(s) == multiset(s[..n]) + multiset(s[n..]);
    forall x, y | x in multiset(s[n..]) && y in s[..n]
      ensures x.dataHoraOcorrencia <= y.dataHoraOcorrencia
    {
      var i :| 0 <= i < n && s[..n][i] == y;
      assert x in s[n..];
      var j :| 0 <= j < |s| - n && s[n..][j] == x;
      assert s[i] == y && s[n + j] == x;
    }
  }

  /** What the history leaves out is never more recent than what it shows. */
  lemma HistoricoMaisRecentes(ocorrencias: seq<Ocorrencia>, selecionada: Ocorrencia -> bool)
    ensures var r := Historico(ocorrencias, selecionada);
      forall x, y :: x in multiset(Filter(ocorrencias, selecionada)) - multiset(r) && y in r
        ==> x.dataHoraOcorrencia <= y.dataHoraOcorrencia
  {
    var ordenadas := MaisRecentes(Filter(ocorrencias, selecionada));
    var n := Min(|ordenadas|, LIMITE_HISTORICO);
    TopoDaLista(ordenadas, n);
  }

  // ------------------------------------------------------------------
  // Saving
  // ------------------------------------------------------------------

  /** The body of `salvar_ocorrencia`: absent keys are None. */
  datatype SalvarPayload = SalvarPayload(
    relatorioFinal: Option<string>,
    turno: Option<string>,
    enderecoEspecifico: Option<string>,
    condominioId: Option<int>,
    tipoId: Option<int>,
    registradoPor: Option<int>,
    supervisorId: Option<int>)

  /**
   * `salvar_ocorrencia`: the occurrence to insert, awaiting review. `body`
   * is None for a missing or empty body; `agora` stands for the clock.
   */
  function SalvarOcorrencia(body: Option<SalvarPayload>, agora: int): (r: Result<Ocorrencia>)
    ensures body.None? <==> r == Err(HttpError(400, MSG_SEM_DADOS))
    ensures body.Some? && !TruthyStr(body.value.relatorioFinal) <==> r == Err(HttpError(400, MSG_RELATORIO_OBRIGATORIO))
    ensures r.Ok? <==> body.Some? && TruthyStr(body.value.relatorioFinal)
    ensures r.Ok? ==>
      var p := body.value;
      var o := r.value;
      o.relatorioFinal == p.relatorioFinal.value && o.status == PENDENTE && o.dataHoraOcorrencia == agora
      && o.turno == (if p.turno.Some? then p.turno.value else DIURNO)
      && o.enderecoEspecifico == (if p.enderecoEspecifico.Some? then p.enderecoEspecifico.value else "")
      && o.condominioId == p.condominioId && o.tipoId == p.tipoId
      && o.registradoPor == p.registradoPor && o.supervisorId == p.supervisorId
  {
    if body.None? then Err(HttpError(400, MSG_SEM_DADOS))
    else
      var p := body.value;
      if !TruthyStr(p.relatorioFinal) then Err(HttpError(400, MSG_RELATORIO_OBRIGATORIO))
      else Ok(Ocorrencia(
        p.relatorioFinal.value,
        PENDENTE,
        agora,
        if p.turno.Some? then p.turno.value else DIURNO,
        if p.enderecoEspecifico.Some? then p.enderecoEspecifico.value else "",
        p.condominioId,
        p.tipoId,
        p.registradoPor,
        p.supervisorId))
  }

  /** A saved occurrence waits for review: only approving or rejecting it on the pages decides it. */
  lemma SalvaAguardaRevisao(body: Option<SalvarPayload>, agora: int)
    requires SalvarOcorrencia(body, agora).Ok?
    ensures var s := SalvarOcorrencia(body, agora).value.status;
      Aprovada(s) == REGISTRADA && Rejeitada(s) == REJEITADA
  {
  }
}
