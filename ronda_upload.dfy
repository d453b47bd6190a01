/**
 * The patrol blueprint's own rules: the time window of a shift, the
 * month/year filter of the shifts found in an uploaded WhatsApp export, the
 * tipo → escala mapping, the upload checks and the counting of saved rondas.
 */
module RondaUpload {
  import opened Common
  import opened Calendar

  const ESCALA_DIURNA := "06h às 18h"
  const ESCALA_NOTURNA := "18h às 06h"
  const TIPO_DIURNO := "diurno"

  const MSG_SEM_ARQUIVO := "Nenhum arquivo enviado."
  const MSG_ARQUIVO_NAO_SELECIONADO := "Nenhum arquivo selecionado."
  const MSG_APENAS_TXT := "Apenas arquivos .txt são permitidos."
  const MSG_NADA_SALVO := "⚠️ Nenhuma ronda foi salva. Verifique os logs para mais detalhes.<br><br><strong>Detalhes:</strong><br>"
  const MSG_SEM_PLANTOES := "Nenhuma mensagem de plantão válida encontrada no arquivo."
  const MSG_SEM_PLANTOES_FILTRADOS := "Nenhum plantão no arquivo corresponde aos filtros de mês/ano selecionados."
  const MSG_AJAX_SEM_ARQUIVO := "Nenhum arquivo fornecido"
  const MSG_AJAX_DADOS_OBRIGATORIOS := "Data e escala são obrigatórios"
  const MSG_AJAX_ERRO := "Erro ao processar arquivo: "
  const MSG_AJAX_ARQUIVO_FIXO := "Arquivo fixo não encontrado"

  function MsgCondominioNaoIdentificado(filename: string): string
  {
    "Não foi possível identificar o condomínio pelo nome do arquivo '" + filename + "'."
  }

  /** The four 400 messages of the upload checks are pairwise different, whatever the file name. */
  lemma Mensagens400Distintas(filename: string)
    ensures MSG_SEM_ARQUIVO != MSG_ARQUIVO_NAO_SELECIONADO && MSG_SEM_ARQUIVO != MSG_APENAS_TXT
    ensures MSG_ARQUIVO_NAO_SELECIONADO != MSG_APENAS_TXT
    ensures MsgCondominioNaoIdentificado(filename) !in {MSG_SEM_ARQUIVO, MSG_ARQUIVO_NAO_SELECIONADO, MSG_APENAS_TXT}
  {
    assert |MSG_SEM_ARQUIVO| != |MSG_ARQUIVO_NAO_SELECIONADO|;
    assert MSG_SEM_ARQUIVO[0] == 'N' && MSG_APENAS_TXT[0] == 'A' && MSG_ARQUIVO_NAO_SELECIONADO[0] == 'N';
    assert |MsgCondominioNaoIdentificado(filename)| > 40;
    assert |MSG_SEM_ARQUIVO| < 40 && |MSG_ARQUIVO_NAO_SELECIONADO| < 40 && |MSG_APENAS_TXT| < 40;
  }

  /** The head of the success message; the per-shift detail lines that follow it are not modelled. */
  function MsgConcluido(total: nat): string
  {
    "🎉 Processamento concluído! " + NatToString(total) + " ronda(s) salva(s).<br><br><strong>Detalhes:</strong><br>"
  }

  // ------------------------------------------------------------------
  // Shift window
  // ------------------------------------------------------------------

  /** Second of the day of `h:m:s`. */
  function Clock(h: int, m: int, s: int): int { h * 3600 + m * 60 + s }

  /**
   * The period whose messages belong to the shift of day `d`: the day shift
   * runs from 06:00:00 to 17:59:59 of `d`; any other escala is the night
   * shift, from 18:00:00 of `d` to 05:59:59 of the next day. None when the
   * next day does not exist (`timedelta` overflows past 9999-12-31).
   */
  function ShiftWindow(d: Date, escala: string): (w: Option<(DateTime, DateTime)>)
    requires ValidDate(d)
    ensures w.None? <==> escala != ESCALA_DIURNA && d == Date(9999, 12, 31)
    ensures w.Some? ==>
      (ValidDateTime(w.value.0) && ValidDateTime(w.value.1)
       && w.value.0.date == d
       && Timestamp(w.value.0) < Timestamp(w.value.1)
       && Timestamp(w.value.1) - Timestamp(w.value.0) == Clock(11, 59, 59))
    ensures w.Some? && escala == ESCALA_DIURNA ==>
      w.value.0.second == Clock(6, 0, 0) && w.value.1 == DateTime(d, Clock(17, 59, 59))
    ensures w.Some? && escala != ESCALA_DIURNA ==>
      (w.value.0.second == Clock(18, 0, 0) && w.value.1.second == Clock(5, 59, 59)
       && Ordinal(w.value.1.date) == Ordinal(d) + 1)
  {
    if escala == ESCALA_DIURNA then
      Some((DateTime(d, Clock(6, 0, 0)), DateTime(d, Clock(17, 59, 59))))
    else match NextDay(d)
      case None => None
      case Some(next) => Some((DateTime(d, Clock(18, 0, 0)), DateTime(next, Clock(5, 59, 59))))
  }

  /** The night window of the last day of a month ends on the first day of the next month, and on New Year's Day after 31 December. */
  lemma NightWindowCrossesMonth(y: int, m: int)
    requires 1 <= y <= 9999 && 1 <= m <= 12 && !(y == 9999 && m == 12)
    ensures ValidDate(Date(y, m, DaysInMonth(y, m)))
    ensures ShiftWindow(Date(y, m, DaysInMonth(y, m)), ESCALA_NOTURNA).Some?
    ensures ShiftWindow(Date(y, m, DaysInMonth(y, m)), ESCALA_NOTURNA).value.1.date
         == (if m == 12 then Date(y + 1, 1, 1) else Date(y, m + 1, 1))
  {
    var d := Date(y, m, DaysInMonth(y, m));
    assert ValidDate(d);
    var next := NextDay(d).value;
    var expected := if m == 12 then Date(y + 1, 1, 1) else Date(y, m + 1, 1);
    assert ValidDate(expected);
    if m == 12 {
      DaysBeforeNextYear(y);
      DaysBeforeDecember(y);
    } else {
      DaysBeforeMonthBounds(y, m);
    }
    assert Ordinal(expected) == Ordinal(d) + 1;
    OrdinalOrder(next, expected);
  }

  // ------------------------------------------------------------------
  // Month/year filter of the shifts found in a file
  // ------------------------------------------------------------------

  /** A shift found by the WhatsApp processor: its date and its tipo ("diurno" or "noturno"). */
  datatype Plantao = Plantao(data: Date, tipo: string)

  /** `month` and `year` as read by `request.form.get(..., type=int)`: None when absent or not an integer; 0 does not filter either. */
  predicate Keep(p: Plantao, month: Option<int>, year: Option<int>)
  {
    !(TruthyInt(month) && p.data.month != month.value) && !(TruthyInt(year) && p.data.year != year.value)
  }

  /** A shift is kept exactly when each given filter agrees with its date. */
  lemma KeepIff(p: Plantao, month: Option<int>, year: Option<int>)
    ensures Keep(p, month, year)
        <==> (!TruthyInt(month) || p.data.month == month.value) && (!TruthyInt(year) || p.data.year == year.value)
  {
  }

  /** The filtering loop of `upload_process_ronda`. */
  method FilterPlantoes(plantoes: seq<Plantao>, month: Option<int>, year: Option<int>) returns (filtered: seq<Plantao>)
    ensures filtered == Filter(plantoes, (p: Plantao) => Keep(p, month, year))
    ensures filtered == Mantidos(plantoes, month, year)
    ensures |filtered| <= |plantoes|
    ensures forall p :: p in filtered ==> p in plantoes && Keep(p, month, year)
  {
    var keep := (p: Plantao) => Keep(p, month, year);
    filtered := [];
    var i := 0;
    while i < |plantoes|
      invariant 0 <= i <= |plantoes|
      invariant filtered == Filter(plantoes[..i], keep)
    {
      FilterStep(plantoes, i, keep);
      if Keep(plantoes[i], month, year) {
        filtered := filtered + [plantoes[i]];
      }
      i := i + 1;
    }
    assert plantoes[..i] == plantoes;
  }

  // ------------------------------------------------------------------
  // Saving
  // ------------------------------------------------------------------

  /** `"06h às 18h" if plantao.tipo == "diurno" else "18h às 06h"`. */
  function EscalaForTipo(tipo: string): (e: string)
    ensures e == ESCALA_DIURNA <==> tipo == TIPO_DIURNO
    ensures e == ESCALA_NOTURNA <==> tipo != TIPO_DIURNO
  {
    if tipo == TIPO_DIURNO then ESCALA_DIURNA else ESCALA_NOTURNA
  }

  /** A daytime shift's escala gives the day window; any other tipo gives the window that ends the next morning. */
  lemma EscalaForTipoWindow(d: Date, tipo: string)
    requires ValidDate(d) && d != Date(9999, 12, 31)
    ensures ShiftWindow(d, EscalaForTipo(tipo)).Some?
    ensures tipo == TIPO_DIURNO <==> ShiftWindow(d, EscalaForTipo(tipo)).value.1.date == d
  {
    if tipo != TIPO_DIURNO {
      var w := ShiftWindow(d, EscalaForTipo(tipo)).value;
      assert Ordinal(w.1.date) == Ordinal(d) + 1;
    }
  }

  /** The `ronda_data` sent to the ronda service for one shift. */
  datatype RondaData = RondaData(condominioId: string, dataPlantao: string, escalaPlantao: string)

  function DadosDe(condominioId: int, p: Plantao): RondaData
    requires FitsIso(p.data)
  {
    RondaData(IntToString(condominioId), FormatIso(p.data), EscalaForTipo(p.tipo))
  }

  /** The date sent to the service reads back as the shift's own date. */
  lemma DadosDeRoundTrip(condominioId: int, p: Plantao)
    requires ValidDate(p.data)
    ensures StrptimeIsoDate(DadosDe(condominioId, p).dataPlantao) == Some(p.data)
  {
    StrptimeIsoDateRoundTrip(p.data);
  }

  ghost predicate ValidPlantoes(ps: seq<Plantao>)
  {
    forall i :: 0 <= i < |ps| ==> ValidDate(ps[i].data)
  }

  /**
   * The saving loop: one call of the ronda service per kept shift, in order.
   * `salvar` stands for the service's success flag on the data it receives.
   */
  method SalvarTodos(condominioId: int, filtered: seq<Plantao>, salvar: RondaData -> bool)
    returns (totalSalvas: nat, enviados: seq<RondaData>)
    requires forall i :: 0 <= i < |filtered| ==> FitsIso(filtered[i].data)
    ensures |enviados| == |filtered|
    ensures forall i :: 0 <= i < |filtered| ==> enviados[i] == DadosDe(condominioId, filtered[i])
    ensures totalSalvas == CountIf(enviados, salvar)
    ensures totalSalvas <= |filtered|
  {
    var dadosDe := (p: Plantao) requires FitsIso(p.data) => DadosDe(condominioId, p);
    totalSalvas, enviados := EnviarCada(filtered, dadosDe, salvar);
  }

  /** The shifts the month/year filter keeps, in file order. */
  function Mantidos(plantoes: seq<Plantao>, month: Option<int>, year: Option<int>): (r: seq<Plantao>)
    ensures forall i :: 0 <= i < |r| ==> r[i] in plantoes && Keep(r[i], month, year)
    ensures ValidPlantoes(plantoes) ==> ValidPlantoes(r)
  {
    Filter(plantoes, (p: Plantao) => Keep(p, month, year))
  }

  /** The data handed to the ronda service, one per shift, in order. */
  function Enviados(condominioId: int, ps: seq<Plantao>): (r: seq<RondaData>)
    requires ValidPlantoes(ps)
    ensures |r| == |ps|
  {
    seq(|ps|, i requires 0 <= i < |ps| => DadosDe(condominioId, ps[i]))
  }

  /** Data sent position by position for each shift are the data `Enviados` describes. */
  lemma EnviadosPorPosicao(condominioId: int, ps: seq<Plantao>, enviados: seq<RondaData>)
    requires ValidPlantoes(ps) && |enviados| == |ps|
    requires forall i :: 0 <= i < |ps| ==> enviados[i] == DadosDe(condominioId, ps[i])
    ensures enviados == Enviados(condominioId, ps)
  {
  }

  /** How many kept shifts the ronda service accepted. */
  function Salvas(condominioId: int, plantoes: seq<Plantao>, month: Option<int>, year: Option<int>,
                  salvar: RondaData -> bool): nat
    requires ValidPlantoes(plantoes)
  {
    CountIf(Enviados(condominioId, Mantidos(plantoes, month, year)), salvar)
  }

  /** The file checks of the upload: a file was sent, it has a name, and the name ends in ".txt" in any case. */
  predicate ArquivoAceito(filename: Option<string>)
  {
    filename.Some? && filename.value != "" && EndsWith(Lower(filename.value), ".txt")
  }

  /** What `upload_process_ronda` answers: the status, the `success` flag and the number of rondas saved. */
  datatype Resposta = Resposta(code: int, success: bool, message: string, totalSalvas: nat)

  /**
   * `upload_process_ronda` (POST). `filename` is None when the form has no
   * `whatsapp_file`; `condominio` is what inferring the condominium from the
   * file name gives; `plantoes` is what the WhatsApp processor finds in the
   * file; `salvar` is the ronda service's success flag.
   */
  method UploadProcessRonda(filename: Option<string>, month: Option<int>, year: Option<int>,
                            condominio: Option<int>, plantoes: seq<Plantao>, salvar: RondaData -> bool)
    returns (r: Resposta)
    requires ValidPlantoes(plantoes)
    ensures filename.None? <==> r == Resposta(400, false, MSG_SEM_ARQUIVO, 0)
    ensures filename == Some("") <==> r == Resposta(400, false, MSG_ARQUIVO_NAO_SELECIONADO, 0)
    ensures (filename.Some? && filename.value != "" && !EndsWith(Lower(filename.value), ".txt"))
        <==> r == Resposta(400, false, MSG_APENAS_TXT, 0)
    ensures (ArquivoAceito(filename) && condominio.None?)
        <==> filename.Some? && r == Resposta(400, false, MsgCondominioNaoIdentificado(filename.value), 0)
    ensures r.code == 400 <==> !ArquivoAceito(filename) || condominio.None?
    ensures r.code == 400 ==> r.totalSalvas == 0 && !r.success
    ensures r.success <==> r.code == 200
    ensures r.success ==> r.message == MsgConcluido(r.totalSalvas)
    ensures ArquivoAceito(filename) && condominio.Some? ==>
      (r.totalSalvas == Salvas(condominio.value, plantoes, month, year, salvar)
       && (r.code == 404 <==> Mantidos(plantoes, month, year) == [])
       && (r.code == 200 <==> Salvas(condominio.value, plantoes, month, year, salvar) > 0)
       && (r.code == 500 <==> Mantidos(plantoes, month, year) != []
                              && Salvas(condominio.value, plantoes, month, year, salvar) == 0))
  {
    if filename.None? {
      return Resposta(400, false, MSG_SEM_ARQUIVO, 0);
    }
    var name := filename.value;
    Mensagens400Distintas(name);
    if name == "" {
      return Resposta(400, false, MSG_ARQUIVO_NAO_SELECIONADO, 0);
    }
    if !EndsWith(Lower(name), ".txt") {
      return Resposta(400, false, MSG_APENAS_TXT, 0);
    }
    if condominio.None? {
      return Resposta(400, false, MsgCondominioNaoIdentificado(name), 0);
    }
    r := ProcessarPlantoes(condominio.value, month, year, plantoes, salvar);
  }

  /** `upload_process_ronda` once the file and the condominium are known: filtering the shifts and saving them. */
  method ProcessarPlantoes(condominioId: int, month: Option<int>, year: Option<int>,
                           plantoes: seq<Plantao>, salvar: RondaData -> bool)
    returns (r: Resposta)
    requires ValidPlantoes(plantoes)
    ensures r.code == 404 <==> Mantidos(plantoes, month, year) == []
    ensures r.code == 404 ==> r.message == (if plantoes == [] then MSG_SEM_PLANTOES else MSG_SEM_PLANTOES_FILTRADOS)
    ensures r.code == 404 || r.code == 200 || r.code == 500
    ensures r.totalSalvas == Salvas(condominioId, plantoes, month, year, salvar)
    ensures r.totalSalvas <= |Mantidos(plantoes, month, year)|
    ensures r.code == 200 <==> r.totalSalvas > 0
    ensures r.code == 500 ==> r.message == MSG_NADA_SALVO
    ensures r.success <==> r.code == 200
    ensures r.success ==> r.message == MsgConcluido(r.totalSalvas)
  {
    if |plantoes| == 0 {
      assert Mantidos(plantoes, month, year) == [];
      return Resposta(404, false, MSG_SEM_PLANTOES, 0);
    }
    var filtered := FilterPlantoes(plantoes, month, year);
    if |filtered| == 0 {
      return Resposta(404, false, MSG_SEM_PLANTOES_FILTRADOS, 0);
    }
    assert ValidPlantoes(filtered);
    var total, enviados := SalvarTodos(condominioId, filtered, salvar);
    EnviadosPorPosicao(condominioId, filtered, enviados);
    assert total == Salvas(condominioId, plantoes, month, year, salvar);
    if total > 0 {
      r := Resposta(200, true, MsgConcluido(total), total);
    } else {
      r := Resposta(500, false, MSG_NADA_SALVO, 0);
    }
  }

  // ------------------------------------------------------------------
  // AJAX processing
  // ------------------------------------------------------------------

  /**
   * The checks of `processar_whatsapp_ajax` before the file is processed:
   * some file is needed (a new one or the one kept in the session), then
   * the date and the escala; the date must parse, and the window is that of
   * the escala. `arquivoFixoExiste` says whether the session's file is still
   * on disk.
   */
  function ValidarAjax(temArquivo: bool, arquivoFixo: Option<string>, arquivoFixoExiste: bool,
                       dataPlantao: Option<string>, escala: Option<string>): (r: Result<(DateTime, DateTime)>)
    ensures !temArquivo && !TruthyStr(arquivoFixo) <==> r == Err(HttpError(400, MSG_AJAX_SEM_ARQUIVO))
    ensures (temArquivo || TruthyStr(arquivoFixo)) && (!TruthyStr(dataPlantao) || !TruthyStr(escala))
      <==> r == Err(HttpError(400, MSG_AJAX_DADOS_OBRIGATORIOS))
    ensures (!temArquivo && TruthyStr(arquivoFixo) && !arquivoFixoExiste && TruthyStr(dataPlantao) && TruthyStr(escala))
      <==> r == Err(HttpError(400, MSG_AJAX_ARQUIVO_FIXO))
    ensures ((temArquivo || (TruthyStr(arquivoFixo) && arquivoFixoExiste)) && TruthyStr(dataPlantao) && TruthyStr(escala)
         && (StrptimeIsoDate(dataPlantao.value).None?
             || ShiftWindow(StrptimeIsoDate(dataPlantao.value).value, escala.value).None?))
      <==> r.Err? && r.error.code == 500
    ensures r.Err? && r.error.code == 500 ==> StartsWith(r.error.message, MSG_AJAX_ERRO)
    ensures r.Ok? <==>
      ((temArquivo || (TruthyStr(arquivoFixo) && arquivoFixoExiste)) && TruthyStr(dataPlantao) && TruthyStr(escala)
       && StrptimeIsoDate(dataPlantao.value).Some?
       && ShiftWindow(StrptimeIsoDate(dataPlantao.value).value, escala.value).Some?)
    ensures r.Ok? ==> ShiftWindow(StrptimeIsoDate(dataPlantao.value).value, escala.value) == Some(r.value)
  {
    if !temArquivo && !TruthyStr(arquivoFixo) then Err(HttpError(400, MSG_AJAX_SEM_ARQUIVO))
    else if !TruthyStr(dataPlantao) || !TruthyStr(escala) then Err(HttpError(400, MSG_AJAX_DADOS_OBRIGATORIOS))
    else if !temArquivo && !arquivoFixoExiste then Err(HttpError(400, MSG_AJAX_ARQUIVO_FIXO))
    else match StrptimeIsoDate(dataPlantao.value)
      case None => Err(HttpError(500, MSG_AJAX_ERRO))
      case Some(d) =>
        match ShiftWindow(d, escala.value)
        case None => Err(HttpError(500, MSG_AJAX_ERRO))
        case Some(w) => Ok(w)
  }
}
