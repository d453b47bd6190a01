/**
 * Two admin tools: the e-mail formatting of a raw report (greeting, report,
 * closing, joined by newlines) and the input checks and dispatch of the
 * justification generator.
 */
module AdminTools {
  import opened Common

  const SAUDACAO_PADRAO := "Prezados(as),"
  const DESPEDIDA_PADRAO := "Atenciosamente,\nEquipe Administrativa"

  const MSG_SEM_DADOS := "Dados não fornecidos."
  const MSG_DADOS_INVALIDOS := "Dados inválidos."
  const MSG_TIPO_DESCONHECIDO := "Tipo de justificativa desconhecido: "

  // ------------------------------------------------------------------
  // E-mail formatting
  // ------------------------------------------------------------------

  /**
   * The greeting line: the custom text, stripped, when something is left of
   * it; otherwise the default when it was requested. Whitespace-only custom
   * text counts as absent.
   */
  function Saudacao(custom: Option<string>, incluir: bool): (g: Option<string>)
    ensures custom.Some? && !AllSpace(custom.value) ==> g == Some(Strip(custom.value))
    ensures (custom.None? || AllSpace(custom.value)) ==> g == (if incluir then Some(SAUDACAO_PADRAO) else None)
  {
    var c := Strip(if custom.Some? then custom.value else "");
    if c != "" then Some(c) else if incluir then Some(SAUDACAO_PADRAO) else None
  }

  /** The closing, with the same precedence of a non-blank custom text over the default. */
  function Despedida(custom: Option<string>, incluir: bool): (c: Option<string>)
    ensures custom.Some? && !AllSpace(custom.value) ==> c == Some(Strip(custom.value))
    ensures (custom.None? || AllSpace(custom.value)) ==> c == (if incluir then Some(DESPEDIDA_PADRAO) else None)
  {
    var c := Strip(if custom.Some? then custom.value else "");
    if c != "" then Some(c) else if incluir then Some(DESPEDIDA_PADRAO) else None
  }

  /** What precedes the report: the greeting and exactly one empty line. */
  function Abertura(g: Option<string>): string
  {
    if g.Some? then g.value + "\n\n" else ""
  }

  /** What follows the report: the closing, after an empty line only when the report is not blank. */
  function Fecho(raw: string, c: Option<string>): string
  {
    if c.None? then "" else if !AllSpace(raw) then "\n\n" + c.value else "\n" + c.value
  }

  /** The parts before the report: the greeting and an empty part. */
  function PartesAbertura(g: Option<string>): seq<string>
  {
    if g.Some? then [g.value, ""] else []
  }

  /** The parts after the report: an empty part when the report is not blank, then the closing. */
  function PartesFecho(raw: string, c: Option<string>): seq<string>
  {
    if c.None? then [] else if !AllSpace(raw) then ["", c.value] else [c.value]
  }

  /** The closing parts as the code decides them, by the stripped report. */
  lemma PartesFechoStrip(raw: string, c: Option<string>)
    ensures PartesFecho(raw, c) == if c.None? then [] else if Strip(raw) != "" then ["", c.value] else [c.value]
  {
    assert Strip(raw) != "" <==> !AllSpace(raw);
  }

  /** The report and the parts after it join into the report followed by the closing block. */
  lemma JoinFecho(raw: string, c: Option<string>)
    ensures Join([raw] + PartesFecho(raw, c), "\n") == raw + Fecho(raw, c)
  {
    if c.Some? {
      if !AllSpace(raw) {
        JoinCons("", [c.value], "\n");
      }
      JoinCons(raw, PartesFecho(raw, c), "\n");
    }
  }

  /** A greeting part and an empty part before other parts join into the greeting and two separators. */
  lemma {:induction false} JoinGreeting(gv: string, rest: seq<string>, sep: string)
    requires |rest| >= 1
    ensures Join([gv, ""] + rest, sep) == gv + (sep + sep + Join(rest, sep))
  {
    var j := Join(rest, sep);
    JoinCons("", rest, sep);
    assert Join([""] + rest, sep) == sep + j;
    JoinCons(gv, [""] + rest, sep);
    assert [gv, ""] + rest == [gv] + ([""] + rest);
    SeqAssoc(gv, sep, sep + j);
    SeqAssoc(sep, sep, j);
  }

  /** Joining the parts with newlines writes the greeting block, the report and the closing block. */
  lemma JoinLayout(g: Option<string>, raw: string, c: Option<string>)
    ensures Join(PartesAbertura(g) + [raw] + PartesFecho(raw, c), "\n") == Abertura(g) + raw + Fecho(raw, c)
  {
    var rest := [raw] + PartesFecho(raw, c);
    var tail := raw + Fecho(raw, c);
    assert Join(rest, "\n") == tail by { JoinFecho(raw, c); }
    if g.Some? {
      assert PartesAbertura(g) + [raw] + PartesFecho(raw, c) == [g.value, ""] + rest;
      JoinGreeting(g.value, rest, "\n");
      assert "\n" + "\n" == "\n\n";
      SeqAssoc(g.value + "\n\n", raw, Fecho(raw, c));
      SeqAssoc(g.value, "\n\n", tail);
    } else {
      assert PartesAbertura(g) + [raw] + PartesFecho(raw, c) == rest;
    }
  }

  /** The greeting steps of `format_email_report_tool`: the parts the empty list receives before the report. */
  method AppendAbertura(saudacaoCustom: Option<string>, incluirSaudacao: bool) returns (out: seq<string>)
    ensures out == PartesAbertura(Saudacao(saudacaoCustom, incluirSaudacao))
  {
    out := [];
    var customGreeting := Strip(if saudacaoCustom.Some? then saudacaoCustom.value else "");
    if customGreeting != "" {
      out := out + [customGreeting];
    } else if incluirSaudacao {
      out := out + [SAUDACAO_PADRAO];
    }
    if |out| > 0 {
      out := out + [""];
    }
  }

  /** The closing steps of `format_email_report_tool`: the parts appended after the report. */
  method AppendFecho(parts: seq<string>, raw: string, despedidaCustom: Option<string>, incluirDespedida: bool)
    returns (out: seq<string>)
    ensures out == parts + PartesFecho(raw, Despedida(despedidaCustom, incluirDespedida))
  {
    out := parts;
    ghost var added: seq<string> := [];
    var customClosing := Strip(if despedidaCustom.Some? then despedidaCustom.value else "");
    PartesFechoStrip(raw, Despedida(despedidaCustom, incluirDespedida));
    if Strip(raw) != "" && (customClosing != "" || incluirDespedida) {
      out := out + [""];
      added := [""];
    }
    if customClosing != "" {
      SeqAssoc(parts, added, [customClosing]);
      out := out + [customClosing];
      added := added + [customClosing];
    } else if incluirDespedida {
      SeqAssoc(parts, added, [DESPEDIDA_PADRAO]);
      out := out + [DESPEDIDA_PADRAO];
      added := added + [DESPEDIDA_PADRAO];
    }
    assert added == PartesFecho(raw, Despedida(despedidaCustom, incluirDespedida));
  }

  /**
   * `format_email_report_tool`: the `parts` list is built step by step and
   * joined with newlines, which writes the greeting block, the report once
   * and the closing block, in that order.
   */
  method FormatEmailReport(raw: string, incluirSaudacao: bool, saudacaoCustom: Option<string>,
                           incluirDespedida: bool, despedidaCustom: Option<string>)
    returns (report: string)
    ensures report == Abertura(Saudacao(saudacaoCustom, incluirSaudacao)) + raw
                    + Fecho(raw, Despedida(despedidaCustom, incluirDespedida))
    ensures Saudacao(saudacaoCustom, incluirSaudacao).None? && Despedida(despedidaCustom, incluirDespedida).None?
      ==> report == raw
  {
    var parts := AppendAbertura(saudacaoCustom, incluirSaudacao);
    parts := parts + [raw];
    parts := AppendFecho(parts, raw, despedidaCustom, incluirDespedida);
    JoinLayout(Saudacao(saudacaoCustom, incluirSaudacao), raw, Despedida(despedidaCustom, incluirDespedida));
    report := Join(parts, "\n");
  }

  // ------------------------------------------------------------------
  // Justification generator
  // ------------------------------------------------------------------

  /** A JSON value sent as `dados_variaveis`: only an object is accepted. */
  datatype Dados = Objeto(campos: seq<(string, string)>) | OutroValor

  datatype JustificativaPayload = JustificativaPayload(tipo: Option<string>, dados: Option<Dados>)

  /**
   * `api_processar_justificativa`. `payload` is None for a missing body or an
   * empty object. The two generators stand for the justification services.
   */
  function ProcessarJustificativa(payload: Option<JustificativaPayload>,
                                  gerarAtestado: seq<(string, string)> -> string,
                                  gerarTroca: seq<(string, string)> -> string): (r: Result<string>)
    ensures payload.None? <==> r == Err(HttpError(400, MSG_SEM_DADOS))
    ensures payload.Some? && (!TruthyStr(payload.value.tipo) || !(payload.value.dados.Some? && payload.value.dados.value.Objeto?))
      <==> r == Err(HttpError(400, MSG_DADOS_INVALIDOS))
    ensures r.Ok? <==>
      (payload.Some? && TruthyStr(payload.value.tipo) && payload.value.dados.Some? && payload.value.dados.value.Objeto?
       && (payload.value.tipo.value == "atestado" || payload.value.tipo.value == "troca_plantao"))
    ensures r.Ok? && payload.value.tipo.value == "atestado" ==> r.value == gerarAtestado(payload.value.dados.value.campos)
    ensures r.Ok? && payload.value.tipo.value == "troca_plantao" ==> r.value == gerarTroca(payload.value.dados.value.campos)
    ensures r.Err? && r.error != HttpError(400, MSG_SEM_DADOS) && r.error != HttpError(400, MSG_DADOS_INVALIDOS)
      ==> r.error == HttpError(400, MSG_TIPO_DESCONHECIDO + payload.value.tipo.value)
  {
    if payload.None? then Err(HttpError(400, MSG_SEM_DADOS))
    else
      var p := payload.value;
      if !TruthyStr(p.tipo) || !(p.dados.Some? && p.dados.value.Objeto?) then Err(HttpError(400, MSG_DADOS_INVALIDOS))
      else if p.tipo.value == "atestado" then Ok(gerarAtestado(p.dados.value.campos))
      else if p.tipo.value == "troca_plantao" then Ok(gerarTroca(p.dados.value.campos))
      else Err(HttpError(400, MSG_TIPO_DESCONHECIDO + p.tipo.value))
  }
}
