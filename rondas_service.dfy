/**
 * The client-side patrol services: the WhatsApp text of a shift's rondas
 * (the same function is written in both service modules), the local
 * ±30-minute check of an entry time, and the save of a finished ronda as a
 * start request followed by a finish request.
 */
module RondasService {
  import opened Common
  import Calendar
  import MockRondaEsporadica

  // ------------------------------------------------------------------
  // The WhatsApp report
  // ------------------------------------------------------------------

  /** One finished ronda as the report receives it; `duracao` is in minutes. */
  datatype RondaResumo = RondaResumo(inicio: string, termino: string, duracao: int)

  /** The first line, without its line break; `dataFormatada` is the date as the locale writes it. */
  function LinhaPlantao(dataFormatada: string): string
  {
    "Plantão " + dataFormatada + " (18h às 06h)"
  }

  function LinhaResidencial(residencial: string): string
  {
    "Residencial: " + residencial
  }

  /** The line of one ronda, without its line break. */
  function LinhaRonda(r: RondaResumo): string
  {
    "\tInício: " + r.inicio + "  – Término: " + r.termino + " (" + IntToString(r.duracao) + " min)"
  }

  /** What the `forEach` appends for one ronda. */
  function Linha(r: RondaResumo): string
  {
    LinhaRonda(r) + "\n"
  }

  /** The last line: the number of rondas. */
  function LinhaTotal(n: nat): string
  {
    "✅ Total: " + NatToString(n) + " rondas completas no plantão"
  }

  /** The two header lines and the blank line after them. */
  function Cabecalho(dataFormatada: string, residencial: string): string
  {
    LinhaPlantao(dataFormatada) + "\n" + LinhaResidencial(residencial) + "\n\n"
  }

  /** What is appended after the rondas: a blank line and the total. */
  function Rodape(n: nat): string
  {
    "\n" + LinhaTotal(n)
  }

  /** The whole report: the header, one line per ronda in the list's order, and the total. */
  function Relatorio(dataFormatada: string, residencial: string, rondas: seq<RondaResumo>): string
  {
    Cabecalho(dataFormatada, residencial) + ConcatMap(rondas, Linha) + Rodape(|rondas|)
  }

  /**
   * `gerarRelatorioRondasWhatsApp`: the text is accumulated with `+=`, the
   * header first, then one line per ronda in the list's order, then the total.
   */
  method GerarRelatorioWhatsApp(dataFormatada: string, residencial: string, rondas: seq<RondaResumo>)
    returns (relatorio: string)
    ensures relatorio == Relatorio(dataFormatada, residencial, rondas)
  {
    relatorio := LinhaPlantao(dataFormatada) + "\n";
    relatorio := relatorio + LinhaResidencial(residencial) + "\n\n";
    relatorio := AppendEach(relatorio, rondas, Linha);
    relatorio := relatorio + Rodape(|rondas|);
  }

  /** Text a line of the report can hold without breaking it. */
  predicate UmaLinha(s: string) { '\n' !in s }

  predicate RondaUmaLinha(r: RondaResumo) { UmaLinha(r.inicio) && UmaLinha(r.termino) }

  lemma DigitsUmaLinha(s: string)
    requires AllDigits(s)
    ensures UmaLinha(s)
  {
    assert forall k :: 0 <= k < |s| ==> s[k] != '\n';
  }

  lemma LinhaRondaUmaLinha(r: RondaResumo)
    requires RondaUmaLinha(r)
    ensures UmaLinha(LinhaRonda(r))
  {
    var d := IntToString(r.duracao);
    DigitsUmaLinha(NatToString(if r.duracao < 0 then -r.duracao else r.duracao));
    assert UmaLinha(d) by {
      if r.duracao < 0 {
        var n := NatToString(-r.duracao);
        assert d == "-" + n;
        assert forall k :: 1 <= k < |d| ==> d[k] == n[k - 1];
      }
    }
  }

  lemma LinhaTotalUmaLinha(n: nat)
    ensures UmaLinha(LinhaTotal(n))
  {
    DigitsUmaLinha(NatToString(n));
  }

  lemma LinhasSemQuebra(rondas: seq<RondaResumo>)
    requires forall r :: r in rondas ==> RondaUmaLinha(r)
    ensures forall r :: r in rondas ==> Linha(r) == LinhaRonda(r) + "\n" && '\n' !in LinhaRonda(r)
  {
    forall r | r in rondas
      ensures Linha(r) == LinhaRonda(r) + "\n" && '\n' !in LinhaRonda(r)
    {
      LinhaRondaUmaLinha(r);
    }
  }

  /** The rondas' part of the report, followed by any text, splits into one line per ronda and then that text's lines. */
  lemma SplitLinhas(rondas: seq<RondaResumo>, resto: string)
    requires forall r :: r in rondas ==> RondaUmaLinha(r)
    ensures Split(ConcatMap(rondas, Linha) + resto, '\n') == MapStrings(rondas, LinhaRonda) + Split(resto, '\n')
  {
    LinhasSemQuebra(rondas);
    SplitConcatLines(rondas, Linha, LinhaRonda, resto);
  }

  /**
   * Read back line by line, the report is the date line, the residential
   * line, a blank line, exactly one line per ronda in the list's order, a
   * blank line and the total with the number of rondas, whenever none of the
   * texts it quotes holds a line break.
   */
  lemma RelatorioLinhas(dataFormatada: string, residencial: string, rondas: seq<RondaResumo>)
    requires UmaLinha(dataFormatada) && UmaLinha(residencial)
    requires forall r :: r in rondas ==> RondaUmaLinha(r)
    ensures Split(Relatorio(dataFormatada, residencial, rondas), '\n')
      == [LinhaPlantao(dataFormatada), LinhaResidencial(residencial), ""] + MapStrings(rondas, LinhaRonda)
         + ["", LinhaTotal(|rondas|)]
  {
    var h := Cabecalho(dataFormatada, residencial);
    var c := ConcatMap(rondas, Linha);
    var t := Rodape(|rondas|);
    SeqAssoc(h, c, t);
    var cabecalho := [LinhaPlantao(dataFormatada), LinhaResidencial(residencial), ""];
    var linhas := MapStrings(rondas, LinhaRonda);
    var rodape := ["", LinhaTotal(|rondas|)];
    assert Split(h + (c + t), '\n') == cabecalho + Split(c + t, '\n') by {
      CabecalhoLinhas(dataFormatada, residencial, c + t);
    }
    assert Split(c + t, '\n') == linhas + rodape by {
      SplitLinhas(rondas, t);
      RodapeLinhas(|rondas|);
    }
    SeqAssoc(cabecalho, linhas, rodape);
  }

  /** The header splits into the date line, the residential line and a blank line, before the lines of what follows it. */
  lemma CabecalhoLinhas(dataFormatada: string, residencial: string, resto: string)
    requires UmaLinha(dataFormatada) && UmaLinha(residencial)
    ensures Split(Cabecalho(dataFormatada, residencial) + resto, '\n')
      == [LinhaPlantao(dataFormatada), LinhaResidencial(residencial), ""] + Split(resto, '\n')
  {
    LinhaPlantaoUmaLinha(dataFormatada);
    LinhaResidencialUmaLinha(residencial);
    SplitDuasLinhas(LinhaPlantao(dataFormatada), LinhaResidencial(residencial), resto);
  }

  /** Two lines, each ended by a line break, and a blank line split into those three lines before the rest. */
  lemma SplitDuasLinhas(l1: string, l2: string, resto: string)
    requires UmaLinha(l1) && UmaLinha(l2)
    ensures Split(l1 + "\n" + l2 + "\n\n" + resto, '\n') == [l1, l2, ""] + Split(resto, '\n')
  {
    var r2 := ['\n'] + resto;
    var r1 := l2 + ['\n'] + r2;
    var x := l1 + ['\n'] + r1;
    assert l1 + "\n" + l2 + "\n\n" + resto == x by {
      assert "\n\n" == ['\n'] + ['\n'];
    }
    var sr := Split(resto, '\n');
    var s2 := Split(r2, '\n');
    var s1 := Split(r1, '\n');
    assert s2 == [""] + sr by {
      SplitAfterChar("", resto, '\n');
      assert "" + ['\n'] + resto == r2;
    }
    assert s1 == [l2] + s2 by {
      SplitAfterChar(l2, r2, '\n');
    }
    assert Split(x, '\n') == [l1] + s1 by {
      SplitAfterChar(l1, r1, '\n');
    }
    TresNaFrente(l1, l2, "", sr);
  }

  lemma TresNaFrente<T>(a: T, b: T, c: T, s: seq<T>)
    ensures [a] + ([b] + ([c] + s)) == [a, b, c] + s
  {
  }

  lemma LinhaResidencialUmaLinha(residencial: string)
    requires UmaLinha(residencial)
    ensures UmaLinha(LinhaResidencial(residencial))
  {
    var l := LinhaResidencial(residencial);
    assert forall k :: 13 <= k < |l| ==> l[k] == residencial[k - 13];
  }

  lemma LinhaPlantaoUmaLinha(dataFormatada: string)
    requires UmaLinha(dataFormatada)
    ensures UmaLinha(LinhaPlantao(dataFormatada))
  {
    var l := LinhaPlantao(dataFormatada);
    assert forall k :: 8 <= k < 8 + |dataFormatada| ==> l[k] == dataFormatada[k - 8];
    assert forall k :: 8 + |dataFormatada| <= k < |l| ==> l[k] == " (18h às 06h)"[k - 8 - |dataFormatada|];
  }

  /** The footer splits into a blank line and the total. */
  lemma RodapeLinhas(n: nat)
    ensures Split(Rodape(n), '\n') == ["", LinhaTotal(n)]
  {
    var total := LinhaTotal(n);
    LinhaTotalUmaLinha(n);
    SplitNoSeparator(total, '\n');
    SplitAfterChar("", total, '\n');
    assert "" + ['\n'] + total == Rodape(n);
  }

  /** With no rondas the report is the header, a blank line and a total of zero. */
  lemma RelatorioVazio(dataFormatada: string, residencial: string)
    ensures Relatorio(dataFormatada, residencial, []) == Cabecalho(dataFormatada, residencial) + "\n" + LinhaTotal(0)
  {
    var vazio: seq<RondaResumo> := [];
    assert ConcatMap(vazio, Linha) == "";
    Reassocia(Cabecalho(dataFormatada, residencial), "", "\n", LinhaTotal(0));
  }

  /** Adding a ronda at the end of the list adds its line just before the total, and the rest of the report is kept. */
  lemma RelatorioMaisUma(dataFormatada: string, residencial: string, rondas: seq<RondaResumo>, r: RondaResumo)
    ensures Relatorio(dataFormatada, residencial, rondas + [r])
      == Cabecalho(dataFormatada, residencial) + ConcatMap(rondas, Linha) + Linha(r) + Rodape(|rondas| + 1)
  {
    ConcatMapSnoc(rondas, r, Linha);
    Reassocia(Cabecalho(dataFormatada, residencial), ConcatMap(rondas, Linha), Linha(r), Rodape(|rondas| + 1));
  }

  lemma Reassocia(a: string, b: string, c: string, d: string)
    ensures a + (b + c) + d == a + b + c + d
    ensures a + "" + (c + d) == a + c + d
  {
  }

  // ------------------------------------------------------------------
  // validarHorarioEntrada
  // ------------------------------------------------------------------

  const TOLERANCIA := 30

  /** Characters JavaScript's `Number(text)` trims: white space and line terminators. */
  predicate IsJsSpace(c: char)
  {
    c == '\t' || c == '\n' || c == '\U{000B}' || c == '\U{000C}' || c == '\r' || c == ' ' || c == '\U{00A0}'
    || c == '\U{1680}' || '\U{2000}' <= c <= '\U{200A}' || c == '\U{2028}' || c == '\U{2029}' || c == '\U{202F}'
    || c == '\U{205F}' || c == '\U{3000}' || c == '\U{FEFF}'
  }

  /** `r` is `s[i..j]` and everything of `s` outside it is white space. */
  ghost predicate TrimmedAt(s: string, i: nat, j: nat, r: string)
  {
    i <= j <= |s| && r == s[i..j]
    && (forall k :: 0 <= k < i ==> IsJsSpace(s[k]))
    && (forall k :: j <= k < |s| ==> IsJsSpace(s[k]))
  }

  /** `trim()`: the text without its leading and trailing white space. */
  function TrimJs(s: string): (r: string)
    ensures exists i: nat, j: nat :: TrimmedAt(s, i, j, r)
    ensures |r| > 0 ==> !IsJsSpace(r[0]) && !IsJsSpace(r[|r| - 1])
    decreases |s|
  {
    if |s| == 0 then
      assert TrimmedAt(s, 0, 0, s);
      s
    else if IsJsSpace(s[0]) then
      var r := TrimJs(s[1..]);
      TrimmedDepoisDoPrimeiro(s, r);
      r
    else if IsJsSpace(s[|s| - 1]) then
      var r := TrimJs(s[..|s| - 1]);
      TrimmedAntesDoUltimo(s, s[..|s| - 1], r);
      r
    else
      assert TrimmedAt(s, 0, |s|, s);
      s
  }

  lemma TrimmedDepoisDoPrimeiro(s: string, r: string)
    requires |s| > 0 && IsJsSpace(s[0])
    requires exists i: nat, j: nat :: TrimmedAt(s[1..], i, j, r)
    ensures exists i: nat, j: nat :: TrimmedAt(s, i, j, r)
  {
    var i: nat, j: nat :| TrimmedAt(s[1..], i, j, r);
    assert s[1..][i..j] == s[i + 1..j + 1];
    assert TrimmedAt(s, i + 1, j + 1, r);
  }

  lemma TrimmedAntesDoUltimo(s: string, prefixo: string, r: string)
    requires |s| > 0 && IsJsSpace(s[|s| - 1]) && prefixo == s[..|s| - 1]
    requires exists i: nat, j: nat :: TrimmedAt(prefixo, i, j, r)
    ensures exists i: nat, j: nat :: TrimmedAt(s, i, j, r)
  {
    var i: nat, j: nat :| TrimmedAt(prefixo, i, j, r);
    assert prefixo[i..j] == s[i..j];
    assert TrimmedAt(s, i, j, r);
  }

  /** A numeral, signed or not, has no white space to trim. */
  lemma TrimJsNumeral(s: string)
    ensures |s| > 0 && (AllDigits(s) || ((s[0] == '-' || s[0] == '+') && AllDigits(s[1..]))) && IsDigit(s[|s| - 1])
      ==> TrimJs(s) == s
  {
  }

  /** Text made only of white space trims to nothing. */
  lemma TrimJsBlank(s: string)
    ensures (forall k :: 0 <= k < |s| ==> IsJsSpace(s[k])) ==> TrimJs(s) == ""
  {
    if forall k :: 0 <= k < |s| ==> IsJsSpace(s[k]) {
      var r := TrimJs(s);
      var i: nat, j: nat :| TrimmedAt(s, i, j, r);
    }
  }

  /**
   * JavaScript's `Number(text)` on the texts the entry time can split into:
   * blank text is 0, an optionally signed run of decimal digits is its value,
   * and anything else is None, which stands for NaN.
   */
  function JsNumber(s: string): (r: Option<int>)
    ensures (forall k :: 0 <= k < |s| ==> IsJsSpace(s[k])) ==> r == Some(0)
    ensures |s| > 0 && AllDigits(s) ==> r == Some(DigitsValue(s))
    ensures |s| >= 2 && s[0] == '-' && AllDigits(s[1..]) ==> r == Some(-(DigitsValue(s[1..]) as int))
    ensures |s| >= 2 && s[0] == '+' && AllDigits(s[1..]) ==> r == Some(DigitsValue(s[1..]) as int)
  {
    TrimJsBlank(s);
    TrimJsNumeral(s);
    var t := TrimJs(s);
    if |t| == 0 then Some(0)
    else if (t[0] == '-' || t[0] == '+') && |t| >= 2 && AllDigits(t[1..]) then
      Some(if t[0] == '-' then -(DigitsValue(t[1..]) as int) else DigitsValue(t[1..]))
    else if AllDigits(t) then Some(DigitsValue(t))
    else None
  }

  /**
   * The minute of the day an entry time stands for: the first two pieces of
   * `split(':')` read with `Number`, or None (NaN) when a piece is missing or
   * is not a number.
   */
  function MinutosDe(hora: string): (r: Option<int>)
  {
    MinutosDasPartes(Split(hora, ':'))
  }

  /** The minute of the day the pieces of a split entry time stand for. */
  function MinutosDasPartes(partes: seq<string>): (r: Option<int>)
    requires |partes| >= 1
  {
    var h := JsNumber(partes[0]);
    var m := if |partes| >= 2 then JsNumber(partes[1]) else None;
    if h.Some? && m.Some? then Some(h.value * 60 + m.value) else None
  }

  /** The answer of `validarHorarioEntrada`. */
  datatype Validacao = Validacao(sucesso: bool, horarioValido: bool, mensagem: string, horaAtual: string, horaInformada: string)

  const MSG_VALIDO := "Horário válido"
  const MSG_INVALIDO := "Horário inválido"

  /** The message: the verdict first, then both times, and the tolerance when refused. */
  function Mensagem(valido: bool, horaAtual: string, horaEntrada: string): (m: string)
    ensures valido ==> m == MSG_VALIDO + ". Hora atual: " + horaAtual + ", Hora informada: " + horaEntrada
    ensures !valido ==> m == MSG_INVALIDO + ". Hora atual: " + horaAtual + ", Hora informada: " + horaEntrada
                             + ". Tolerância: ±" + "30" + " minutos"
    ensures StartsWith(m, MSG_VALIDO) <==> valido
    ensures StartsWith(m, MSG_INVALIDO) <==> !valido
  {
    var resto := ". Hora atual: " + horaAtual + ", Hora informada: " + horaEntrada;
    if valido then
      ComecaCom(MSG_VALIDO, resto);
      VereditosDistintos(resto);
      MSG_VALIDO + resto
    else
      var texto := resto + ". Tolerância: ±" + NatToString(TOLERANCIA) + " minutos";
      ComecaCom(MSG_INVALIDO, texto);
      VereditosDistintos(texto);
      MSG_INVALIDO + texto
  }

  lemma ComecaCom(a: string, b: string)
    ensures StartsWith(a + b, a)
  {
    assert (a + b)[..|a|] == a;
  }

  /** Neither verdict is a prefix of a message starting with the other. */
  lemma VereditosDistintos(x: string)
    ensures !StartsWith(MSG_INVALIDO + x, MSG_VALIDO)
    ensures !StartsWith(MSG_VALIDO + x, MSG_INVALIDO)
  {
    assert MSG_VALIDO[8] == 'v' && MSG_INVALIDO[8] == 'i';
    assert (MSG_INVALIDO + x)[8] == 'i';
    assert (MSG_VALIDO + x)[8] == 'v';
  }

  /**
   * `validarHorarioEntrada`: `agora` is the current minute of the day. The
   * current time is written "HH:MM" and read back the same way as the entry
   * time; a NaN on either side makes the comparison false.
   */
  function ValidarHorarioEntrada(horaEntrada: string, agora: int): (v: Validacao)
    requires 0 <= agora < 1440
    ensures v.sucesso && v.horaInformada == horaEntrada && v.horaAtual == Calendar.FormatHourMinute(agora)
    ensures v.horarioValido <==> MinutosDe(horaEntrada).Some? && -TOLERANCIA <= MinutosDe(horaEntrada).value - agora <= TOLERANCIA
    ensures v.mensagem == Mensagem(v.horarioValido, v.horaAtual, horaEntrada)
    ensures StartsWith(v.mensagem, MSG_VALIDO) <==> v.horarioValido
    ensures StartsWith(v.mensagem, MSG_INVALIDO) <==> !v.horarioValido
  {
    var horaAtual := Calendar.FormatHourMinute(agora);
    HoraAtualRoundTrip(agora);
    var entrada := MinutosDe(horaEntrada);
    var atual := MinutosDe(horaAtual);
    assert atual == Some(agora);
    var valido := entrada.Some? && atual.Some? && Abs(entrada.value - atual.value) <= TOLERANCIA;
    assert valido <==> entrada.Some? && -TOLERANCIA <= entrada.value - agora <= TOLERANCIA;
    var mensagem := Mensagem(valido, horaAtual, horaEntrada);
    assert StartsWith(mensagem, MSG_VALIDO) <==> valido;
    Validacao(true, valido, mensagem, horaAtual, horaEntrada)
  }

  function Abs(x: int): nat { if x < 0 then -x else x }

  /** Digits hold no colon. */
  lemma DigitsSemDoisPontos(s: string)
    requires AllDigits(s)
    ensures ':' !in s
  {
  }

  /** Two runs of digits joined by a colon read back as hours times 60 plus minutes. */
  lemma MinutosDeHHMM(hora: string, a: string, b: string, minutos: int)
    requires hora == a + ":" + b
    requires AllDigits(a) && AllDigits(b) && minutos == DigitsValue(a) * 60 + DigitsValue(b)
    ensures MinutosDe(hora) == Some(minutos)
  {
    assert Split(hora, ':') == [a, b] by {
      DigitsSemDoisPontos(a);
      DigitsSemDoisPontos(b);
      assert hora == a + [':'] + b;
      SplitAfterChar(a, b, ':');
      SplitNoSeparator(b, ':');
    }
    MinutosDeDuasPartes([a, b], DigitsValue(a), DigitsValue(b), minutos);
  }

  /** Two pieces that read as numbers give hours times 60 plus minutes. */
  lemma MinutosDeDuasPartes(partes: seq<string>, h: int, m: int, minutos: int)
    requires |partes| == 2 && JsNumber(partes[0]) == Some(h) && JsNumber(partes[1]) == Some(m)
    requires minutos == h * 60 + m
    ensures MinutosDasPartes(partes) == Some(minutos)
  {
  }

  /** The current time written "HH:MM" reads back as the same minute of the day. */
  lemma HoraAtualRoundTrip(agora: int)
    requires 0 <= agora < 1440
    ensures MinutosDe(Calendar.FormatHourMinute(agora)) == Some(agora)
  {
    MinutosDeHHMM(Calendar.FormatHourMinute(agora), Pad2(agora / 60), Pad2(agora % 60), agora);
  }

  /** An entry time written "HH:MM" is accepted exactly when it is at most 30 minutes from now, with no wrap at midnight. */
  lemma ValidarFormatado(entrada: int, agora: int)
    requires 0 <= entrada < 1440 && 0 <= agora < 1440
    ensures ValidarHorarioEntrada(Calendar.FormatHourMinute(entrada), agora).horarioValido
      <==> Abs(entrada - agora) <= TOLERANCIA
  {
    HoraAtualRoundTrip(entrada);
  }

  /**
   * On a zero-padded "HH:MM" entry time, the local check and the server's
   * `validar-horario` route give the same verdict.
   */
  lemma ConcordaComServidor(entrada: int, agora: int)
    requires 0 <= entrada < 1440 && 0 <= agora < 1440
    ensures var hora := Calendar.FormatHourMinute(entrada);
      var servidor := MockRondaEsporadica.ValidarHorarioEntrada(Some(MockRondaEsporadica.HorarioPayload(Some(hora))), agora);
      servidor.Ok? && servidor.value.horarioValido == ValidarHorarioEntrada(hora, agora).horarioValido
  {
    var hora := Calendar.FormatHourMinute(entrada);
    Calendar.StrptimeHourMinuteRoundTrip(entrada);
    ValidarFormatado(entrada, agora);
    assert TruthyStr(Some(hora));
  }

  // ------------------------------------------------------------------
  // salvarRondaCompleta
  // ------------------------------------------------------------------

  /** What the caller hands to `salvarRondaCompleta`. */
  datatype DadosRonda = DadosRonda(condominioId: int, userId: int, dataPlantao: string, horaEntrada: string,
                                   horaSaida: string, escalaPlantao: string, turno: string, observacoes: Option<string>)

  /** The body of the start request. */
  datatype PedidoInicio = PedidoInicio(condominioId: int, userId: int, dataPlantao: string, horaEntrada: string,
                                       escalaPlantao: string, turno: string, observacoes: Option<string>)

  /** The body of the finish request. */
  datatype PedidoFim = PedidoFim(horaSaida: string, observacoes: Option<string>)

  /** The answer of a start or finish request. */
  datatype Resposta = Resposta(sucesso: bool, message: string, rondaId: Option<int>)

  /** A request the service sends, in the order it sends them. */
  datatype Chamada = Inicio(inicio: PedidoInicio) | Fim(rondaId: int, fim: PedidoFim)

  const MSG_ERRO_INICIO := "Erro ao iniciar ronda"

  /**
   * `salvarRondaCompleta`: starts the ronda with the current time `agora`
   * (not the informed entry time), and only when the start answered success
   * with a ronda id finishes it with the informed exit time; the finish's
   * answer is returned as it came. `iniciar` and `finalizar` stand for the two
   * requests. Returns the answer and the requests sent.
   */
  function SalvarRondaCompleta(dados: DadosRonda, agora: int,
                               iniciar: PedidoInicio -> Resposta,
                               finalizar: (int, PedidoFim) -> Resposta): (r: (Resposta, seq<Chamada>))
    requires 0 <= agora < 1440
    ensures |r.1| >= 1 && r.1[0].Inicio?
    ensures r.1[0].inicio == PedidoInicio(dados.condominioId, dados.userId, dados.dataPlantao, Calendar.FormatHourMinute(agora),
                                          dados.escalaPlantao, dados.turno, dados.observacoes)
    ensures var iniciada := iniciar(r.1[0].inicio);
      (|r.1| == 2 <==> iniciada.sucesso && TruthyInt(iniciada.rondaId))
      && (|r.1| == 2 ==> r.1[1] == Fim(iniciada.rondaId.value, PedidoFim(dados.horaSaida, dados.observacoes))
                         && r.0 == finalizar(iniciada.rondaId.value, PedidoFim(dados.horaSaida, dados.observacoes)))
      && (|r.1| != 2 ==> |r.1| == 1 && r.0 == Resposta(false, MSG_ERRO_INICIO, None))
  {
    var pedido := PedidoInicio(dados.condominioId, dados.userId, dados.dataPlantao, Calendar.FormatHourMinute(agora),
                               dados.escalaPlantao, dados.turno, dados.observacoes);
    var iniciada := iniciar(pedido);
    if !iniciada.sucesso || !TruthyInt(iniciada.rondaId) then
      (Resposta(false, MSG_ERRO_INICIO, None), [Inicio(pedido)])
    else
      var fim := PedidoFim(dados.horaSaida, dados.observacoes);
      (finalizar(iniciada.rondaId.value, fim), [Inicio(pedido), Fim(iniciada.rondaId.value, fim)])
  }

  /**
   * The start request always carries the current time, so it passes the
   * entry-time check whatever entry time the caller informed, and a finish
   * request is only ever sent after it.
   */
  lemma InicioPassaValidacao(dados: DadosRonda, agora: int, iniciar: PedidoInicio -> Resposta,
                             finalizar: (int, PedidoFim) -> Resposta)
    requires 0 <= agora < 1440
    ensures var chamadas := SalvarRondaCompleta(dados, agora, iniciar, finalizar).1;
      ValidarHorarioEntrada(chamadas[0].inicio.horaEntrada, agora).horarioValido
      && forall i :: 0 <= i < |chamadas| && chamadas[i].Fim? ==> i > 0 && chamadas[i - 1].Inicio?
  {
    ValidarFormatado(agora, agora);
  }
}
