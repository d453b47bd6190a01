/**
 * The database-backed sporadic-patrol routes: the listing of executed rondas
 * (filter and order), the period statistics with their per-turno and
 * per-date groupings, and the request validation that runs before the
 * ronda service is called.
 */
module DbRondaEsporadica {
  import opened Common
  import opened Calendar

  const FINALIZADA := "finalizada"
  const TURNO_INDEFINIDO := "Não definido"

  const MSG_CONDOMINIO_OBRIGATORIO := "condominio_id é obrigatório."
  const MSG_CONDOMINIO_INVALIDO := "condominio_id deve ser um número válido."
  const MSG_INICIO_FORMATO := "data_inicio deve estar no formato YYYY-MM-DD."
  const MSG_FIM_FORMATO := "data_fim deve estar no formato YYYY-MM-DD."
  const MSG_DATAS_OBRIGATORIAS := "Data início e data fim são obrigatórias."
  const MSG_ERRO_ESTATISTICAS := "Erro ao obter estatísticas: "
  const MSG_SEM_DADOS := "Dados não fornecidos."
  const MSG_HORA_OBRIGATORIA := "Hora de entrada é obrigatória."
  const MSG_FORMATO_HORA := "Formato de hora inválido. Use HH:MM."
  const MSG_CAMPOS_OBRIGATORIOS := "Todos os campos obrigatórios devem ser fornecidos."
  const MSG_FORMATO_DATA_HORA := "Formato de data ou hora inválido."
  const MSG_SAIDA_OBRIGATORIA := "Hora de saída é obrigatória."

  /** The columns of a `RondaEsporadica` row the routes read; `horaEntrada` is a minute of the day. */
  datatype Row = Row(
    id: int,
    condominioId: int,
    dataPlantao: Date,
    horaEntrada: int,
    turno: Option<string>,
    status: string,
    duracaoMinutos: Option<int>)

  // ------------------------------------------------------------------
  // Executed rondas: filter and order
  // ------------------------------------------------------------------

  /** The order of `order_by(data_plantao, hora_entrada)`: by date, then by entry time. */
  predicate KeyLeq(a: Row, b: Row)
  {
    (DateLeq(a.dataPlantao, b.dataPlantao) && a.dataPlantao != b.dataPlantao)
    || (a.dataPlantao == b.dataPlantao && a.horaEntrada <= b.horaEntrada)
  }

  lemma KeyLeqTotal(a: Row, b: Row)
    ensures KeyLeq(a, b) || KeyLeq(b, a)
  {
  }

  lemma KeyLeqTransitive(a: Row, b: Row, c: Row)
    requires KeyLeq(a, b) && KeyLeq(b, c)
    ensures KeyLeq(a, c)
  {
  }

  /** Most recent first: `data_plantao DESC, hora_entrada DESC`. */
  ghost predicate SortedDesc(s: seq<Row>)
  {
    forall i, j :: 0 <= i < j < |s| ==> KeyLeq(s[j], s[i])
  }

  /** Puts `x` in front of the first element it is not older than. */
  function Insert(x: Row, s: seq<Row>): (r: seq<Row>)
    ensures multiset(r) == multiset(s) + multiset{x}
  {
    if |s| == 0 then [x]
    else if KeyLeq(s[0], x) then [x] + s
    else
      assert s == [s[0]] + s[1..];
      [s[0]] + Insert(x, s[1..])
  }

  lemma {:induction false} InsertSorted(x: Row, s: seq<Row>)
    requires SortedDesc(s)
    ensures SortedDesc(Insert(x, s))
  {
    if |s| == 0 {
    } else if KeyLeq(s[0], x) {
      forall j | 0 < j < |s| + 1
        ensures KeyLeq(([x] + s)[j], x)
      {
        if j > 1 {
          KeyLeqTransitive(s[j - 1], s[0], x);
        }
      }
    } else {
      KeyLeqTotal(s[0], x);
      var tail := Insert(x, s[1..]);
      InsertSorted(x, s[1..]);
      forall y | y in tail
        ensures KeyLeq(y, s[0])
      {
        assert y in multiset(tail);
        if y != x {
          assert y in multiset(s[1..]);
          var k :| 0 <= k < |s[1..]| && s[1..][k] == y;
          assert s[k + 1] == y;
        }
      }
      assert forall j :: 0 < j < |tail| + 1 ==> ([s[0]] + tail)[j] == tail[j - 1];
    }
  }

  /** The rows in `SortedDesc` order (insertion sort). */
  function SortDesc(s: seq<Row>): (r: seq<Row>)
    ensures multiset(r) == multiset(s)
    ensures SortedDesc(r)
  {
    if |s| == 0 then []
    else
      assert s == [s[0]] + s[1..];
      var rest := SortDesc(s[1..]);
      InsertSorted(s[0], rest);
      Insert(s[0], rest)
  }

  /** The query filters of `listar_rondas_executadas`; a bound that was not given does not filter. */
  predicate Executada(r: Row, condominioId: int, inicio: Option<Date>, fim: Option<Date>)
  {
    r.condominioId == condominioId
    && (inicio.None? || DateLeq(inicio.value, r.dataPlantao))
    && (fim.None? || DateLeq(r.dataPlantao, fim.value))
    && r.status == FINALIZADA
  }

  /** A date query parameter: absent or empty means no filter; otherwise it must parse. */
  function ParseBound(param: Option<string>): Option<Option<Date>>
  {
    if !TruthyStr(param) then Some(None)
    else match StrptimeIsoDate(param.value)
      case None => None
      case Some(d) => Some(Some(d))
  }

  /**
   * `listar_rondas_executadas`: the condominium id is required and must be
   * an integer; each date bound that is given must parse; the answer holds
   * exactly the finished rondas of the condominium within the bounds, most
   * recent first.
   */
  function ListarExecutadas(rows: seq<Row>, condominioParam: Option<string>, inicio: Option<string>, fim: Option<string>): (r: Result<seq<Row>>)
    ensures !TruthyStr(condominioParam) <==> r == Err(HttpError(400, MSG_CONDOMINIO_OBRIGATORIO))
    ensures TruthyStr(condominioParam) && PyInt(condominioParam.value).None?
      <==> r == Err(HttpError(400, MSG_CONDOMINIO_INVALIDO))
    ensures TruthyStr(condominioParam) && PyInt(condominioParam.value).Some? && ParseBound(inicio).None?
      <==> r == Err(HttpError(400, MSG_INICIO_FORMATO))
    ensures (TruthyStr(condominioParam) && PyInt(condominioParam.value).Some? && ParseBound(inicio).Some?
         && ParseBound(fim).None?)
      <==> r == Err(HttpError(400, MSG_FIM_FORMATO))
    ensures r.Ok? <==>
      (TruthyStr(condominioParam) && PyInt(condominioParam.value).Some?
       && ParseBound(inicio).Some? && ParseBound(fim).Some?)
    ensures r.Ok? ==>
      (SortedDesc(r.value)
       && multiset(r.value) == multiset(Filter(rows, (x: Row) =>
         Executada(x, PyInt(condominioParam.value).value, ParseBound(inicio).value, ParseBound(fim).value))))
  {
    if !TruthyStr(condominioParam) then Err(HttpError(400, MSG_CONDOMINIO_OBRIGATORIO))
    else match PyInt(condominioParam.value)
      case None => Err(HttpError(400, MSG_CONDOMINIO_INVALIDO))
      case Some(c) =>
        match ParseBound(inicio)
        case None => Err(HttpError(400, MSG_INICIO_FORMATO))
        case Some(di) =>
          match ParseBound(fim)
          case None => Err(HttpError(400, MSG_FIM_FORMATO))
          case Some(df) =>
            Ok(SortDesc(Filter(rows, (x: Row) => Executada(x, c, di, df))))
  }

  /** Every listed ronda is finished and belongs to the condominium, and every such ronda within the bounds is listed. */
  lemma ExecutadasExact(rows: seq<Row>, c: int, di: Option<Date>, df: Option<Date>, x: Row)
    ensures x in SortDesc(Filter(rows, (y: Row) => Executada(y, c, di, df)))
        <==> x in rows && Executada(x, c, di, df)
  {
    var kept := Filter(rows, (y: Row) => Executada(y, c, di, df));
    assert x in SortDesc(kept) <==> x in multiset(SortDesc(kept));
    assert x in kept <==> x in multiset(kept);
    if x in rows && Executada(x, c, di, df) {
      FilterKeeps(rows, (y: Row) => Executada(y, c, di, df), x);
    }
  }

  // ------------------------------------------------------------------
  // Grouping: the `turnos` and `datas` dictionaries
  // ------------------------------------------------------------------

  /** One entry of a grouping dictionary: `{key: {"total": t, "duracao": d}}`. */
  datatype Group = Group(key: string, total: int, duracao: int)

  /** Position of the entry for `key`, if the dictionary has one. */
  function KeyIndex(gs: seq<Group>, key: string): (r: Option<nat>)
    ensures r.Some? ==> r.value < |gs| && gs[r.value].key == key
    ensures r.None? ==> forall j :: 0 <= j < |gs| ==> gs[j].key != key
  {
    FirstWhere(gs, (g: Group) => g.key == key)
  }

  /** One step of the grouping loop: create the entry at zero when missing, then add one ronda and its duration. */
  function AddTo(gs: seq<Group>, key: string, duracao: int): seq<Group>
  {
    match KeyIndex(gs, key)
    case Some(k) => gs[k := gs[k].(total := gs[k].total + 1, duracao := gs[k].duracao + duracao)]
    case None => gs + [Group(key, 1, duracao)]
  }

  /** The dictionary the loop builds from the (key, duration) of each ronda, in order. */
  function Grouped(pairs: seq<(string, int)>): seq<Group>
  {
    if |pairs| == 0 then []
    else AddTo(Grouped(pairs[..|pairs| - 1]), pairs[|pairs| - 1].0, pairs[|pairs| - 1].1)
  }

  ghost predicate KeysUnique(gs: seq<Group>)
  {
    forall i, j :: 0 <= i < j < |gs| ==> gs[i].key != gs[j].key
  }

  /** The keys of a dictionary. */
  ghost function Keys(gs: seq<Group>): set<string>
  {
    set j | 0 <= j < |gs| :: gs[j].key
  }

  /** The keys met in the rondas. */
  ghost function PairKeys(pairs: seq<(string, int)>): set<string>
  {
    set i | 0 <= i < |pairs| :: pairs[i].0
  }

  function TotalOf(g: Group): int { g.total }
  function DuracaoOf(g: Group): int { g.duracao }
  function PairDuracao(p: (string, int)): int { p.1 }

  /** One step adds the key to the dictionary's keys and keeps them distinct. */
  lemma AddToKeys(gs: seq<Group>, key: string, duracao: int)
    requires KeysUnique(gs)
    ensures KeysUnique(AddTo(gs, key, duracao))
    ensures Keys(AddTo(gs, key, duracao)) == Keys(gs) + {key}
  {
    var r := AddTo(gs, key, duracao);
    match KeyIndex(gs, key)
    case Some(k) =>
      assert forall j :: 0 <= j < |gs| ==> r[j].key == gs[j].key;
      assert key == gs[k].key;
    case None =>
      assert forall j :: 0 <= j < |gs| ==> r[j].key == gs[j].key;
      assert r[|gs|].key == key;
  }

  /** One step adds one to the totals and the duration to the durations. */
  lemma AddToSums(gs: seq<Group>, key: string, duracao: int)
    ensures SumOf(AddTo(gs, key, duracao), TotalOf) == SumOf(gs, TotalOf) + 1
    ensures SumOf(AddTo(gs, key, duracao), DuracaoOf) == SumOf(gs, DuracaoOf) + duracao
  {
    match KeyIndex(gs, key)
    case Some(k) =>
      var g := gs[k].(total := gs[k].total + 1, duracao := gs[k].duracao + duracao);
      SumOfUpdate(gs, k, g, TotalOf);
      SumOfUpdate(gs, k, g, DuracaoOf);
    case None =>
      SumOfSnoc(gs, Group(key, 1, duracao), TotalOf);
      SumOfSnoc(gs, Group(key, 1, duracao), DuracaoOf);
  }

  /**
   * Conservation: the dictionary has one entry per distinct key, its totals
   * add up to the number of rondas and its durations to the total duration.
   */
  lemma {:induction false} GroupedSums(pairs: seq<(string, int)>)
    ensures KeysUnique(Grouped(pairs))
    ensures Keys(Grouped(pairs)) == PairKeys(pairs)
    ensures SumOf(Grouped(pairs), TotalOf) == |pairs|
    ensures SumOf(Grouped(pairs), DuracaoOf) == SumOf(pairs, PairDuracao)
  {
    if |pairs| > 0 {
      var init, last := pairs[..|pairs| - 1], pairs[|pairs| - 1];
      var anterior := Grouped(init);
      GroupedSums(init);
      assert Grouped(pairs) == AddTo(anterior, last.0, last.1);
      AddToKeys(anterior, last.0, last.1);
      AddToSums(anterior, last.0, last.1);
      assert SumOf(pairs, PairDuracao) == SumOf(init, PairDuracao) + last.1;
      PairKeysSnoc(pairs);
    }
  }

  lemma PairKeysSnoc(pairs: seq<(string, int)>)
    requires |pairs| > 0
    ensures PairKeys(pairs) == PairKeys(pairs[..|pairs| - 1]) + {pairs[|pairs| - 1].0}
  {
    var init := pairs[..|pairs| - 1];
    forall k | k in PairKeys(pairs) ensures k in PairKeys(init) + {pairs[|pairs| - 1].0} {
      var i :| 0 <= i < |pairs| && pairs[i].0 == k;
      if i < |init| {
        assert init[i] == pairs[i];
      }
    }
    forall k | k in PairKeys(init) ensures k in PairKeys(pairs) {
      var i :| 0 <= i < |init| && init[i].0 == k;
      assert pairs[i] == init[i];
    }
  }

  /** The number of rondas whose key is `key`. */
  function KeyCount(pairs: seq<(string, int)>, key: string): nat
  {
    if |pairs| == 0 then 0
    else KeyCount(pairs[..|pairs| - 1], key) + (if pairs[|pairs| - 1].0 == key then 1 else 0)
  }

  /** The total duration of the rondas whose key is `key`. */
  function KeySum(pairs: seq<(string, int)>, key: string): int
  {
    if |pairs| == 0 then 0
    else KeySum(pairs[..|pairs| - 1], key) + (if pairs[|pairs| - 1].0 == key then pairs[|pairs| - 1].1 else 0)
  }

  /** A key no ronda has counts no ronda and no duration. */
  lemma {:induction false} KeyAbsent(pairs: seq<(string, int)>, key: string)
    requires key !in PairKeys(pairs)
    ensures KeyCount(pairs, key) == 0 && KeySum(pairs, key) == 0
  {
    if |pairs| > 0 {
      PairKeysSnoc(pairs);
      KeyAbsent(pairs[..|pairs| - 1], key);
    }
  }

  /** Each entry of the dictionary holds the number and the total duration of exactly the rondas with its key. */
  lemma {:induction false} GroupedEntries(pairs: seq<(string, int)>)
    ensures forall j :: 0 <= j < |Grouped(pairs)| ==>
      Grouped(pairs)[j].total == KeyCount(pairs, Grouped(pairs)[j].key)
      && Grouped(pairs)[j].duracao == KeySum(pairs, Grouped(pairs)[j].key)
  {
    if |pairs| > 0 {
      var init, last := pairs[..|pairs| - 1], pairs[|pairs| - 1];
      var gs := Grouped(init);
      GroupedEntries(init);
      GroupedSums(init);
      var r := Grouped(pairs);
      assert r == AddTo(gs, last.0, last.1);
      match KeyIndex(gs, last.0)
      case Some(k) =>
        forall j | 0 <= j < |r|
          ensures r[j].total == KeyCount(pairs, r[j].key) && r[j].duracao == KeySum(pairs, r[j].key)
        {
          if j != k {
            assert r[j] == gs[j] && gs[j].key != gs[k].key;
          }
        }
      case None =>
        forall j | 0 <= j < |r|
          ensures r[j].total == KeyCount(pairs, r[j].key) && r[j].duracao == KeySum(pairs, r[j].key)
        {
          if j == |gs| {
            assert last.0 !in Keys(gs);
            KeyAbsent(init, last.0);
          } else {
            assert r[j] == gs[j] && gs[j].key != last.0;
          }
        }
    }
  }

  /** The grouping loop of `obter_estatisticas_rondas_esporadicas`, over the (key, duration) of each ronda. */
  method GroupTotals(pairs: seq<(string, int)>) returns (gs: seq<Group>)
    ensures gs == Grouped(pairs)
  {
    gs := [];
    var i := 0;
    while i < |pairs|
      invariant 0 <= i <= |pairs|
      invariant gs == Grouped(pairs[..i])
    {
      assert pairs[..i + 1][..i] == pairs[..i];
      var (key, duracao) := pairs[i];
      var k := KeyIndex(gs, key);
      if k.None? {
        gs := gs + [Group(key, 0, 0)];
        k := Some(|gs| - 1);
      }
      var idx := k.value;
      gs := gs[idx := gs[idx].(total := gs[idx].total + 1, duracao := gs[idx].duracao + duracao)];
      i := i + 1;
    }
    assert pairs[..i] == pairs;
  }

  // ------------------------------------------------------------------
  // Statistics of a period
  // ------------------------------------------------------------------

  /** `ronda.duracao_minutos or 0`. */
  function DuracaoOr0(r: Row): int
  {
    if r.duracaoMinutos.Some? then r.duracaoMinutos.value else 0
  }

  /** `ronda.turno or "Não definido"`. */
  function TurnoKey(r: Row): string
  {
    if TruthyStr(r.turno) then r.turno.value else TURNO_INDEFINIDO
  }

  function TurnoPair(r: Row): (string, int) { (TurnoKey(r), DuracaoOr0(r)) }

  function DataPair(r: Row): (string, int)
    requires ValidDate(r.dataPlantao)
  {
    (FormatIso(r.dataPlantao), DuracaoOr0(r))
  }

  /** The (turno, duration) of each ronda, in order. */
  function TurnoPairs(rs: seq<Row>): seq<(string, int)>
  {
    seq(|rs|, i requires 0 <= i < |rs| => TurnoPair(rs[i]))
  }

  /** The (date, duration) of each ronda, in order. */
  function DataPairs(rs: seq<Row>): seq<(string, int)>
    requires forall i :: 0 <= i < |rs| ==> ValidDate(rs[i].dataPlantao)
  {
    seq(|rs|, i requires 0 <= i < |rs| => DataPair(rs[i]))
  }

  predicate IsFinalizada(r: Row) { r.status == FINALIZADA }

  /** `f"{t // 60}h {t % 60}min"`; Python's floor division and remainder agree with Dafny's for the divisor 60. */
  function FormatDuracao(t: int): (s: string)
    ensures exists h: int, m: int :: 0 <= m < 60 && 60 * h + m == t && s == IntToString(h) + "h " + IntToString(m) + "min"
  {
    IntToString(t / 60) + "h " + IntToString(t % 60) + "min"
  }

  /** The statistics answer; the average and its formatting are floating point and not part of this record. */
  datatype Estatisticas = Estatisticas(
    dias: int,
    totalRondas: nat,
    rondasFinalizadas: nat,
    rondasEmAndamento: int,
    duracaoTotalMinutos: int,
    duracaoTotalFormatada: string,
    porTurno: seq<Group>,
    porData: seq<Group>)

  predicate NoPeriodo(r: Row, condominioId: int, inicio: Date, fim: Date)
  {
    r.condominioId == condominioId && DateLeq(inicio, r.dataPlantao) && DateLeq(r.dataPlantao, fim)
  }

  /** Rows as the table holds them: every shift date is a real date. */
  ghost predicate ValidRows(rows: seq<Row>)
  {
    forall i :: 0 <= i < |rows| ==> ValidDate(rows[i].dataPlantao)
  }

  /** Number of days from `inicio` to `fim`, both counted: `(fim - inicio).days + 1`. */
  function Dias(inicio: Date, fim: Date): (n: int)
    requires ValidDate(inicio) && ValidDate(fim)
    ensures n >= 1 <==> DateLeq(inicio, fim)
    ensures n == 1 <==> inicio == fim
  {
    OrdinalOrder(inicio, fim);
    Ordinal(fim) - Ordinal(inicio) + 1
  }

  /**
   * What the statistics of a period say: the number of days, the rondas of
   * the condominium in the period (finished or not), their total duration,
   * and the groupings by turno and by date, each with one entry per key and
   * adding up to the same totals.
   */
  ghost predicate Descreve(e: Estatisticas, rows: seq<Row>, condominioId: int, di: Date, df: Date)
    requires ValidRows(rows) && ValidDate(di) && ValidDate(df)
  {
    var periodo := Filter(rows, (x: Row) => NoPeriodo(x, condominioId, di, df));
    assert forall i :: 0 <= i < |periodo| ==> periodo[i] in rows;
    e.dias == Dias(di, df)
    && e.totalRondas == |periodo|
    && e.rondasFinalizadas == CountIf(periodo, IsFinalizada)
    && e.rondasFinalizadas <= e.totalRondas
    && e.rondasEmAndamento == e.totalRondas - e.rondasFinalizadas >= 0
    && e.duracaoTotalMinutos == SumOf(periodo, DuracaoOr0)
    && e.duracaoTotalFormatada == FormatDuracao(e.duracaoTotalMinutos)
    && KeysUnique(e.porTurno) && KeysUnique(e.porData)
    && SumOf(e.porTurno, TotalOf) == e.totalRondas
    && SumOf(e.porTurno, DuracaoOf) == e.duracaoTotalMinutos
    && SumOf(e.porData, TotalOf) == e.totalRondas
    && SumOf(e.porData, DuracaoOf) == e.duracaoTotalMinutos
    && Keys(e.porTurno) == PairKeys(TurnoPairs(periodo))
    && Keys(e.porData) == PairKeys(DataPairs(periodo))
    && (forall g :: g in e.porTurno ==>
          g.total == KeyCount(TurnoPairs(periodo), g.key) && g.duracao == KeySum(TurnoPairs(periodo), g.key))
    && (forall g :: g in e.porData ==>
          g.total == KeyCount(DataPairs(periodo), g.key) && g.duracao == KeySum(DataPairs(periodo), g.key))
  }

  /**
   * `obter_estatisticas_rondas_esporadicas`: both dates are required (400);
   * a date strptime refuses raises and ends in a 500; otherwise the counters,
   * sums and groupings over the condominium's rondas of the period.
   */
  method ObterEstatisticas(rows: seq<Row>, condominioId: int, inicio: Option<string>, fim: Option<string>) returns (r: Result<Estatisticas>)
    requires ValidRows(rows)
    ensures !TruthyStr(inicio) || !TruthyStr(fim) <==> r == Err(HttpError(400, MSG_DATAS_OBRIGATORIAS))
    ensures (TruthyStr(inicio) && TruthyStr(fim)
         && (StrptimeIsoDate(inicio.value).None? || StrptimeIsoDate(fim.value).None?))
      <==> r.Err? && r.error.code == 500
    ensures r.Err? && r.error.code == 500 ==> StartsWith(r.error.message, MSG_ERRO_ESTATISTICAS)
    ensures r.Ok? <==>
      TruthyStr(inicio) && TruthyStr(fim)
      && StrptimeIsoDate(inicio.value).Some? && StrptimeIsoDate(fim.value).Some?
    ensures r.Ok? ==>
      Descreve(r.value, rows, condominioId, StrptimeIsoDate(inicio.value).value, StrptimeIsoDate(fim.value).value)
  {
    if !TruthyStr(inicio) || !TruthyStr(fim) {
      return Err(HttpError(400, MSG_DATAS_OBRIGATORIAS));
    }
    var pi, pf := StrptimeIsoDate(inicio.value), StrptimeIsoDate(fim.value);
    if pi.None? || pf.None? {
      return Err(HttpError(500, MSG_ERRO_ESTATISTICAS));
    }
    var e := Calcular(rows, condominioId, pi.value, pf.value);
    r := Ok(e);
  }

  /** The counting and grouping of `obter_estatisticas_rondas_esporadicas`, once both dates are parsed. */
  method Calcular(rows: seq<Row>, condominioId: int, di: Date, df: Date) returns (e: Estatisticas)
    requires ValidRows(rows) && ValidDate(di) && ValidDate(df)
    ensures Descreve(e, rows, condominioId, di, df)
  {
    var periodo := Filter(rows, (x: Row) => NoPeriodo(x, condominioId, di, df));
    assert forall x :: x in periodo ==> ValidDate(x.dataPlantao);
    var total := |periodo|;
    var finalizadas := CountIf(periodo, IsFinalizada);
    var duracaoTotal := SumOf(periodo, DuracaoOr0);
    var turnoPairs := TurnoPairs(periodo);
    var dataPairs := DataPairs(periodo);
    var turnos := GroupTotals(turnoPairs);
    var datas := GroupTotals(dataPairs);
    GroupedSums(turnoPairs);
    GroupedSums(dataPairs);
    GroupedEntries(turnoPairs);
    GroupedEntries(dataPairs);
    PairSums(periodo, turnoPairs, dataPairs);
    e := Estatisticas(Dias(di, df), total, finalizadas, total - finalizadas, duracaoTotal,
                      FormatDuracao(duracaoTotal), turnos, datas);
  }

  /** The durations carried by the (key, duration) pairs add up to the rondas' total duration. */
  lemma {:induction false} PairSums(rs: seq<Row>, turnoPairs: seq<(string, int)>, dataPairs: seq<(string, int)>)
    requires |turnoPairs| == |rs| && |dataPairs| == |rs|
    requires forall i :: 0 <= i < |rs| ==> turnoPairs[i].1 == DuracaoOr0(rs[i]) && dataPairs[i].1 == DuracaoOr0(rs[i])
    ensures SumOf(turnoPairs, PairDuracao) == SumOf(rs, DuracaoOr0)
    ensures SumOf(dataPairs, PairDuracao) == SumOf(rs, DuracaoOr0)
  {
    if |rs| > 0 {
      var n := |rs| - 1;
      PairSums(rs[..n], turnoPairs[..n], dataPairs[..n]);
    }
  }

  // ------------------------------------------------------------------
  // Request validation before the ronda service is called
  // ------------------------------------------------------------------

  /** JSON body of `iniciar`; None for a key that is absent. A missing body or an empty object is `None` at the call. */
  datatype IniciarPayload = IniciarPayload(
    condominioId: Option<int>,
    userId: Option<int>,
    dataPlantao: Option<string>,
    horaEntrada: Option<string>,
    escalaPlantao: Option<string>,
    supervisorId: Option<int>,
    observacoes: Option<string>)

  /** What `iniciar` hands to the ronda service once the body is valid. */
  datatype NovaRonda = NovaRonda(
    condominioId: int,
    userId: int,
    dataPlantao: Date,
    horaEntrada: int,
    escalaPlantao: string,
    supervisorId: Option<int>,
    observacoes: Option<string>)

  /** The checks of `iniciar_ronda_esporadica` before the service call. */
  function ValidarIniciar(body: Option<IniciarPayload>): (r: Result<NovaRonda>)
    ensures body.None? <==> r == Err(HttpError(400, MSG_SEM_DADOS))
    ensures body.Some? && !(TruthyInt(body.value.condominioId) && TruthyInt(body.value.userId)
         && TruthyStr(body.value.dataPlantao) && TruthyStr(body.value.horaEntrada) && TruthyStr(body.value.escalaPlantao))
      <==> r == Err(HttpError(400, MSG_CAMPOS_OBRIGATORIOS))
    ensures r.Ok? <==>
      (body.Some? && TruthyInt(body.value.condominioId) && TruthyInt(body.value.userId)
       && TruthyStr(body.value.dataPlantao) && TruthyStr(body.value.horaEntrada) && TruthyStr(body.value.escalaPlantao)
       && StrptimeIsoDate(body.value.dataPlantao.value).Some? && StrptimeHourMinute(body.value.horaEntrada.value).Some?)
    ensures r.Err? && r != Err(HttpError(400, MSG_SEM_DADOS)) && r != Err(HttpError(400, MSG_CAMPOS_OBRIGATORIOS))
      ==> r == Err(HttpError(400, MSG_FORMATO_DATA_HORA))
    ensures r.Ok? ==>
      (r.value.dataPlantao == StrptimeIsoDate(body.value.dataPlantao.value).value
       && r.value.horaEntrada == StrptimeHourMinute(body.value.horaEntrada.value).value
       && r.value.condominioId == body.value.condominioId.value
       && r.value.userId == body.value.userId.value
       && r.value.escalaPlantao == body.value.escalaPlantao.value
       && r.value.supervisorId == body.value.supervisorId
       && r.value.observacoes == body.value.observacoes)
  {
    if body.None? then Err(HttpError(400, MSG_SEM_DADOS))
    else
      var p := body.value;
      if !(TruthyInt(p.condominioId) && TruthyInt(p.userId) && TruthyStr(p.dataPlantao)
           && TruthyStr(p.horaEntrada) && TruthyStr(p.escalaPlantao))
      then Err(HttpError(400, MSG_CAMPOS_OBRIGATORIOS))
      else match (StrptimeIsoDate(p.dataPlantao.value), StrptimeHourMinute(p.horaEntrada.value))
        case (Some(d), Some(h)) =>
          Ok(NovaRonda(p.condominioId.value, p.userId.value, d, h, p.escalaPlantao.value, p.supervisorId, p.observacoes))
        case _ => Err(HttpError(400, MSG_FORMATO_DATA_HORA))
  }

  /**
   * The checks shared by `validar_horario` (for `hora_entrada`) and
   * `finalizar` (for `hora_saida`): the parsed minute of the day. `body` is
   * None when there is no body or it is an empty object, and `Some(field)`
   * otherwise.
   */
  function ValidarHora(body: Option<Option<string>>, obrigatoria: string): (r: Result<int>)
    requires obrigatoria == MSG_HORA_OBRIGATORIA || obrigatoria == MSG_SAIDA_OBRIGATORIA
    ensures body.None? <==> r == Err(HttpError(400, MSG_SEM_DADOS))
    ensures body.Some? && !TruthyStr(body.value) <==> r == Err(HttpError(400, obrigatoria))
    ensures r.Ok? <==> body.Some? && TruthyStr(body.value) && StrptimeHourMinute(body.value.value).Some?
    ensures r.Ok? ==> r.value == StrptimeHourMinute(body.value.value).value && 0 <= r.value < 1440
    ensures (body.Some? && TruthyStr(body.value) && StrptimeHourMinute(body.value.value).None?)
      ==> r == Err(HttpError(400, MSG_FORMATO_HORA))
  {
    if body.None? then Err(HttpError(400, MSG_SEM_DADOS))
    else if !TruthyStr(body.value) then Err(HttpError(400, obrigatoria))
    else match StrptimeHourMinute(body.value.value)
      case None => Err(HttpError(400, MSG_FORMATO_HORA))
      case Some(h) => Ok(h)
  }
}
