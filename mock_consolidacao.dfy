/**
 * The consolidation routes over the sporadic-patrol store: build the day's
 * consolidated report and its WhatsApp link, mark the day's rondas as
 * processed, and compute status and statistics counters.
 */
module MockConsolidacao {
  import opened Common
  import Calendar
  import opened MockRondaEsporadica

  const MSG_NENHUMA_RONDA := "Nenhuma ronda encontrada."
  const MSG_NADA_A_PROCESSAR := "Nenhuma ronda encontrada para processamento."
  const MSG_DATAS_OBRIGATORIAS := "Data início e fim são obrigatórias"
  const WHATSAPP_PREFIX := "https://wa.me/?text="

  // ------------------------------------------------------------------
  // The WhatsApp link
  // ------------------------------------------------------------------

  /** The text one character of the report becomes in the link. */
  function EncodeChar(c: char): string
  {
    if c == ' ' then "%20" else if c == '\n' then "%0A" else [c]
  }

  /**
   * `relatorio.replace(' ', '%20').replace('\n', '%0A')`. The first
   * replacement never writes a line break, so the two passes act as one
   * character-by-character substitution.
   */
  function UrlText(s: string): string
  {
    ConcatMap(s, EncodeChar)
  }

  /** The encoded text holds no space and no line break, and every other character survives. */
  lemma {:induction false} UrlTextIsBlankFree(s: string)
    ensures ' ' !in UrlText(s) && '\n' !in UrlText(s)
    ensures forall c :: c in s && c != ' ' && c != '\n' ==> c in UrlText(s)
  {
    if |s| > 0 {
      var init, last := s[..|s| - 1], s[|s| - 1];
      UrlTextIsBlankFree(init);
      assert UrlText(s) == UrlText(init) + EncodeChar(last);
      forall c | c in s && c != ' ' && c != '\n'
        ensures c in UrlText(s)
      {
        if c != last {
          var i :| 0 <= i < |s| && s[i] == c;
          assert init[i] == c;
        } else {
          assert EncodeChar(last) == [c];
        }
      }
    }
  }

  /** The link `consolidar_e_enviar` and `processo_completo` return. */
  function WhatsAppUrl(relatorio: string): string
  {
    WHATSAPP_PREFIX + UrlText(relatorio)
  }

  // ------------------------------------------------------------------
  // Marking as processed
  // ------------------------------------------------------------------

  /** A ronda after the marking loop: rondas of the day get `processada` and a new modification time. */
  function Mark(r: RondaEsporadica, condominioId: int, data: string, now: string): RondaEsporadica
  {
    if OfDay(r, condominioId, data) then r.(processada := true, dataModificacao := now) else r
  }

  /** The store after the marking loop. */
  function MarkDay(rs: seq<RondaEsporadica>, condominioId: int, data: string, now: string): (out: seq<RondaEsporadica>)
    ensures |out| == |rs|
    ensures forall i :: 0 <= i < |rs| ==> out[i] == Mark(rs[i], condominioId, data, now)
  {
    seq(|rs|, i requires 0 <= i < |rs| => Mark(rs[i], condominioId, data, now))
  }

  /** Marking sets `processada` on every ronda of the day and on no other, and touches nothing but the flag and the modification time. */
  lemma MarkDayEffect(rs: seq<RondaEsporadica>, condominioId: int, data: string, now: string)
    ensures forall i :: 0 <= i < |rs| ==>
      MarkDay(rs, condominioId, data, now)[i].processada == (OfDay(rs[i], condominioId, data) || rs[i].processada)
    ensures forall i :: 0 <= i < |rs| && !OfDay(rs[i], condominioId, data) ==> MarkDay(rs, condominioId, data, now)[i] == rs[i]
    ensures forall i :: 0 <= i < |rs| ==>
      MarkDay(rs, condominioId, data, now)[i].(processada := rs[i].processada, dataModificacao := rs[i].dataModificacao) == rs[i]
  {
  }

  /** Marking twice leaves every flag as the first marking left it: only the modification times move. */
  lemma MarkDayIdempotent(rs: seq<RondaEsporadica>, condominioId: int, data: string, now1: string, now2: string)
    ensures MarkDay(MarkDay(rs, condominioId, data, now1), condominioId, data, now2) == MarkDay(rs, condominioId, data, now2)
  {
    var once := MarkDay(rs, condominioId, data, now1);
    var twice := MarkDay(once, condominioId, data, now2);
    assert forall i :: 0 <= i < |rs| ==> twice[i] == MarkDay(rs, condominioId, data, now2)[i];
  }

  /** Marking keeps ids and statuses, so the store invariants survive it. */
  lemma MarkDayKeepsInvariants(rs: seq<RondaEsporadica>, condominioId: int, data: string, now: string)
    requires IdsArePositions(rs) && AtMostOneActive(rs)
    ensures IdsArePositions(MarkDay(rs, condominioId, data, now)) && AtMostOneActive(MarkDay(rs, condominioId, data, now))
  {
  }

  /** Marking keeps the rondas of the day the same in number, and all of them are then processed. */
  lemma MarkDayKeepsDay(rs: seq<RondaEsporadica>, condominioId: int, data: string, now: string)
    ensures |DoDia(MarkDay(rs, condominioId, data, now), condominioId, data)| == |DoDia(rs, condominioId, data)|
    ensures forall x :: x in DoDia(MarkDay(rs, condominioId, data, now), condominioId, data) ==> x.processada
  {
    var out := MarkDay(rs, condominioId, data, now);
    var doDia := (x: RondaEsporadica) => OfDay(x, condominioId, data);
    CountIfPointwise(out, rs, doDia, doDia);
    forall x | x in DoDia(out, condominioId, data)
      ensures x.processada
    {
      var i :| 0 <= i < |out| && out[i] == x;
    }
  }

  /** `marcar_rondas_processadas`: 404 when the day has no ronda, otherwise the marking loop over the store. */
  method MarcarProcessadas(store: RondaEsporadicaStore, condominioId: int, data: string, now: string) returns (r: Result<string>)
    requires store.Valid()
    modifies store
    ensures store.Valid()
    ensures DoDia(old(store.rondas), condominioId, data) == [] <==> r.Err?
    ensures r.Err? ==> r.error == HttpError(404, MSG_NENHUMA_RONDA) && store.rondas == old(store.rondas)
    ensures r.Ok? ==> store.rondas == MarkDay(old(store.rondas), condominioId, data, now)
  {
    if DoDia(store.rondas, condominioId, data) == [] {
      return Err(HttpError(404, MSG_NENHUMA_RONDA));
    }
    var i := 0;
    while i < |store.rondas|
      invariant 0 <= i <= |store.rondas| == |old(store.rondas)|
      invariant forall j :: 0 <= j < i ==> store.rondas[j] == Mark(old(store.rondas)[j], condominioId, data, now)
      invariant forall j :: i <= j < |store.rondas| ==> store.rondas[j] == old(store.rondas)[j]
    {
      var ronda := store.rondas[i];
      if ronda.condominioId == condominioId && ronda.dataPlantao == data {
        store.rondas := store.rondas[i := ronda.(processada := true, dataModificacao := now)];
      }
      i := i + 1;
    }
    assert store.rondas == MarkDay(old(store.rondas), condominioId, data, now);
    MarkDayKeepsInvariants(old(store.rondas), condominioId, data, now);
    r := Ok("Rondas marcadas como processadas com sucesso");
  }

  // ------------------------------------------------------------------
  // Consolidate and send; the complete process
  // ------------------------------------------------------------------

  /** Answer of `consolidar_e_enviar`; `processadas` is the count `processo_completo` adds. */
  datatype Envio = Envio(relatorio: string, totalRondas: nat, periodo: string, whatsappUrl: string, processadas: nat)

  /**
   * `consolidar_e_enviar_whatsapp`: the day's consolidated report and its
   * WhatsApp link. The method has no `modifies` clause: the store is left as it was.
   */
  method ConsolidarEEnviar(store: RondaEsporadicaStore, condominioId: int, data: string) returns (r: Result<Envio>)
    ensures DoDia(store.rondas, condominioId, data) == [] <==> r == Err(HttpError(404, MSG_NADA_A_CONSOLIDAR))
    ensures r.Ok? <==> DoDia(store.rondas, condominioId, data) != []
    ensures r.Ok? ==>
      (r.value.relatorio == ConsolidatedReport(condominioId, data, DoDia(store.rondas, condominioId, data))
       && r.value.totalRondas == |DoDia(store.rondas, condominioId, data)|
       && r.value.periodo == data
       && r.value.whatsappUrl == WhatsAppUrl(r.value.relatorio))
  {
    var doDia := store.ListarDoDia(condominioId, data);
    if doDia == [] {
      return Err(HttpError(404, MSG_NADA_A_CONSOLIDAR));
    }
    var relatorio := BuildConsolidatedReport(condominioId, data, doDia);
    r := Ok(Envio(relatorio, |doDia|, data, WhatsAppUrl(relatorio), 0));
  }

  /**
   * `processo_completo_consolidacao`: the report and link of the day, built
   * from the store as it was, then every ronda of the day marked as processed.
   */
  method ProcessoCompleto(store: RondaEsporadicaStore, condominioId: int, data: string, now: string) returns (r: Result<Envio>)
    requires store.Valid()
    modifies store
    ensures store.Valid()
    ensures DoDia(old(store.rondas), condominioId, data) == [] <==> r == Err(HttpError(404, MSG_NADA_A_PROCESSAR))
    ensures r.Ok? <==> DoDia(old(store.rondas), condominioId, data) != []
    ensures r.Err? ==> store.rondas == old(store.rondas)
    ensures r.Ok? ==>
      (r.value.relatorio == ConsolidatedReport(condominioId, data, DoDia(old(store.rondas), condominioId, data))
       && r.value.totalRondas == |DoDia(old(store.rondas), condominioId, data)|
       && r.value.processadas == r.value.totalRondas
       && r.value.periodo == data
       && r.value.whatsappUrl == WhatsAppUrl(r.value.relatorio)
       && store.rondas == MarkDay(old(store.rondas), condominioId, data, now)
       && |DoDia(store.rondas, condominioId, data)| == r.value.processadas
       && forall x :: x in DoDia(store.rondas, condominioId, data) ==> x.processada)
  {
    var doDia := store.ListarDoDia(condominioId, data);
    if doDia == [] {
      return Err(HttpError(404, MSG_NADA_A_PROCESSAR));
    }
    var relatorio := BuildConsolidatedReport(condominioId, data, doDia);
    var url := WhatsAppUrl(relatorio);
    var marcado := MarcarProcessadas(store, condominioId, data, now);
    MarkDayKeepsDay(old(store.rondas), condominioId, data, now);
    r := Ok(Envio(relatorio, |doDia|, data, url, |doDia|));
  }

  // ------------------------------------------------------------------
  // Status and statistics
  // ------------------------------------------------------------------

  predicate IsFinalizada(r: RondaEsporadica) { r.status == FINALIZADA }

  predicate IsProcessada(r: RondaEsporadica) { r.processada }

  /** The counters and flags of `status_consolidacao`. */
  datatype StatusInfo = StatusInfo(
    totalRondas: nat,
    rondasFinalizadas: nat,
    rondasProcessadas: nat,
    rondasEmAndamento: nat,
    podeConsolidar: bool,
    podeProcessar: bool,
    data: string,
    condominioId: int)

  /** The status computed from the rondas of one day. */
  function StatusOf(doDia: seq<RondaEsporadica>, condominioId: int, data: string): (s: StatusInfo)
    ensures s.totalRondas == |doDia|
    ensures s.rondasFinalizadas == CountIf(doDia, IsFinalizada)
    ensures s.rondasProcessadas == CountIf(doDia, IsProcessada)
    ensures s.rondasEmAndamento == CountIf(doDia, IsActive)
    ensures s.rondasFinalizadas + s.rondasEmAndamento <= s.totalRondas
    ensures s.rondasProcessadas <= s.totalRondas
    ensures s.data == data && s.condominioId == condominioId
    ensures s.podeConsolidar <==> s.rondasFinalizadas > 0
    ensures s.podeConsolidar <==> exists x :: x in doDia && IsFinalizada(x)
    ensures s.podeProcessar <==> exists x :: x in doDia && IsFinalizada(x) && !x.processada
  {
    var finalizadas := CountIf(doDia, IsFinalizada);
    var processadas := CountIf(doDia, IsProcessada);
    var emAndamento := CountIf(doDia, IsActive);
    var listaFinalizadas := Filter(doDia, IsFinalizada);
    CountIfDisjoint(doDia, IsFinalizada, IsActive);
    CountIfPositive(doDia, IsFinalizada);
    StatusPodeProcessar(doDia);
    StatusInfo(|doDia|, finalizadas, processadas, emAndamento, finalizadas > 0,
               finalizadas > 0 && !(forall x :: x in listaFinalizadas ==> x.processada),
               data, condominioId)
  }

  /** `not all(r['processada'] for r in finalizadas)` is "some finished ronda is not processed". */
  lemma StatusPodeProcessar(doDia: seq<RondaEsporadica>)
    ensures !(forall x :: x in Filter(doDia, IsFinalizada) ==> x.processada)
        <==> exists x :: x in doDia && IsFinalizada(x) && !x.processada
  {
    if exists x :: x in doDia && IsFinalizada(x) && !x.processada {
      var x :| x in doDia && IsFinalizada(x) && !x.processada;
      FilterKeeps(doDia, IsFinalizada, x);
    }
  }

  /** `status_consolidacao`: 404 when the day has no ronda, otherwise the counters of the day. */
  function StatusConsolidacao(rs: seq<RondaEsporadica>, condominioId: int, data: string): (r: Result<StatusInfo>)
    ensures DoDia(rs, condominioId, data) == [] <==> r == Err(HttpError(404, MSG_NENHUMA_RONDA))
    ensures r.Ok? <==> DoDia(rs, condominioId, data) != []
    ensures r.Ok? ==> r.value == StatusOf(DoDia(rs, condominioId, data), condominioId, data)
  {
    var doDia := DoDia(rs, condominioId, data);
    if doDia == [] then Err(HttpError(404, MSG_NENHUMA_RONDA))
    else Ok(StatusOf(doDia, condominioId, data))
  }

  /** The statistics of a period; the two floating-point rates are not part of this record. */
  datatype Estatisticas = Estatisticas(totalRondas: nat, rondasFinalizadas: nat, rondasProcessadas: nat, periodo: string)

  /** The condominium's rondas whose date string lies between the two bounds by Python string comparison. */
  predicate InPeriod(r: RondaEsporadica, condominioId: int, inicio: string, fim: string)
  {
    r.condominioId == condominioId && LexLeq(inicio, r.dataPlantao) && LexLeq(r.dataPlantao, fim)
  }

  function NoPeriodo(rs: seq<RondaEsporadica>, condominioId: int, inicio: string, fim: string): seq<RondaEsporadica>
  {
    Filter(rs, (x: RondaEsporadica) => InPeriod(x, condominioId, inicio, fim))
  }

  /** `obter_estatisticas_consolidacao`: both dates are required; the counters are over the rondas of the period. */
  function ObterEstatisticas(rs: seq<RondaEsporadica>, condominioId: int, inicio: Option<string>, fim: Option<string>): (r: Result<Estatisticas>)
    ensures !TruthyStr(inicio) || !TruthyStr(fim) <==> r == Err(HttpError(400, MSG_DATAS_OBRIGATORIAS))
    ensures r.Ok? <==> TruthyStr(inicio) && TruthyStr(fim)
    ensures r.Ok? ==>
      (r.value.totalRondas == |NoPeriodo(rs, condominioId, inicio.value, fim.value)|
       && r.value.rondasFinalizadas == CountIf(NoPeriodo(rs, condominioId, inicio.value, fim.value), IsFinalizada)
       && r.value.rondasProcessadas == CountIf(NoPeriodo(rs, condominioId, inicio.value, fim.value), IsProcessada)
       && r.value.rondasFinalizadas <= r.value.totalRondas
       && r.value.rondasProcessadas <= r.value.totalRondas
       && r.value.periodo == inicio.value + " a " + fim.value)
  {
    if !TruthyStr(inicio) || !TruthyStr(fim) then Err(HttpError(400, MSG_DATAS_OBRIGATORIAS))
    else
      var periodo := NoPeriodo(rs, condominioId, inicio.value, fim.value);
      Ok(Estatisticas(|periodo|, CountIf(periodo, IsFinalizada),
                      CountIf(periodo, IsProcessada),
                      inicio.value + " a " + fim.value))
  }

  /** When the bounds and the ronda's date are all written "%Y-%m-%d", the string test is the calendar test. */
  lemma InPeriodIsoDates(r: RondaEsporadica, condominioId: int, inicio: Calendar.Date, fim: Calendar.Date, d: Calendar.Date)
    requires Calendar.ValidDate(inicio) && Calendar.ValidDate(fim) && Calendar.ValidDate(d)
    requires r.dataPlantao == Calendar.FormatIso(d)
    ensures InPeriod(r, condominioId, Calendar.FormatIso(inicio), Calendar.FormatIso(fim))
        <==> r.condominioId == condominioId && Calendar.DateLeq(inicio, d) && Calendar.DateLeq(d, fim)
  {
    Calendar.IsoOrderIsDateOrder(inicio, d);
    Calendar.IsoOrderIsDateOrder(d, fim);
  }

  /** A date written without zero padding falls outside the string range: "2024-9-15" does not sort before "2024-09-30". */
  lemma UnpaddedDateOutOfRange()
    ensures !LexLeq("2024-9-15", "2024-09-30")
  {
    assert "2024-9-15"[1..] == "024-9-15" && "2024-09-30"[1..] == "024-09-30";
    assert "024-9-15"[1..] == "24-9-15" && "024-09-30"[1..] == "24-09-30";
    assert "24-9-15"[1..] == "4-9-15" && "24-09-30"[1..] == "4-09-30";
    assert "4-9-15"[1..] == "-9-15" && "4-09-30"[1..] == "-09-30";
    assert "-9-15"[1..] == "9-15" && "-09-30"[1..] == "09-30";
  }
}
