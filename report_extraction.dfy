/**
 * The field extraction both occurrence-report analysers share: the text is
 * cleaned (non-breaking spaces to spaces, then stripped), then searched for
 * "Data: dd/mm/yyyy", "Hora: HH:MM", "Local: ..." and "Responsável pelo
 * registro: ..." with Python's leftmost-match `re.search`, and the date and
 * hour are read back with strptime and rewritten as "YYYY-MM-DDTHH:MM".
 */
module ReportExtraction {
  import opened Common
  import opened Calendar

  const NBSP: char := '\U{A0}'

  const ROTULO_DATA := "Data:"
  const ROTULO_HORA := "Hora:"
  const ROTULO_LOCAL := "Local:"
  const ROTULO_RESPONSAVEL := "Responsável pelo registro:"

  const NOTURNO := "Noturno"
  const DIURNO := "Diurno"

  // ------------------------------------------------------------------
  // Cleaning
  // ------------------------------------------------------------------

  /** `texto.replace("\xa0", " ")`. */
  function ReplaceNbsp(s: string): (r: string)
    ensures |r| == |s|
    ensures forall i :: 0 <= i < |s| ==> r[i] == (if s[i] == NBSP then ' ' else s[i])
  {
    if |s| == 0 then "" else [if s[0] == NBSP then ' ' else s[0]] + ReplaceNbsp(s[1..])
  }

  /** `texto.replace("\xa0", " ").strip()`. */
  function CleanText(s: string): (r: string)
    ensures r == Strip(ReplaceNbsp(s))
    ensures NBSP !in r
    ensures |r| > 0 ==> !IsSpace(r[0]) && !IsSpace(r[|r| - 1])
    ensures |r| == 0 <==> AllSpace(s)
  {
    var t := ReplaceNbsp(s);
    CleanTextFacts(s);
    var r := Strip(t);
    assert |r| == 0 <==> AllSpace(s);
    r
  }

  predicate NotNbsp(c: char) { c != NBSP }

  /** Replacing non-breaking spaces keeps what is blank, and none survives the strip. */
  lemma CleanTextFacts(s: string)
    ensures AllSpace(ReplaceNbsp(s)) <==> AllSpace(s)
    ensures NBSP !in Strip(ReplaceNbsp(s))
  {
    var t := ReplaceNbsp(s);
    assert forall i :: 0 <= i < |s| ==> (IsSpace(t[i]) <==> IsSpace(s[i]));
    assert forall i :: 0 <= i < |t| ==> NotNbsp(t[i]);
    StripKeeps(t, NotNbsp);
    var r := Strip(t);
    assert forall i :: 0 <= i < |r| ==> r[i] != NBSP;
  }

  // ------------------------------------------------------------------
  // re.search
  // ------------------------------------------------------------------

  /**
   * The leftmost match from position `i` on: the first position where the
   * pattern `m` matches, with what its group captured.
   */
  function SearchFrom(t: string, i: nat, m: (string, nat) -> Option<string>): (r: Option<(nat, string)>)
    decreases |t| + 1 - i
    ensures r.Some? ==> i <= r.value.0 <= |t| && m(t, r.value.0) == Some(r.value.1)
    ensures r.Some? ==> forall k :: i <= k < r.value.0 ==> m(t, k).None?
    ensures r.None? ==> forall k :: i <= k <= |t| ==> m(t, k).None?
  {
    if i > |t| then None
    else match m(t, i)
      case Some(g) => Some((i, g))
      case None => SearchFrom(t, i + 1, m)
  }

  /** `re.search(pattern, t).group(1)`, or None when nothing matches. */
  function Search(t: string, m: (string, nat) -> Option<string>): Option<string>
  {
    match SearchFrom(t, 0, m)
    case Some((_, g)) => Some(g)
    case None => None
  }

  /** Where the pattern matches first, its capture is what `Search` returns. */
  lemma {:induction false} SearchFindsFirst(t: string, m: (string, nat) -> Option<string>, j: nat, i: nat)
    requires i <= j <= |t| && m(t, j).Some?
    requires forall k :: i <= k < j ==> m(t, k).None?
    ensures SearchFrom(t, i, m) == Some((j, m(t, j).value))
    decreases j - i
  {
    if i < j {
      SearchFindsFirst(t, m, j, i + 1);
    }
  }

  /** The first position at or after `p` that is not whitespace, or |t|: where a greedy `\s*` stops. */
  function SkipSpace(t: string, p: nat): (q: nat)
    requires p <= |t|
    decreases |t| - p
    ensures p <= q <= |t|
    ensures forall k :: p <= k < q ==> IsSpace(t[k])
    ensures q < |t| ==> !IsSpace(t[q])
  {
    if p < |t| && IsSpace(t[p]) then SkipSpace(t, p + 1) else p
  }

  /** Where `rotulo` followed by `\s*` leaves the scan, when `rotulo` occurs at `k`. */
  function AfterLabel(t: string, k: nat, rotulo: string): (q: Option<nat>)
    ensures q.Some? ==> k + |rotulo| <= q.value <= |t|
  {
    if k <= |t| && StartsWith(t[k..], rotulo) then Some(SkipSpace(t, k + |rotulo|)) else None
  }

  /**
   * `Data:\s*(\d{2}/\d{2}/\d{4})` at `k`. Whitespace and digits are disjoint,
   * so the greedy `\s*` never gives anything back.
   */
  function MatchData(t: string, k: nat): (g: Option<string>)
    ensures g.Some? <==>
      (AfterLabel(t, k, ROTULO_DATA).Some? && AfterLabel(t, k, ROTULO_DATA).value + 10 <= |t|
       && DataShape(t[AfterLabel(t, k, ROTULO_DATA).value..AfterLabel(t, k, ROTULO_DATA).value + 10]))
    ensures g.Some? ==>
      g.value == t[AfterLabel(t, k, ROTULO_DATA).value..AfterLabel(t, k, ROTULO_DATA).value + 10]
  {
    match AfterLabel(t, k, ROTULO_DATA)
    case None => None
    case Some(p) =>
      if p + 10 <= |t| && DataShape(t[p..p + 10]) then Some(t[p..p + 10]) else None
  }

  /** `Hora:\s*(\d{2}:\d{2})` at `k`. */
  function MatchHora(t: string, k: nat): (g: Option<string>)
    ensures g.Some? <==>
      (AfterLabel(t, k, ROTULO_HORA).Some? && AfterLabel(t, k, ROTULO_HORA).value + 5 <= |t|
       && HoraShape(t[AfterLabel(t, k, ROTULO_HORA).value..AfterLabel(t, k, ROTULO_HORA).value + 5]))
    ensures g.Some? ==>
      g.value == t[AfterLabel(t, k, ROTULO_HORA).value..AfterLabel(t, k, ROTULO_HORA).value + 5]
  {
    match AfterLabel(t, k, ROTULO_HORA)
    case None => None
    case Some(p) =>
      if p + 5 <= |t| && HoraShape(t[p..p + 5]) then Some(t[p..p + 5]) else None
  }

  /** The end of the run of characters outside `stop` that starts at `j`. */
  function RunEnd(t: string, j: nat, stop: char -> bool): (e: nat)
    requires j <= |t|
    decreases |t| - j
    ensures j <= e <= |t|
    ensures forall k :: j <= k < e ==> !stop(t[k])
    ensures e < |t| ==> stop(t[e])
  {
    if j < |t| && !stop(t[j]) then RunEnd(t, j + 1, stop) else j
  }

  /** The largest position in [lo, hi] holding a character outside `stop`. */
  function LastOutside(t: string, lo: nat, hi: int, stop: char -> bool): (j: Option<nat>)
    requires hi < |t|
    decreases hi - lo + 1
    ensures j.Some? ==> lo <= j.value <= hi && !stop(t[j.value])
    ensures j.Some? ==> forall k :: j.value < k <= hi ==> stop(t[k])
    ensures j.None? ==> forall k :: lo <= k <= hi ==> stop(t[k])
  {
    if hi < lo then None
    else if !stop(t[hi]) then Some(hi)
    else LastOutside(t, lo, hi - 1, stop)
  }

  /**
   * `rotulo\s*([^stop]+)` at `k`. The greedy `\s*` first stops at the first
   * non-space; when no run can start there, it gives back one whitespace
   * character at a time, so the group starts at the last position of the
   * whitespace stretch (or its end) that holds a character outside `stop`.
   */
  function MatchRun(t: string, k: nat, rotulo: string, stop: char -> bool): (g: Option<string>)
    ensures g.Some? ==> |g.value| > 0 && forall i :: 0 <= i < |g.value| ==> !stop(g.value[i])
    ensures g.Some? <==>
      (AfterLabel(t, k, rotulo).Some?
       && exists j :: k + |rotulo| <= j <= AfterLabel(t, k, rotulo).value && j < |t| && !stop(t[j]))
    ensures g.Some? ==> GroupFound(t, k + |rotulo|, AfterLabel(t, k, rotulo).value, g.value, stop)
  {
    match AfterLabel(t, k, rotulo)
    case None => None
    case Some(p) =>
      var s := k + |rotulo|;
      match LastOutside(t, s, if p < |t| then p else |t| - 1, stop)
      case None => None
      case Some(j) =>
        var e := RunEnd(t, j, stop);
        assert forall i :: 0 <= i < e - j ==> t[j..e][i] == t[j + i];
        assert GroupAt(t, s, p, j, t[j..e], stop);
        Some(t[j..e])
  }

  /**
   * What `\s*([^stop]+)` means when the scan after the rotulo starts at `s`
   * and a greedy `\s*` alone would stop at `p`: the group `g` starts at `j`,
   * after whitespace only; it is the whole run of characters outside `stop`
   * from there; and no later start inside the whitespace stretch exists, so
   * the backtracking `\s*` gives back as little as it can.
   */
  ghost predicate GroupFound(t: string, s: nat, p: nat, g: string, stop: char -> bool)
  {
    exists j :: GroupAt(t, s, p, j, g, stop)
  }

  ghost predicate GroupAt(t: string, s: nat, p: nat, j: nat, g: string, stop: char -> bool)
  {
    s <= j <= p && j + |g| <= |t| && g == t[j..j + |g|]
    && (forall i :: s <= i < j ==> IsSpace(t[i]))
    && (j + |g| == |t| || stop(t[j + |g|]))
    && (forall i :: j < i <= p && i < |t| ==> stop(t[i]))
  }

  predicate IsLineBreak(c: char) { c == '\n' || c == '\r' }

  predicate IsNameStop(c: char) { c == '\n' || c == '\r' || c == '(' }

  function MatchLocal(t: string, k: nat): Option<string> { MatchRun(t, k, ROTULO_LOCAL, IsLineBreak) }

  function MatchResponsavel(t: string, k: nat): Option<string> { MatchRun(t, k, ROTULO_RESPONSAVEL, IsNameStop) }

  // ------------------------------------------------------------------
  // Date and hour
  // ------------------------------------------------------------------

  /** The hour of a minute of the day that starts a night shift: "Noturno" from 18h to 05h59. */
  function Turno(hour: int): string
  {
    if 18 <= hour || hour < 6 then NOTURNO else DIURNO
  }

  /** The shape of the date group: dd/mm/yyyy in ASCII digits. */
  predicate DataShape(s: string)
  {
    |s| == 10 && s[2] == '/' && s[5] == '/' && AllDigits(s[..2]) && AllDigits(s[3..5]) && AllDigits(s[6..])
  }

  /** The shape of the hour group: HH:MM in ASCII digits. */
  predicate HoraShape(s: string)
  {
    |s| == 5 && s[2] == ':' && AllDigits(s[..2]) && AllDigits(s[3..])
  }

  /**
   * `datetime.strptime(f"{data_str} {hora_str}", "%d/%m/%Y %H:%M")` on the
   * two captured groups, which always have the shapes above: the day, month,
   * hour and minute patterns of strptime only accept two-digit values 01-31,
   * 01-12, 00-23 and 00-59, and the datetime constructor refuses year 0 and
   * a day past the end of the month. The result is the date and the minute
   * of the day; what strptime reads is exactly what was written.
   */
  function ParseDataHora(data: string, hora: string): (r: Option<(Date, int)>)
    ensures r.Some? ==> ValidDate(r.value.0) && 0 <= r.value.1 < 1440
    ensures r.Some? ==> FormatBr(r.value.0) == data && FormatHourMinute(r.value.1) == hora
  {
    if !DataShape(data) || !HoraShape(hora) then None
    else
      var d := Date(DigitsValue(data[6..]), DigitsValue(data[3..5]), DigitsValue(data[..2]));
      var h, m := DigitsValue(hora[..2]), DigitsValue(hora[3..]);
      if ValidDate(d) && h < 24 && m < 60 then
        FourDigitsPad(data[6..]);
        TwoDigitsPad(data[3..5]);
        TwoDigitsPad(data[..2]);
        TwoDigitsPad(hora[..2]);
        TwoDigitsPad(hora[3..]);
        assert data == data[..2] + "/" + data[3..5] + "/" + data[6..];
        assert hora == hora[..2] + ":" + hora[3..];
        assert (h * 60 + m) / 60 == h && (h * 60 + m) % 60 == m;
        Some((d, h * 60 + m))
      else None
  }

  lemma TwoDigitsPad(s: string)
    requires |s| == 2 && AllDigits(s)
    ensures DigitsValue(s) < 100 && Pad2(DigitsValue(s)) == s
  {
    DigitsValuePair(s);
    assert DigitValue(s[0]) * 10 + DigitValue(s[1]) < 100;
    var p := Pad2(DigitsValue(s));
    DigitsValuePair(p);
    assert DigitValue(p[0]) * 10 + DigitValue(p[1]) == DigitValue(s[0]) * 10 + DigitValue(s[1]);
    DigitCharValue(p[0]);
    DigitCharValue(p[1]);
    DigitCharValue(s[0]);
    DigitCharValue(s[1]);
  }

  lemma DigitCharValue(c: char)
    requires IsDigit(c)
    ensures DigitValue(c) < 10 && DigitChar(DigitValue(c)) == c
  {
  }

  lemma FourDigitsPad(s: string)
    requires |s| == 4 && AllDigits(s)
    ensures DigitsValue(s) < 10000 && Pad4(DigitsValue(s)) == s
  {
    var hi, lo := s[..2], s[2..];
    TwoDigitsPad(hi);
    TwoDigitsPad(lo);
    assert s == (hi + [lo[0]]) + [lo[1]];
    DigitsValueSnoc(hi, lo[0]);
    DigitsValueSnoc(hi + [lo[0]], lo[1]);
    DigitsValuePair(lo);
    var n := DigitsValue(s);
    assert n == DigitsValue(hi) * 100 + DigitsValue(lo);
    assert n / 100 == DigitsValue(hi) && n % 100 == DigitsValue(lo);
  }

  /** `strftime("%Y-%m-%dT%H:%M")`. */
  function FormatDataHora(d: Date, minute: int): (s: string)
    requires ValidDate(d) && 0 <= minute < 1440
    ensures |s| == 16 && s[10] == 'T'
  {
    FormatIso(d) + "T" + FormatHourMinute(minute)
  }

  /** What the date/hour step adds: the ISO date and time and the turno, both or neither. */
  datatype DataHora = DataHora(dataHoraOcorrencia: string, turno: string)

  /**
   * Step 1 of both analysers: both fields must be found and form a real date
   * and time, otherwise nothing is extracted.
   */
  function ExtrairDataHora(t: string): (r: Option<DataHora>)
    ensures r.Some? <==> Search(t, MatchData).Some? && Search(t, MatchHora).Some?
                         && ParseDataHora(Search(t, MatchData).value, Search(t, MatchHora).value).Some?
    ensures r.Some? ==>
      (var (d, minute) := ParseDataHora(Search(t, MatchData).value, Search(t, MatchHora).value).value;
       r.value.dataHoraOcorrencia == FormatDataHora(d, minute)
       && (r.value.turno == NOTURNO <==> minute < 6 * 60 || 18 * 60 <= minute)
       && (r.value.turno == DIURNO <==> 6 * 60 <= minute < 18 * 60))
  {
    match (Search(t, MatchData), Search(t, MatchHora))
    case (Some(data), Some(hora)) =>
      (match ParseDataHora(data, hora)
       case Some((d, minute)) => Some(DataHora(FormatDataHora(d, minute), Turno(minute / 60)))
       case None => None)
    case _ => None
  }

  /** The turno rule: the night shift is 18h to 05h59, the day shift 06h to 17h59. */
  lemma TurnoSplitsTheDay(minute: int)
    requires 0 <= minute < 1440
    ensures Turno(minute / 60) == NOTURNO <==> minute < 6 * 60 || 18 * 60 <= minute
    ensures Turno(minute / 60) == DIURNO <==> !(minute < 6 * 60 || 18 * 60 <= minute)
  {
  }

  /**
   * A report written as "Data: dd/mm/yyyy" on its first line and
   * "Hora: HH:MM" on the second yields that date and time, rewritten.
   */
  lemma ExtrairDataHoraRoundTrip(d: Date, minute: int)
    requires ValidDate(d) && 0 <= minute < 1440
    ensures ExtrairDataHora("Data: " + FormatBr(d) + "\nHora: " + FormatHourMinute(minute))
         == Some(DataHora(FormatDataHora(d, minute), Turno(minute / 60)))
  {
    var br, hm := FormatBr(d), FormatHourMinute(minute);
    var t := "Data: " + br + "\nHora: " + hm;
    SearchDataFirstLine(t, d, minute);
    SearchHoraSecondLine(t, d, minute);
    ParseFormatted(d, minute);
    ExtrairDataHoraOf(t, br, hm, d, minute);
  }

  /** Both groups found and read as a date and a minute give those, rewritten, and their turno. */
  lemma ExtrairDataHoraOf(t: string, data: string, hora: string, d: Date, minute: int)
    requires Search(t, MatchData) == Some(data) && Search(t, MatchHora) == Some(hora)
    requires ParseDataHora(data, hora) == Some((d, minute))
    ensures ExtrairDataHora(t) == Some(DataHora(FormatDataHora(d, minute), Turno(minute / 60)))
  {
  }

  /** In the two-line report the date group is found at the start. */
  lemma SearchDataFirstLine(t: string, d: Date, minute: int)
    requires ValidDate(d) && 0 <= minute < 1440
    requires t == "Data: " + FormatBr(d) + "\nHora: " + FormatHourMinute(minute)
    ensures Search(t, MatchData) == Some(FormatBr(d))
  {
    var br := FormatBr(d);
    assert |t| == 28;
    assert t[0..5] == ROTULO_DATA;
    assert SkipSpace(t, 6) == 6;
    assert SkipSpace(t, 5) == 6;
    assert t[6..16] == br;
    BrShape(d);
    assert MatchData(t, 0) == Some(br);
    SearchFindsFirst(t, MatchData, 0, 0);
  }

  /** In the two-line report the hour group is found on the second line: no 'H' comes before it. */
  lemma SearchHoraSecondLine(t: string, d: Date, minute: int)
    requires ValidDate(d) && 0 <= minute < 1440
    requires t == "Data: " + FormatBr(d) + "\nHora: " + FormatHourMinute(minute)
    ensures Search(t, MatchHora) == Some(FormatHourMinute(minute))
  {
    var br, hm := FormatBr(d), FormatHourMinute(minute);
    assert |t| == 28;
    assert t[17..22] == ROTULO_HORA;
    assert SkipSpace(t, 23) == 23;
    assert SkipSpace(t, 22) == 23;
    assert t[23..28] == hm;
    HmShape(minute);
    assert MatchHora(t, 17) == Some(hm);
    BrShape(d);
    forall k | 0 <= k < 17
      ensures MatchHora(t, k).None?
    {
      assert t[k] != 'H';
      assert !StartsWith(t[k..], ROTULO_HORA) by {
        assert t[k..][0] == t[k];
      }
    }
    SearchFindsFirst(t, MatchHora, 17, 0);
  }

  lemma BrShape(d: Date)
    requires ValidDate(d)
    ensures var s := FormatBr(d);
      s[2] == '/' && s[5] == '/' && forall k :: 0 <= k < 10 && k != 2 && k != 5 ==> IsDigit(s[k])
  {
    var a, b, c := Pad2(d.day), Pad2(d.month), Pad4(d.year);
    var s := FormatBr(d);
    assert s == a + "/" + b + "/" + c;
    assert forall k :: 0 <= k < 2 ==> s[k] == a[k];
    assert forall k :: 3 <= k < 5 ==> s[k] == b[k - 3];
    assert forall k :: 6 <= k < 10 ==> s[k] == c[k - 6];
  }

  lemma HmShape(minute: int)
    requires 0 <= minute < 1440
    ensures var s := FormatHourMinute(minute);
      s[2] == ':' && IsDigit(s[0]) && IsDigit(s[1]) && IsDigit(s[3]) && IsDigit(s[4])
  {
    var a, b := Pad2(minute / 60), Pad2(minute % 60);
    assert FormatHourMinute(minute) == a + ":" + b;
  }

  /** strptime reads back exactly the date and minute that were written. */
  lemma ParseFormatted(d: Date, minute: int)
    requires ValidDate(d) && 0 <= minute < 1440
    ensures ParseDataHora(FormatBr(d), FormatHourMinute(minute)) == Some((d, minute))
  {
    var a, b, c := Pad2(d.day), Pad2(d.month), Pad4(d.year);
    var br := FormatBr(d);
    assert br == a + "/" + b + "/" + c;
    assert br[..2] == a && br[3..5] == b && br[6..] == c;
    var h, m := Pad2(minute / 60), Pad2(minute % 60);
    var hm := FormatHourMinute(minute);
    assert hm == h + ":" + m;
    assert hm[..2] == h && hm[3..] == m;
    ParseDataHoraOf(br, hm, d, minute);
  }

  /** Groups of the right shapes whose digits write a real date and a time of day are read as them. */
  lemma ParseDataHoraOf(data: string, hora: string, d: Date, minute: int)
    requires DataShape(data) && HoraShape(hora)
    requires d == Date(DigitsValue(data[6..]), DigitsValue(data[3..5]), DigitsValue(data[..2])) && ValidDate(d)
    requires DigitsValue(hora[..2]) < 24 && DigitsValue(hora[3..]) < 60
    requires minute == DigitsValue(hora[..2]) * 60 + DigitsValue(hora[3..])
    ensures ParseDataHora(data, hora) == Some((d, minute))
  {
  }

  // ------------------------------------------------------------------
  // Local and condominium
  // ------------------------------------------------------------------

  /** A condominium as the analysers read it: id and name. */
  datatype Condominio = Condominio(id: int, nome: string)

  /** `match_local.group(1).strip()`: the address after "Local:", up to the end of its line. */
  function ExtrairLocal(t: string): (r: Option<string>)
    ensures r.Some? ==> forall i :: 0 <= i < |r.value| ==> !IsLineBreak(r.value[i])
    ensures r.Some? ==> |r.value| > 0 ==> !IsSpace(r.value[0]) && !IsSpace(r.value[|r.value| - 1])
    ensures r.Some? <==> Search(t, MatchLocal).Some?
    ensures r.Some? ==> r.value == Strip(Search(t, MatchLocal).value)
  {
    match Search(t, MatchLocal)
    case None => None
    case Some(g) =>
      var nl := (c: char) => !IsLineBreak(c);
      assert forall i :: 0 <= i < |g| ==> nl(g[i]);
      StripKeeps(g, nl);
      Some(Strip(g))
  }

  /** The first condominium whose lower-cased name occurs in the lower-cased address. */
  function CondominioDoEndereco(condominios: seq<Condominio>, endereco: string): (r: Option<int>)
    ensures r.Some? <==> exists c :: c in condominios && IsSubstring(Lower(c.nome), Lower(endereco))
    ensures r.Some? ==> exists i :: 0 <= i < |condominios| && condominios[i].id == r.value
                                && IsSubstring(Lower(condominios[i].nome), Lower(endereco))
                                && forall k :: 0 <= k < i ==> !IsSubstring(Lower(condominios[k].nome), Lower(endereco))
  {
    var p := (c: Condominio) => IsSubstring(Lower(c.nome), Lower(endereco));
    match FirstWhere(condominios, p)
    case None =>
      assert forall c :: c in condominios ==> !p(c) by {
        forall c | c in condominios ensures !p(c) {
          var i :| 0 <= i < |condominios| && condominios[i] == c;
        }
      }
      None
    case Some(i) =>
      assert condominios[i] in condominios;
      Some(condominios[i].id)
  }

  /**
   * A report whose "Local:" line is `rotulo + " " + endereco` yields that
   * address when the address is already stripped and the line ends it.
   */
  lemma ExtrairLocalRoundTrip(endereco: string, resto: string)
    requires |endereco| > 0 && !IsSpace(endereco[0]) && !IsSpace(endereco[|endereco| - 1])
    requires forall i :: 0 <= i < |endereco| ==> !IsLineBreak(endereco[i])
    requires |resto| == 0 || IsLineBreak(resto[0])
    ensures ExtrairLocal(ROTULO_LOCAL + " " + endereco + resto) == Some(endereco)
  {
    var t := ROTULO_LOCAL + " " + endereco + resto;
    assert t[0..6] == ROTULO_LOCAL;
    assert t[6] == ' ';
    assert t[7] == endereco[0];
    assert SkipSpace(t, 7) == 7;
    assert SkipSpace(t, 6) == 7;
    assert LastOutside(t, 6, 7, IsLineBreak) == Some(7);
    assert forall i :: 0 <= i < |endereco| ==> t[7 + i] == endereco[i];
    RunEndAt(t, 7, |endereco|, IsLineBreak);
    assert t[7..7 + |endereco|] == endereco;
    assert MatchLocal(t, 0) == Some(endereco);
    SearchFindsFirst(t, MatchLocal, 0, 0);
    StripUnchanged(endereco);
  }

  lemma {:induction false} RunEndAt(t: string, j: nat, n: nat, stop: char -> bool)
    requires j + n <= |t|
    requires forall i :: j <= i < j + n ==> !stop(t[i])
    requires j + n == |t| || stop(t[j + n])
    ensures RunEnd(t, j, stop) == j + n
    decreases n
  {
    if n > 0 {
      RunEndAt(t, j + 1, n - 1, stop);
    }
  }

  /** `match_responsavel.group(1).strip()`: the name after the rotulo, up to a line break or "(". */
  function ExtrairResponsavel(t: string): (r: Option<string>)
    ensures r.Some? ==> forall i :: 0 <= i < |r.value| ==> !IsNameStop(r.value[i])
    ensures r.Some? <==> Search(t, MatchResponsavel).Some?
    ensures r.Some? ==> r.value == Strip(Search(t, MatchResponsavel).value)
  {
    match Search(t, MatchResponsavel)
    case None => None
    case Some(g) =>
      var nome := (c: char) => !IsNameStop(c);
      assert forall i :: 0 <= i < |g| ==> nome(g[i]);
      StripKeeps(g, nome);
      Some(Strip(g))
  }

  /**
   * When the name is followed by "(" right after the rotulo's space, `\s*`
   * gives the space back and the group is that one space: the stripped name
   * is empty.
   */
  lemma ResponsavelSpaceBeforeParenthesis(resto: string)
    ensures ExtrairResponsavel(ROTULO_RESPONSAVEL + " (" + resto) == Some("")
  {
    var t := ROTULO_RESPONSAVEL + " (" + resto;
    var n := |ROTULO_RESPONSAVEL|;
    assert n == 26;
    assert t[..n] == ROTULO_RESPONSAVEL;
    assert t[n] == ' ' && t[n + 1] == '(';
    assert SkipSpace(t, n + 1) == n + 1;
    assert SkipSpace(t, n) == n + 1;
    assert LastOutside(t, n, n + 1, IsNameStop) == Some(n);
    RunEndAt(t, n, 1, IsNameStop);
    assert t[n..n + 1] == " ";
    assert MatchResponsavel(t, 0) == Some(" ");
    SearchFindsFirst(t, MatchResponsavel, 0, 0);
    assert AllSpace(" ");
  }
}
