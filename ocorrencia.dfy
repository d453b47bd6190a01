/**
 * The occurrence pages: the report analyser that pre-fills the occurrence
 * form, the approve and reject transitions of an occurrence's status, and
 * the rule of who may edit or delete an occurrence.
 */
module OcorrenciaRoutes {
  import opened Common
  import opened Calendar
  import opened ReportExtraction

  const PENDENTE := "Pendente"
  const REGISTRADA := "Registrada"
  const REJEITADA := "Rejeitada"

  const MSG_TEXTO_VAZIO := "Texto do relatório está vazio."

  /** The keys of the analysers' answers. */
  datatype Chave =
    | ChaveDataHora | ChaveTurno | ChaveEndereco | ChaveCondominio | ChaveTipoId | ChaveColaboradores
    | ChaveTipoOcorrencia | ChaveRelatorioCorrigido

  /** The JSON name each key is sent under. */
  function NomeChave(k: Chave): string
  {
    match k
    case ChaveDataHora => "data_hora_ocorrencia"
    case ChaveTurno => "turno"
    case ChaveEndereco => "endereco_especifico"
    case ChaveCondominio => "condominio_id"
    case ChaveTipoId => "ocorrencia_tipo_id"
    case ChaveColaboradores => "colaboradores_envolvidos"
    case ChaveTipoOcorrencia => "tipo_ocorrencia"
    case ChaveRelatorioCorrigido => "relatorio_corrigido"
  }

  /** Distinct keys are sent under distinct names, so the answer's JSON object has one member per key. */
  lemma NomeChaveInjetiva(k1: Chave, k2: Chave)
    ensures NomeChave(k1) == NomeChave(k2) ==> k1 == k2
  {
  }

  /** A value of the extracted-fields dictionary. */
  datatype Valor = Texto(texto: string) | Numero(numero: int) | Ids(ids: seq<int>)

  // ------------------------------------------------------------------
  // Report analyser
  // ------------------------------------------------------------------

  /**
   * The occurrence type of the analyser: the classifier's name when it gives
   * one (the id of the type with that name, or of the type created for it),
   * otherwise the id of the default type when it exists.
   */
  function TipoId(classificacao: Option<string>, tipoPorNome: string -> Option<int>, novoTipoId: int,
                  tipoPadrao: Option<int>): (r: Option<int>)
    ensures TruthyStr(classificacao) ==> r.Some?
    ensures !TruthyStr(classificacao) ==> r == tipoPadrao
    ensures TruthyStr(classificacao) && tipoPorNome(classificacao.value).Some? ==> r == tipoPorNome(classificacao.value)
    ensures TruthyStr(classificacao) && tipoPorNome(classificacao.value).None? ==> r == Some(novoTipoId)
  {
    if TruthyStr(classificacao) then
      match tipoPorNome(classificacao.value)
      case Some(id) => Some(id)
      case None => Some(novoTipoId)
    else tipoPadrao
  }

  /** The fields step 1 adds for what the date and hour patterns found: the ISO date and time and the turno, both or neither. */
  function CamposDataHora(dh: Option<DataHora>): (m: map<Chave, Valor>)
    ensures m.Keys <= {ChaveDataHora, ChaveTurno}
  {
    match dh
    case Some(v) => map[ChaveDataHora := Texto(v.dataHoraOcorrencia), ChaveTurno := Texto(v.turno)]
    case None => map[]
  }

  /** The fields step 2 adds for the address found: the address, and the condominium found in it. */
  function CamposLocal(local: Option<string>, condominios: seq<Condominio>): (m: map<Chave, Valor>)
    ensures m.Keys <= {ChaveEndereco, ChaveCondominio}
  {
    match local
    case None => map[]
    case Some(endereco) =>
      match CondominioDoEndereco(condominios, endereco)
      case Some(id) => map[ChaveEndereco := Texto(endereco), ChaveCondominio := Numero(id)]
      case None => map[ChaveEndereco := Texto(endereco)]
  }

  /** The field step 3 adds: the occurrence type, when there is one. */
  function CamposTipo(classificacao: Option<string>, tipoPorNome: string -> Option<int>, novoTipoId: int,
                      tipoPadrao: Option<int>): (m: map<Chave, Valor>)
    ensures m.Keys <= {ChaveTipoId}
  {
    match TipoId(classificacao, tipoPorNome, novoTipoId, tipoPadrao)
    case Some(id) => map[ChaveTipoId := Numero(id)]
    case None => map[]
  }

  /** The field step 4 adds for the responsible's name found: the collaborator with that name, when there is one. */
  function CamposResponsavel(nome: Option<string>, colaboradorPorNome: string -> Option<int>): (m: map<Chave, Valor>)
    ensures m.Keys <= {ChaveColaboradores}
  {
    match nome
    case None => map[]
    case Some(n) =>
      match colaboradorPorNome(n)
      case Some(id) => map[ChaveColaboradores := Ids([id])]
      case None => map[]
  }

  /** What the four steps add, for what the patterns found. */
  function CamposDe(dh: Option<DataHora>, local: Option<string>, condominios: seq<Condominio>, classificacao: Option<string>,
                    tipoPorNome: string -> Option<int>, novoTipoId: int, tipoPadrao: Option<int>,
                    nome: Option<string>, colaboradorPorNome: string -> Option<int>): map<Chave, Valor>
  {
    CamposDataHora(dh) + CamposLocal(local, condominios) + CamposTipo(classificacao, tipoPorNome, novoTipoId, tipoPadrao)
    + CamposResponsavel(nome, colaboradorPorNome)
  }

  /** Everything the analyser extracts from the cleaned text `t`. */
  function Campos(t: string, condominios: seq<Condominio>, classificacao: Option<string>,
                  tipoPorNome: string -> Option<int>, novoTipoId: int, tipoPadrao: Option<int>,
                  colaboradorPorNome: string -> Option<int>): map<Chave, Valor>
  {
    CamposDe(ExtrairDataHora(t), ExtrairLocal(t), condominios, classificacao, tipoPorNome, novoTipoId, tipoPadrao,
             ExtrairResponsavel(t), colaboradorPorNome)
  }

  /*
   * The fields of the analyser's answer: each is present exactly when its
   * pattern (and, for ids, its lookup) found something, and holds what was
   * found; there are no others.
   */

  /** The answer has only the six fields, and the date and turno exactly when the date was found. */
  lemma CamposDeDataHora(dh: Option<DataHora>, local: Option<string>, condominios: seq<Condominio>, classificacao: Option<string>,
                         tipoPorNome: string -> Option<int>, novoTipoId: int, tipoPadrao: Option<int>,
                         nome: Option<string>, colaboradorPorNome: string -> Option<int>)
    ensures var dados := CamposDe(dh, local, condominios, classificacao, tipoPorNome, novoTipoId, tipoPadrao, nome, colaboradorPorNome);
       dados.Keys <= {ChaveDataHora, ChaveTurno, ChaveEndereco, ChaveCondominio, ChaveTipoId, ChaveColaboradores}
       && (ChaveDataHora in dados <==> dh.Some?) && (ChaveTurno in dados <==> dh.Some?)
       && (dh.Some? ==> dados[ChaveDataHora] == Texto(dh.value.dataHoraOcorrencia) && dados[ChaveTurno] == Texto(dh.value.turno))
  {
    var a, b := CamposDataHora(dh), CamposLocal(local, condominios);
    var c, d := CamposTipo(classificacao, tipoPorNome, novoTipoId, tipoPadrao), CamposResponsavel(nome, colaboradorPorNome);
    Uniao(a, b, c, d, ChaveDataHora);
    Uniao(a, b, c, d, ChaveTurno);
  }

  /** The address exactly when it was found, and the condominium exactly when one is named in it. */
  lemma CamposDeLocal(dh: Option<DataHora>, local: Option<string>, condominios: seq<Condominio>, classificacao: Option<string>,
                      tipoPorNome: string -> Option<int>, novoTipoId: int, tipoPadrao: Option<int>,
                      nome: Option<string>, colaboradorPorNome: string -> Option<int>)
    ensures var dados := CamposDe(dh, local, condominios, classificacao, tipoPorNome, novoTipoId, tipoPadrao, nome, colaboradorPorNome);
       (ChaveEndereco in dados <==> local.Some?)
       && (local.Some? ==> dados[ChaveEndereco] == Texto(local.value))
       && (ChaveCondominio in dados <==> local.Some? && CondominioDoEndereco(condominios, local.value).Some?)
       && (ChaveCondominio in dados ==> dados[ChaveCondominio] == Numero(CondominioDoEndereco(condominios, local.value).value))
  {
    var a, b := CamposDataHora(dh), CamposLocal(local, condominios);
    var c, d := CamposTipo(classificacao, tipoPorNome, novoTipoId, tipoPadrao), CamposResponsavel(nome, colaboradorPorNome);
    Uniao(a, b, c, d, ChaveEndereco);
    Uniao(a, b, c, d, ChaveCondominio);
  }

  /** The type exactly when there is one, and the collaborator exactly when the name found is one. */
  lemma CamposDeTipoResponsavel(dh: Option<DataHora>, local: Option<string>, condominios: seq<Condominio>, classificacao: Option<string>,
                                tipoPorNome: string -> Option<int>, novoTipoId: int, tipoPadrao: Option<int>,
                                nome: Option<string>, colaboradorPorNome: string -> Option<int>)
    ensures var dados := CamposDe(dh, local, condominios, classificacao, tipoPorNome, novoTipoId, tipoPadrao, nome, colaboradorPorNome);
       (ChaveTipoId in dados <==> TipoId(classificacao, tipoPorNome, novoTipoId, tipoPadrao).Some?)
       && (ChaveTipoId in dados ==> dados[ChaveTipoId] == Numero(TipoId(classificacao, tipoPorNome, novoTipoId, tipoPadrao).value))
       && (ChaveColaboradores in dados <==> nome.Some? && colaboradorPorNome(nome.value).Some?)
       && (ChaveColaboradores in dados ==> dados[ChaveColaboradores] == Ids([colaboradorPorNome(nome.value).value]))
  {
    var a, b := CamposDataHora(dh), CamposLocal(local, condominios);
    var c, d := CamposTipo(classificacao, tipoPorNome, novoTipoId, tipoPadrao), CamposResponsavel(nome, colaboradorPorNome);
    Uniao(a, b, c, d, ChaveTipoId);
    Uniao(a, b, c, d, ChaveColaboradores);
  }

  /** The same, for the fields of a report text: each comes from its own pattern. */
  lemma CamposChaves(t: string, condominios: seq<Condominio>, classificacao: Option<string>,
                     tipoPorNome: string -> Option<int>, novoTipoId: int, tipoPadrao: Option<int>,
                     colaboradorPorNome: string -> Option<int>)
    ensures var dados := Campos(t, condominios, classificacao, tipoPorNome, novoTipoId, tipoPadrao, colaboradorPorNome);
       dados.Keys <= {ChaveDataHora, ChaveTurno, ChaveEndereco, ChaveCondominio, ChaveTipoId, ChaveColaboradores}
       && (ChaveDataHora in dados <==> ExtrairDataHora(t).Some?)
       && (ExtrairDataHora(t).Some? ==> dados[ChaveTurno] == Texto(ExtrairDataHora(t).value.turno))
       && (ChaveEndereco in dados <==> ExtrairLocal(t).Some?)
       && (ChaveColaboradores in dados <==> ExtrairResponsavel(t).Some? && colaboradorPorNome(ExtrairResponsavel(t).value).Some?)
  {
    var dh, local, nome := ExtrairDataHora(t), ExtrairLocal(t), ExtrairResponsavel(t);
    CamposDeDataHora(dh, local, condominios, classificacao, tipoPorNome, novoTipoId, tipoPadrao, nome, colaboradorPorNome);
    CamposDeLocal(dh, local, condominios, classificacao, tipoPorNome, novoTipoId, tipoPadrao, nome, colaboradorPorNome);
    CamposDeTipoResponsavel(dh, local, condominios, classificacao, tipoPorNome, novoTipoId, tipoPadrao, nome, colaboradorPorNome);
  }

  /** A key of a union of four maps holds the value of the one map that has it. */
  lemma Uniao<K, V>(a: map<K, V>, b: map<K, V>, c: map<K, V>, d: map<K, V>, k: K)
    ensures k in a + b + c + d <==> k in a || k in b || k in c || k in d
    ensures k in a && k !in b && k !in c && k !in d ==> (a + b + c + d)[k] == a[k]
    ensures k in b && k !in c && k !in d ==> (a + b + c + d)[k] == b[k]
    ensures k in c && k !in d ==> (a + b + c + d)[k] == c[k]
    ensures k in d ==> (a + b + c + d)[k] == d[k]
  {
  }

  /** Step 1 of `analisar_relatorio`, on what the date and hour patterns found. */
  method PassoDataHora(dados: map<Chave, Valor>, dataHora: Option<DataHora>) returns (out: map<Chave, Valor>)
    ensures out == dados + CamposDataHora(dataHora)
  {
    out := dados;
    if dataHora.Some? {
      out := out[ChaveDataHora := Texto(dataHora.value.dataHoraOcorrencia)];
      out := out[ChaveTurno := Texto(dataHora.value.turno)];
    }
  }

  /** Step 2 of `analisar_relatorio`, on the address the pattern found. */
  method PassoLocal(dados: map<Chave, Valor>, local: Option<string>, condominios: seq<Condominio>) returns (out: map<Chave, Valor>)
    ensures out == dados + CamposLocal(local, condominios)
  {
    out := dados;
    if local.Some? {
      out := out[ChaveEndereco := Texto(local.value)];
      var condominio := CondominioDoEndereco(condominios, local.value);
      if condominio.Some? {
        out := out[ChaveCondominio := Numero(condominio.value)];
      }
    }
  }

  /** Step 3 of `analisar_relatorio`; also returns the name of the type it had to create. */
  method PassoTipo(dados: map<Chave, Valor>, classificacao: Option<string>, tipoPorNome: string -> Option<int>,
                   novoTipoId: int, tipoPadrao: Option<int>)
    returns (out: map<Chave, Valor>, tipoCriado: Option<string>)
    ensures out == dados + CamposTipo(classificacao, tipoPorNome, novoTipoId, tipoPadrao)
    ensures tipoCriado.Some? <==> TruthyStr(classificacao) && tipoPorNome(classificacao.value).None?
    ensures tipoCriado.Some? ==> tipoCriado == classificacao
  {
    out, tipoCriado := dados, None;
    if TruthyStr(classificacao) {
      var tipo := tipoPorNome(classificacao.value);
      if tipo.Some? {
        out := out[ChaveTipoId := Numero(tipo.value)];
      } else {
        tipoCriado := classificacao;
        out := out[ChaveTipoId := Numero(novoTipoId)];
      }
    } else if tipoPadrao.Some? {
      out := out[ChaveTipoId := Numero(tipoPadrao.value)];
    }
  }

  /** Step 4 of `analisar_relatorio`, on the responsible's name the pattern found. */
  method PassoResponsavel(dados: map<Chave, Valor>, responsavel: Option<string>, colaboradorPorNome: string -> Option<int>)
    returns (out: map<Chave, Valor>)
    ensures out == dados + CamposResponsavel(responsavel, colaboradorPorNome)
  {
    out := dados;
    if responsavel.Some? {
      var colaborador := colaboradorPorNome(responsavel.value);
      if colaborador.Some? {
        out := out[ChaveColaboradores := Ids([colaborador.value])];
      }
    }
  }

  /**
   * `analisar_relatorio`. The lookups into the database are parameters: the
   * condominiums, the classifier's answer, the type id for a name (and the id
   * a new type receives), the default type, and the collaborator whose name
   * contains a given one. Returns the extracted fields and the name of the
   * occurrence type created on the way, if any.
   */
  method AnalisarRelatorio(texto: Option<string>, condominios: seq<Condominio>, classificacao: Option<string>,
                           tipoPorNome: string -> Option<int>, novoTipoId: int, tipoPadrao: Option<int>,
                           colaboradorPorNome: string -> Option<int>)
    returns (r: Result<map<Chave, Valor>>, tipoCriado: Option<string>)
    ensures !TruthyStr(texto) <==> r == Err(HttpError(400, MSG_TEXTO_VAZIO))
    ensures r.Ok? <==> TruthyStr(texto)
    ensures r.Err? ==> tipoCriado.None?
    ensures r.Ok? ==>
      r.value == Campos(CleanText(texto.value), condominios, classificacao, tipoPorNome, novoTipoId, tipoPadrao, colaboradorPorNome)
    ensures r.Ok? ==>
      (tipoCriado.Some? <==> TruthyStr(classificacao) && tipoPorNome(classificacao.value).None?)
      && (tipoCriado.Some? ==> tipoCriado == classificacao)
  {
    if !TruthyStr(texto) {
      return Err(HttpError(400, MSG_TEXTO_VAZIO)), None;
    }
    var t := CleanText(texto.value);
    var dh, local, nome := ExtrairDataHora(t), ExtrairLocal(t), ExtrairResponsavel(t);
    var a := PassoDataHora(map[], dh);
    assert a == CamposDataHora(dh);
    var b := PassoLocal(a, local, condominios);
    var c;
    c, tipoCriado := PassoTipo(b, classificacao, tipoPorNome, novoTipoId, tipoPadrao);
    var d := PassoResponsavel(c, nome, colaboradorPorNome);
    assert d == CamposDe(dh, local, condominios, classificacao, tipoPorNome, novoTipoId, tipoPadrao, nome, colaboradorPorNome);
    r := Ok(d);
  }

  // ------------------------------------------------------------------
  // Status transitions
  // ------------------------------------------------------------------

  /** Approving moves a pending occurrence to "Registrada" and leaves any other as it is. */
  function Aprovada(status: string): string
  {
    if status == PENDENTE then REGISTRADA else status
  }

  /** Rejecting moves a pending occurrence to "Rejeitada" and leaves any other as it is. */
  function Rejeitada(status: string): string
  {
    if status == PENDENTE then REJEITADA else status
  }

  /** Only a pending occurrence changes, and it is never pending afterwards. */
  lemma TransicoesSoDePendente(status: string)
    ensures Aprovada(status) != status <==> status == PENDENTE
    ensures Rejeitada(status) != status <==> status == PENDENTE
    ensures Aprovada(status) != PENDENTE && Rejeitada(status) != PENDENTE
  {
  }

  /** Once decided, an occurrence keeps its decision: a later approve or reject changes nothing. */
  lemma DecisaoDefinitiva(status: string)
    ensures Aprovada(Aprovada(status)) == Aprovada(status) && Rejeitada(Aprovada(status)) == Aprovada(status)
    ensures Rejeitada(Rejeitada(status)) == Rejeitada(status) && Aprovada(Rejeitada(status)) == Rejeitada(status)
  {
  }

  /** The columns of an `Ocorrencia` these routes read or change. */
  datatype Registro = Registro(status: string, registradoPor: Option<int>)

  /** The logged-in user: id and administrator flag. */
  datatype Usuario = Usuario(id: int, isAdmin: bool)

  /** Editing and deleting are allowed to administrators and to the user who registered the occurrence. */
  predicate PodeEditar(u: Usuario, r: Registro)
  {
    u.isAdmin || r.registradoPor == Some(u.id)
  }

  /** What the `pode_editar_ocorrencia` decorator decides. */
  datatype Guarda = NaoEncontrada | Negada(flash: Flash) | Permitida

  function GuardaEdicao(rows: map<int, Registro>, id: int, u: Usuario): (g: Guarda)
    ensures g == NaoEncontrada <==> id !in rows
    ensures g == Permitida <==> id in rows && PodeEditar(u, rows[id])
    ensures g.Negada? ==> g.flash == Flash("danger", "Você não tem permissão para editar esta ocorrência.")
  {
    if id !in rows then NaoEncontrada
    else if !PodeEditar(u, rows[id]) then Negada(Flash("danger", "Você não tem permissão para editar esta ocorrência."))
    else Permitida
  }

  /** A user who did not register an occurrence and is no administrator may not touch it. */
  lemma SoAutorOuAdmin(u: Usuario, r: Registro)
    ensures !u.isAdmin && (r.registradoPor.None? || r.registradoPor.value != u.id) ==> !PodeEditar(u, r)
    ensures u.isAdmin ==> PodeEditar(u, r)
  {
  }

  /** The `Ocorrencia` rows by id; each route fetches one with `get_or_404`. */
  class OcorrenciaTable {
    var rows: map<int, Registro>

    constructor(rows: map<int, Registro>)
      ensures this.rows == rows
    {
      this.rows := rows;
    }

    /** `aprovar_ocorrencia`. */
    method Aprovar(id: int) returns (code: int, flash: Option<Flash>)
      modifies this
      ensures id !in old(rows) ==> code == 404 && rows == old(rows) && flash.None?
      ensures id in old(rows) ==> code == 302 && rows == old(rows)[id := old(rows)[id].(status := Aprovada(old(rows)[id].status))]
      ensures id in old(rows) ==> flash == Some(if old(rows)[id].status == PENDENTE
                                                then Flash("success", "Ocorrência aprovada com sucesso!")
                                                else Flash("warning", "Apenas ocorrências pendentes podem ser aprovadas."))
    {
      if id !in rows {
        return 404, None;
      }
      var o := rows[id];
      if o.status != PENDENTE {
        assert rows == rows[id := o];
        return 302, Some(Flash("warning", "Apenas ocorrências pendentes podem ser aprovadas."));
      }
      rows := rows[id := o.(status := REGISTRADA)];
      code, flash := 302, Some(Flash("success", "Ocorrência aprovada com sucesso!"));
    }

    /** `rejeitar_ocorrencia`. */
    method Rejeitar(id: int) returns (code: int, flash: Option<Flash>)
      modifies this
      ensures id !in old(rows) ==> code == 404 && rows == old(rows) && flash.None?
      ensures id in old(rows) ==> code == 302 && rows == old(rows)[id := old(rows)[id].(status := Rejeitada(old(rows)[id].status))]
      ensures id in old(rows) ==> flash == Some(if old(rows)[id].status == PENDENTE
                                                then Flash("info", "Ocorrência rejeitada.")
                                                else Flash("warning", "Apenas ocorrências pendentes podem ser rejeitadas."))
    {
      if id !in rows {
        return 404, None;
      }
      var o := rows[id];
      if o.status != PENDENTE {
        assert rows == rows[id := o];
        return 302, Some(Flash("warning", "Apenas ocorrências pendentes podem ser rejeitadas."));
      }
      rows := rows[id := o.(status := REJEITADA)];
      code, flash := 302, Some(Flash("info", "Ocorrência rejeitada."));
    }

    /** `deletar_ocorrencia`: removes the occurrence when the user may edit it. */
    method Deletar(id: int, u: Usuario) returns (code: int, flash: Option<Flash>)
      modifies this
      ensures id !in old(rows) ==> code == 404 && rows == old(rows) && flash.None?
      ensures id in old(rows) && !PodeEditar(u, old(rows)[id]) ==>
        code == 302 && rows == old(rows) && flash == Some(Flash("danger", "Você não tem permissão para deletar esta ocorrência."))
      ensures id in old(rows) && PodeEditar(u, old(rows)[id]) ==>
        code == 302 && rows == old(rows) - {id} && flash == Some(Flash("success", "Ocorrência deletada com sucesso."))
    {
      if id !in rows {
        return 404, None;
      }
      if !PodeEditar(u, rows[id]) {
        return 302, Some(Flash("danger", "Você não tem permissão para deletar esta ocorrência."));
      }
      rows := rows - {id};
      code, flash := 302, Some(Flash("success", "Ocorrência deletada com sucesso."));
    }
  }
}
