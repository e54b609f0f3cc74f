/**
 * The in-memory asset store of the backend (backend/main.py): the
 * module-level list `banco_de_ativos` and the four handlers that scan it and
 * change it in place. An `HTTPException` the handlers raise is a `Failure`
 * carrying its status code and detail.
 */
module Ativos {
  import opened Wrappers

  datatype Date = Date(year: int, month: int, day: int)

  /** One asset (`Ativo`); the optional fields are `None` when absent. */
  datatype Ativo = Ativo(
    id: int,
    localidade: string,
    numeroSerie: string,
    patrimonio: string,
    status: string,
    data: Option<Date>,
    noPosto: Option<string>,
    fabricante: Option<string>,
    marcaModelo: Option<string>,
    ramalServidor: Option<string>,
    ip: Option<string>,
    observacao: Option<string>,
    termoAssinado: Option<bool>)

  datatype HttpError = HttpError(statusCode: int, detail: string)

  const DuplicateId := HttpError(400, "Já existe um ativo com esse ID.")
  const NotFound := HttpError(404, "Ativo não encontrado")
  const RemovedDetail := "Ativo removido com sucesso"

  /** The position at which each handler's scan stops: the first asset with the id, if any. */
  function FirstIndex(s: seq<Ativo>, id: int): (r: Option<nat>)
    ensures r.None? <==> forall k :: 0 <= k < |s| ==> s[k].id != id
    ensures r.Some? ==> r.value < |s| && s[r.value].id == id &&
                        forall k :: 0 <= k < r.value ==> s[k].id != id
  {
    if s == [] then None
    else if s[0].id == id then Some(0)
    else match FirstIndex(s[1..], id)
      case None => None
      case Some(i) => Some(i + 1)
  }

  /** No two stored assets share an id. */
  ghost predicate UniqueIds(s: seq<Ativo>)
  {
    forall i, j :: 0 <= i < j < |s| ==> s[i].id != s[j].id
  }

  /** The list left behind when the asset at `i` is deleted. */
  function RemoveAt(s: seq<Ativo>, i: nat): (r: seq<Ativo>)
    requires i < |s|
    ensures |r| == |s| - 1
    ensures forall k :: 0 <= k < i ==> r[k] == s[k]
    ensures forall k :: i <= k < |r| ==> r[k] == s[k + 1]
  {
    s[..i] + s[i + 1..]
  }

  class AtivoStore {
    /** `banco_de_ativos` */
    var bancoDeAtivos: seq<Ativo>

    constructor ()
      ensures bancoDeAtivos == []
    {
      bancoDeAtivos := [];
    }

    /** `listar_ativos`: the whole list, as stored. */
    method ListarAtivos() returns (r: seq<Ativo>)
      ensures r == bancoDeAtivos
    {
      r := bancoDeAtivos;
    }

    /**
     * `criar_ativo`: 400 and no change when an asset with the same id is
     * stored; otherwise the asset is appended and returned.
     */
    method CriarAtivo(ativo: Ativo) returns (r: Result<Ativo, HttpError>)
      modifies this
      ensures FirstIndex(old(bancoDeAtivos), ativo.id).Some? ==>
        r == Failure(DuplicateId) && bancoDeAtivos == old(bancoDeAtivos)
      ensures FirstIndex(old(bancoDeAtivos), ativo.id).None? ==>
        r == Success(ativo) && bancoDeAtivos == old(bancoDeAtivos) + [ativo]
    {
      for k := 0 to |bancoDeAtivos|
        invariant forall j :: 0 <= j < k ==> bancoDeAtivos[j].id != ativo.id
      {
        if bancoDeAtivos[k].id == ativo.id {
          return Failure(DuplicateId);
        }
      }
      bancoDeAtivos := bancoDeAtivos + [ativo];
      return Success(ativo);
    }

    /** `obter_ativo`: the first asset with the id, or 404; the list is only read. */
    method ObterAtivo(ativoId: int) returns (r: Result<Ativo, HttpError>)
      ensures FirstIndex(bancoDeAtivos, ativoId).None? ==> r == Failure(NotFound)
      ensures FirstIndex(bancoDeAtivos, ativoId).Some? ==>
        r == Success(bancoDeAtivos[FirstIndex(bancoDeAtivos, ativoId).value])
    {
      for k := 0 to |bancoDeAtivos|
        invariant forall j :: 0 <= j < k ==> bancoDeAtivos[j].id != ativoId
      {
        if bancoDeAtivos[k].id == ativoId {
          return Success(bancoDeAtivos[k]);
        }
      }
      return Failure(NotFound);
    }

    /**
     * `atualizar_ativo`: the first asset with the id is replaced by the
     * payload exactly as given (its own id is not compared), and the payload
     * is returned; 404 and no change when no asset has the id.
     */
    method AtualizarAtivo(ativoId: int, dadosAtualizados: Ativo) returns (r: Result<Ativo, HttpError>)
      modifies this
      ensures FirstIndex(old(bancoDeAtivos), ativoId).None? ==>
        r == Failure(NotFound) && bancoDeAtivos == old(bancoDeAtivos)
      ensures FirstIndex(old(bancoDeAtivos), ativoId).Some? ==>
        r == Success(dadosAtualizados) &&
        bancoDeAtivos == old(bancoDeAtivos)[FirstIndex(old(bancoDeAtivos), ativoId).value := dadosAtualizados]
    {
      for i := 0 to |bancoDeAtivos|
        invariant forall j :: 0 <= j < i ==> bancoDeAtivos[j].id != ativoId
      {
        if bancoDeAtivos[i].id == ativoId {
          bancoDeAtivos := bancoDeAtivos[i := dadosAtualizados];
          return Success(dadosAtualizados);
        }
      }
      return Failure(NotFound);
    }

    /**
     * `deletar_ativo`: the first asset with the id is removed and the rest
     * keep their order; 404 and no change when no asset has the id.
     */
    method DeletarAtivo(ativoId: int) returns (r: Result<string, HttpError>)
      modifies this
      ensures FirstIndex(old(bancoDeAtivos), ativoId).None? ==>
        r == Failure(NotFound) && bancoDeAtivos == old(bancoDeAtivos)
      ensures FirstIndex(old(bancoDeAtivos), ativoId).Some? ==>
        r == Success(RemovedDetail) &&
        bancoDeAtivos == RemoveAt(old(bancoDeAtivos), FirstIndex(old(bancoDeAtivos), ativoId).value)
    {
      for i := 0 to |bancoDeAtivos|
        invariant forall j :: 0 <= j < i ==> bancoDeAtivos[j].id != ativoId
      {
        if bancoDeAtivos[i].id == ativoId {
          bancoDeAtivos := bancoDeAtivos[..i] + bancoDeAtivos[i + 1..];
          return Success(RemovedDetail);
        }
      }
      return Failure(NotFound);
    }
  }

  /** Creation keeps ids pairwise distinct: it only appends an id not yet stored. */
  lemma CreateKeepsIdsUnique(s: seq<Ativo>, ativo: Ativo)
    requires UniqueIds(s) && FirstIndex(s, ativo.id).None?
    ensures UniqueIds(s + [ativo])
  {
  }

  /** Deletion keeps ids pairwise distinct. */
  lemma {:induction false} DeleteKeepsIdsUnique(s: seq<Ativo>, i: nat)
    requires UniqueIds(s) && i < |s|
    ensures UniqueIds(RemoveAt(s, i))
  {
    var r := RemoveAt(s, i);
    forall a, b | 0 <= a < b < |r| ensures r[a].id != r[b].id {
      var a' := if a < i then a else a + 1;
      var b' := if b < i then b else b + 1;
      assert r[a] == s[a'] && r[b] == s[b'];
    }
  }

  /**
   * With distinct ids, an update keeps them distinct exactly when the
   * payload's id appears nowhere else in the list.
   */
  lemma UpdateKeepsIdsUniqueIff(s: seq<Ativo>, i: nat, dados: Ativo)
    requires UniqueIds(s) && i < |s|
    ensures UniqueIds(s[i := dados]) <==> forall k :: 0 <= k < |s| && k != i ==> s[k].id != dados.id
  {
    var r := s[i := dados];
    if forall k :: 0 <= k < |s| && k != i ==> s[k].id != dados.id {
      forall a, b | 0 <= a < b < |r| ensures r[a].id != r[b].id {
        if a == i {
          assert r[b] == s[b];
        } else if b == i {
          assert r[a] == s[a];
        } else {
          assert r[a] == s[a] && r[b] == s[b];
        }
      }
    } else {
      var k :| 0 <= k < |s| && k != i && s[k].id == dados.id;
      assert r[k].id == r[i].id;
      assert !UniqueIds(r);
    }
  }

  /** Ids were distinct, the id is found, and replacing that asset by `dados` makes two ids equal. */
  ghost predicate UpdateDuplicatesIds(s: seq<Ativo>, id: int, dados: Ativo)
  {
    UniqueIds(s) && FirstIndex(s, id).Some? && !UniqueIds(s[FirstIndex(s, id).value := dados])
  }

  /**
   * Because the payload's id is not checked, an update can leave two assets
   * with the same id in a list that had none.
   */
  lemma UpdateCanDuplicateIds()
    ensures exists s: seq<Ativo>, id: int, dados: Ativo :: UpdateDuplicatesIds(s, id, dados)
  {
    var a := Ativo(1, "", "", "", "", None, None, None, None, None, None, None, Some(false));
    var b := a.(id := 2);
    var s: seq<Ativo> := [a, b];
    assert FirstIndex(s, 1) == Some(0);
    var updated: seq<Ativo> := s[0 := b];
    assert updated[0].id == updated[1].id;
    assert UpdateDuplicatesIds(s, 1, b);
  }

  /** After a successful create, looking the id up finds the created asset. */
  lemma {:induction false} GetAfterCreate(s: seq<Ativo>, ativo: Ativo)
    requires FirstIndex(s, ativo.id).None?
    ensures FirstIndex(s + [ativo], ativo.id) == Some(|s|)
  {
    if s != [] {
      assert (s + [ativo])[1..] == s[1..] + [ativo];
      GetAfterCreate(s[1..], ativo);
    }
  }

  /** After an update whose payload keeps the id, looking the id up finds the payload. */
  lemma GetAfterUpdate(s: seq<Ativo>, id: int, dados: Ativo)
    requires FirstIndex(s, id).Some? && dados.id == id
    ensures FirstIndex(s[FirstIndex(s, id).value := dados], id) == FirstIndex(s, id)
  {
    var i := FirstIndex(s, id).value;
    var r := s[i := dados];
    FirstIndexUnique(r, id, i);
  }

  /** After a delete in a list with distinct ids, the id is no longer found. */
  lemma {:induction false} GetAfterDelete(s: seq<Ativo>, id: int)
    requires UniqueIds(s) && FirstIndex(s, id).Some?
    ensures FirstIndex(RemoveAt(s, FirstIndex(s, id).value), id).None?
  {
    var i := FirstIndex(s, id).value;
    var r := RemoveAt(s, i);
    forall k | 0 <= k < |r| ensures r[k].id != id {
      if k >= i {
        assert r[k] == s[k + 1];
      }
    }
  }

  /** The first index is the only index that satisfies the first-match description. */
  lemma FirstIndexUnique(s: seq<Ativo>, id: int, i: nat)
    requires i < |s| && s[i].id == id && forall k :: 0 <= k < i ==> s[k].id != id
    ensures FirstIndex(s, id) == Some(i)
  {
    var r := FirstIndex(s, id);
    assert r.Some?;
  }
}
