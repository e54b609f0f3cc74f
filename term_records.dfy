/**
 * The records of the equipment-responsibility term wizard
 * (frontend/app/termo/page.tsx) and the pure list transforms the page applies
 * to them: the form check, the spread-append of a new term, the `map` that
 * stores the employee's signature, the pending `filter` and the `find` by id.
 */
module TermRecords {
  import opened Wrappers

  /** One term (`TermoAssinatura`). `assinaturaUsuario` is "" until the employee signs. */
  datatype Term = Term(
    id: int,
    nomeFuncionario: string,
    cargo: string,
    cpf: string,
    enderecoFuncionario: string,
    tipoEquipamento: string,
    marca: string,
    modelo: string,
    numeroSerie: string,
    acessorios: string,
    assinaturaTecnico: string,
    assinaturaUsuario: string,
    data: string)

  /** The technician's registration form (`TechForm`). */
  datatype TechForm = TechForm(
    nomeFuncionario: string,
    cargo: string,
    cpf: string,
    enderecoFuncionario: string,
    tipoEquipamento: string,
    marca: string,
    modelo: string,
    numeroSerie: string,
    acessorios: string,
    assinaturaTecnico: string)

  /** `initialTechForm`: every field empty. */
  const InitialTechForm := TechForm("", "", "", "", "", "", "", "", "", "")

  /** The eight fields the form check insists on, in the order it tests them. */
  function RequiredFields(f: TechForm): seq<string>
  {
    [f.nomeFuncionario, f.cargo, f.cpf, f.enderecoFuncionario,
     f.tipoEquipamento, f.marca, f.modelo, f.numeroSerie]
  }

  /** The test inside `validateTechForm`: no required field is the empty (falsy) string. */
  predicate RequiredFilled(f: TechForm)
  {
    f.nomeFuncionario != "" && f.cargo != "" && f.cpf != "" &&
    f.enderecoFuncionario != "" && f.tipoEquipamento != "" &&
    f.marca != "" && f.modelo != "" && f.numeroSerie != ""
  }

  /** The form passes exactly when none of the eight required fields is empty. */
  lemma RequiredFilledIffNoEmptyField(f: TechForm)
    ensures RequiredFilled(f) <==> forall k :: 0 <= k < |RequiredFields(f)| ==> RequiredFields(f)[k] != ""
  {
    var fs := RequiredFields(f);
    assert fs[0] == f.nomeFuncionario && fs[1] == f.cargo && fs[2] == f.cpf && fs[3] == f.enderecoFuncionario;
    assert fs[4] == f.tipoEquipamento && fs[5] == f.marca && fs[6] == f.modelo && fs[7] == f.numeroSerie;
  }

  /** Neither the accessories nor the technician's signature field is ever checked. */
  lemma UncheckedFields(f: TechForm, acessorios: string, assinatura: string)
    ensures RequiredFilled(f.(acessorios := acessorios, assinaturaTecnico := assinatura)) == RequiredFilled(f)
  {
  }

  /** The blank initial form never passes. */
  lemma InitialFormFails()
    ensures !RequiredFilled(InitialTechForm)
  {
  }

  /**
   * The term `handleTechSubmit` builds: the form's nine data fields, the given
   * id, the technician's signature, the timestamp, and no employee signature.
   */
  function NewTerm(id: int, f: TechForm, assinaturaTecnico: string, now: string): (t: Term)
    ensures t.id == id && t.assinaturaTecnico == assinaturaTecnico && t.assinaturaUsuario == "" && t.data == now
    ensures TechForm(t.nomeFuncionario, t.cargo, t.cpf, t.enderecoFuncionario, t.tipoEquipamento,
                     t.marca, t.modelo, t.numeroSerie, t.acessorios, f.assinaturaTecnico) == f
  {
    Term(id, f.nomeFuncionario, f.cargo, f.cpf, f.enderecoFuncionario,
         f.tipoEquipamento, f.marca, f.modelo, f.numeroSerie, f.acessorios,
         assinaturaTecnico, "", now)
  }

  /** `termosPendentes`: the terms the employee has not signed yet, in list order. */
  function Pending(ts: seq<Term>): (r: seq<Term>)
    ensures |r| <= |ts|
    ensures forall t :: t in r ==> t in ts && t.assinaturaUsuario == ""
    ensures forall t :: t in ts && t.assinaturaUsuario == "" ==> t in r
  {
    if ts == [] then []
    else if ts[0].assinaturaUsuario == "" then [ts[0]] + Pending(ts[1..])
    else Pending(ts[1..])
  }

  /** The filter keeps relative order: filtering a concatenation concatenates the filtered halves. */
  lemma {:induction false} PendingAppend(a: seq<Term>, b: seq<Term>)
    ensures Pending(a + b) == Pending(a) + Pending(b)
  {
    if a == [] {
      assert a + b == b;
    } else {
      assert (a + b)[0] == a[0];
      assert (a + b)[1..] == a[1..] + b;
      PendingAppend(a[1..], b);
    }
  }

  /** A freshly committed term joins the end of the pending list. */
  lemma CommittedTermIsPending(ts: seq<Term>, id: int, f: TechForm, sig: string, now: string)
    ensures Pending(ts + [NewTerm(id, f, sig, now)]) == Pending(ts) + [NewTerm(id, f, sig, now)]
  {
    var t := NewTerm(id, f, sig, now);
    PendingAppend(ts, [t]);
    assert [t][1..] == [];
  }

  /** `termos.find(t => t.id === id)`: the first term with that id, if any. */
  function FindById(ts: seq<Term>, id: int): (r: Option<Term>)
    ensures r.None? <==> forall k :: 0 <= k < |ts| ==> ts[k].id != id
    ensures r.Some? ==> exists k :: 0 <= k < |ts| && ts[k] == r.value && r.value.id == id &&
                                  forall j :: 0 <= j < k ==> ts[j].id != id
  {
    if ts == [] then None
    else if ts[0].id == id then Some(ts[0])
    else
      var r := FindById(ts[1..], id);
      assert r.Some? ==> exists k :: 1 <= k < |ts| && ts[k] == r.value && r.value.id == id &&
                                   forall j :: 0 <= j < k ==> ts[j].id != id by {
        if r.Some? {
          var k :| 0 <= k < |ts[1..]| && ts[1..][k] == r.value && r.value.id == id &&
                   forall j :: 0 <= j < k ==> ts[1..][j].id != id;
          assert forall j :: 1 <= j < k + 1 ==> ts[j].id != id by {
            forall j | 1 <= j < k + 1 ensures ts[j].id != id {
              assert ts[j] == ts[1..][j - 1];
            }
          }
        }
      }
      r
  }

  /** `selectedTerm`: the term with the selected id, absent when nothing is selected. */
  function SelectedTerm(ts: seq<Term>, selected: Option<int>): (r: Option<Term>)
    ensures r.Some? ==> selected.Some? && r.value in ts && r.value.id == selected.value
    ensures selected.Some? && (exists k :: 0 <= k < |ts| && ts[k].id == selected.value) ==> r.Some?
  {
    if selected.None? then None else FindById(ts, selected.value)
  }

  /** The employee signature placed on a term by `handleUserSubmit`'s spread. */
  function Signed(t: Term, sig: string): Term
  {
    t.(assinaturaUsuario := sig)
  }

  /**
   * `termos.map(term => term.id === id ? { ...term, assinatura_usuario: sig } : term)`.
   */
  function SignTerm(ts: seq<Term>, id: int, sig: string): (r: seq<Term>)
    ensures |r| == |ts|
  {
    if ts == [] then []
    else [if ts[0].id == id then Signed(ts[0], sig) else ts[0]] + SignTerm(ts[1..], id, sig)
  }

  /**
   * Signing is a position-by-position update: each term with the selected id
   * gets the new employee signature and nothing else changes; every other term
   * is left as it was.
   */
  lemma {:induction false} SignTermAt(ts: seq<Term>, id: int, sig: string, k: int)
    requires 0 <= k < |ts|
    ensures SignTerm(ts, id, sig)[k] == if ts[k].id == id then Signed(ts[k], sig) else ts[k]
  {
    if k > 0 {
      SignTermAt(ts[1..], id, sig, k - 1);
    }
  }

  /** Signing only touches `assinaturaUsuario`: ids, data and the technician's signature stay. */
  lemma {:induction false} SignTermKeepsOtherFields(ts: seq<Term>, id: int, sig: string)
    ensures var r := SignTerm(ts, id, sig);
      forall k :: 0 <= k < |ts| ==>
        r[k].(assinaturaUsuario := "") == ts[k].(assinaturaUsuario := "")
  {
    forall k | 0 <= k < |ts| {
      SignTermAt(ts, id, sig, k);
    }
  }

  /**
   * After a non-empty signature for `id`, no term with that id is pending, and
   * every other pending term still is.
   */
  lemma {:induction false} SignTermLeavesPending(ts: seq<Term>, id: int, sig: string)
    requires sig != ""
    ensures forall t :: t in Pending(SignTerm(ts, id, sig)) ==> t.id != id
    ensures forall t :: t in Pending(ts) && t.id != id ==> t in Pending(SignTerm(ts, id, sig))
  {
    var r := SignTerm(ts, id, sig);
    forall t | t in Pending(r) ensures t.id != id {
      var k :| 0 <= k < |r| && r[k] == t;
      SignTermAt(ts, id, sig, k);
    }
    forall t | t in Pending(ts) && t.id != id ensures t in Pending(r) {
      var k :| 0 <= k < |ts| && ts[k] == t;
      SignTermAt(ts, id, sig, k);
      assert r[k] == t;
    }
  }

  /** Ids strictly increase along the list (creation order). */
  ghost predicate IdsIncreasing(ts: seq<Term>)
  {
    forall i, j :: 0 <= i < j < |ts| ==> ts[i].id < ts[j].id
  }

  /** Every id in the list is below `n`. */
  ghost predicate IdsBelow(ts: seq<Term>, n: int)
  {
    forall k :: 0 <= k < |ts| ==> ts[k].id < n
  }

  /**
   * Committing a term whose id is above every id in the list keeps ids
   * strictly increasing, gives the new term an id no earlier term has, and
   * leaves every id below the next counter value.
   */
  lemma CommitKeepsIdsFresh(ts: seq<Term>, t: Term)
    requires IdsIncreasing(ts) && IdsBelow(ts, t.id)
    ensures forall k :: 0 <= k < |ts| ==> ts[k].id != t.id
    ensures IdsIncreasing(ts + [t]) && IdsBelow(ts + [t], t.id + 1)
  {
  }

  /** Signing changes no id, so it keeps both id invariants. */
  lemma {:induction false} SignKeepsIdsFresh(ts: seq<Term>, id: int, sig: string, n: int)
    requires IdsIncreasing(ts) && IdsBelow(ts, n)
    ensures IdsIncreasing(SignTerm(ts, id, sig)) && IdsBelow(SignTerm(ts, id, sig), n)
  {
    var r := SignTerm(ts, id, sig);
    forall k | 0 <= k < |ts| ensures r[k].id == ts[k].id {
      SignTermAt(ts, id, sig, k);
    }
  }

  /**
   * Nothing stops a term from being signed twice: signing an already-signed
   * term overwrites its employee signature.
   */
  lemma {:induction false} ResigningOverwrites(t: Term, first: string, second: string)
    requires first != "" && second != "" && first != second
    ensures var once := SignTerm([t], t.id, first);
      && Pending(once) == []
      && SignTerm(once, t.id, second) == [Signed(t, second)]
      && SignTerm(once, t.id, second) != once
  {
    SignTermAt([t], t.id, first, 0);
    var once := SignTerm([t], t.id, first);
    SignTermAt(once, t.id, second, 0);
  }
}
