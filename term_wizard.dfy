/**
 * The four-step equipment-term wizard (frontend/app/termo/page.tsx): the page
 * component's state and the handlers that update it. Step 1 registers a term
 * with the technician's signature, step 2 previews the registration form (which
 * a successful registration has already reset to blank), step 3 collects the
 * employee's signature on a selected pending term, step 4 shows the result.
 */
module TermWizard {
  import opened Wrappers
  import opened Canvas
  import opened TermRecords
  import opened TermStore

  const FirstStep := 1
  const LastStep := 4

  /** `Math.min(step + 1, 4)`: the larger of the bounds that is still at most both. */
  function Advanced(step: int): (r: int)
    ensures r <= step + 1 && r <= LastStep
    ensures r == step + 1 || r == LastStep
  {
    if step + 1 < LastStep then step + 1 else LastStep
  }

  /** `Math.max(step - 1, 1)`: the smaller of the bounds that is still at least both. */
  function Retreated(step: int): (r: int)
    ensures r >= step - 1 && r >= FirstStep
    ensures r == step - 1 || r == FirstStep
  {
    if step - 1 > FirstStep then step - 1 else FirstStep
  }

  predicate StepInRange(step: int)
  {
    FirstStep <= step <= LastStep
  }

  /** Neither move leaves the steps 1..4; each is a no-op at its boundary. */
  lemma StepsStayInRange(step: int)
    requires StepInRange(step)
    ensures StepInRange(Advanced(step)) && StepInRange(Retreated(step))
    ensures Advanced(step) == step <==> step == LastStep
    ensures Retreated(step) == step <==> step == FirstStep
  {
  }

  /** Going back undoes going forward, except at the last step. */
  lemma RetreatUndoesAdvance(step: int)
    requires FirstStep <= step < LastStep
    ensures Retreated(Advanced(step)) == step
  {
  }

  /** Going forward undoes going back, except at the first step. */
  lemma AdvanceUndoesRetreat(step: int)
    requires FirstStep < step <= LastStep
    ensures Advanced(Retreated(step)) == step
  {
  }

  datatype AlertType = AlertError | AlertSuccess
  datatype Alert = Alert(message: string, kind: AlertType)

  const MissingFieldsMessage := "Preencha todos os campos obrigatórios."
  const MissingTechSignatureMessage := "O técnico precisa fornecer sua assinatura digital."
  const TermRegisteredMessage := "Termo cadastrado com sucesso!"
  const NoTermSelectedMessage := "Selecione um termo para assinar."
  const MissingUserSignatureMessage := "Forneça sua assinatura digital."
  const TermSignedMessage := "Termo assinado com sucesso!"

  /** The inputs of the registration form that `handleTechChange` edits by name. */
  datatype TechField =
    | NomeFuncionario | Cargo | Cpf | EnderecoFuncionario | TipoEquipamento
    | Marca | Modelo | NumeroSerie | Acessorios

  /** The value of one named input of the form. */
  function TechFieldOf(f: TechForm, field: TechField): string
  {
    match field
    case NomeFuncionario => f.nomeFuncionario
    case Cargo => f.cargo
    case Cpf => f.cpf
    case EnderecoFuncionario => f.enderecoFuncionario
    case TipoEquipamento => f.tipoEquipamento
    case Marca => f.marca
    case Modelo => f.modelo
    case NumeroSerie => f.numeroSerie
    case Acessorios => f.acessorios
  }

  /** `{ ...prev, [name]: value }`: the named input takes the value, every other input and the signature stay. */
  function WithTechField(f: TechForm, field: TechField, value: string): (r: TechForm)
    ensures TechFieldOf(r, field) == value
    ensures forall g :: g != field ==> TechFieldOf(r, g) == TechFieldOf(f, g)
    ensures r.assinaturaTecnico == f.assinaturaTecnico
  {
    match field
    case NomeFuncionario => f.(nomeFuncionario := value)
    case Cargo => f.(cargo := value)
    case Cpf => f.(cpf := value)
    case EnderecoFuncionario => f.(enderecoFuncionario := value)
    case TipoEquipamento => f.(tipoEquipamento := value)
    case Marca => f.(marca := value)
    case Modelo => f.(modelo := value)
    case NumeroSerie => f.(numeroSerie := value)
    case Acessorios => f.(acessorios := value)
  }

  /** An option of the pending-term selector: the "-- Selecione --" placeholder (value "") or a term id. */
  datatype SelectOption = Placeholder | TermOption(id: int)

  /** `Number(e.target.value)`: the placeholder's empty value converts to 0, not to null. */
  function SelectedIdOf(o: SelectOption): int
  {
    match o
    case Placeholder => 0
    case TermOption(id) => id
  }

  class Wizard {
    var currentStep: int
    var techForm: TechForm
    var termos: seq<Term>
    var alert: Option<Alert>
    var selectedTermId: Option<int>
    /** The browser storage the page persists to. */
    const store: LocalStorage

    ghost predicate Valid()
      reads this
    {
      StepInRange(currentStep)
    }

    /**
     * The ids in memory strictly increase and all lie below the stored counter,
     * so the next id handed out is fresh.
     */
    ghost predicate IdsFresh()
      reads this, store
    {
      IdsIncreasing(termos) && IdsBelow(termos, CounterValue(store.nextId))
    }

    /** The component after mounting: step 1, a blank form, and the terms loaded from storage. */
    constructor (store: LocalStorage)
      ensures Valid() && this.store == store
      ensures currentStep == FirstStep && techForm == InitialTechForm
      ensures termos == store.LoadTerms() && alert == None && selectedTermId == None
    {
      this.store := store;
      currentStep := FirstStep;
      techForm := InitialTechForm;
      termos := store.LoadTerms();
      alert := None;
      selectedTermId := None;
    }

    /** `nextStep` */
    method NextStep()
      requires Valid()
      modifies this`currentStep
      ensures Valid() && currentStep == Advanced(old(currentStep))
    {
      currentStep := if currentStep + 1 < LastStep then currentStep + 1 else LastStep;
    }

    /** `prevStep` */
    method PrevStep()
      requires Valid()
      modifies this`currentStep
      ensures Valid() && currentStep == Retreated(old(currentStep))
    {
      currentStep := if currentStep - 1 > FirstStep then currentStep - 1 else FirstStep;
    }

    /** `handleTechChange`: one input of the registration form changes, nothing else does. */
    method HandleTechChange(field: TechField, value: string)
      modifies this`techForm
      ensures techForm == WithTechField(old(techForm), field, value)
    {
      techForm := WithTechField(techForm, field, value);
    }

    /**
     * `validateTechForm`: passes exactly when the eight required fields are
     * non-empty; on failure it raises the "missing fields" alert.
     */
    method ValidateTechForm() returns (ok: bool)
      modifies this`alert
      ensures ok == RequiredFilled(techForm)
      ensures alert == if ok then old(alert) else Some(Alert(MissingFieldsMessage, AlertError))
    {
      if techForm.nomeFuncionario == "" || techForm.cargo == "" || techForm.cpf == "" ||
         techForm.enderecoFuncionario == "" || techForm.tipoEquipamento == "" ||
         techForm.marca == "" || techForm.modelo == "" || techForm.numeroSerie == ""
      {
        alert := Some(Alert(MissingFieldsMessage, AlertError));
        return false;
      }
      return true;
    }

    /**
     * `handleTechSubmit`: when the form passes and the technician has signed,
     * take the next id, append the new unsigned term, persist the list, reset
     * the form and move on; otherwise only the alert changes and no id is used.
     */
    method HandleTechSubmit(pad: SignaturePad, now: string)
      requires Valid()
      modifies this, store
      ensures Valid() && selectedTermId == old(selectedTermId)
      ensures !RequiredFilled(old(techForm)) ==>
        && termos == old(termos) && currentStep == old(currentStep) && techForm == old(techForm)
        && store.termos == old(store.termos) && store.nextId == old(store.nextId)
        && alert == Some(Alert(MissingFieldsMessage, AlertError))
      ensures RequiredFilled(old(techForm)) && pad.empty ==>
        && termos == old(termos) && currentStep == old(currentStep) && techForm == old(techForm)
        && store.termos == old(store.termos) && store.nextId == old(store.nextId)
        && alert == Some(Alert(MissingTechSignatureMessage, AlertError))
      ensures RequiredFilled(old(techForm)) && !pad.empty ==>
        var t := NewTerm(CounterValue(old(store.nextId)), old(techForm), pad.dataUrl, now);
        && termos == old(termos) + [t]
        && store.termos == Some(termos) && store.nextId == Some(t.id + 1)
        && techForm == InitialTechForm && currentStep == Advanced(old(currentStep))
        && alert == Some(Alert(TermRegisteredMessage, AlertSuccess))
      ensures old(IdsFresh()) ==> IdsFresh()
    {
      var ok := ValidateTechForm();
      if !ok {
        return;
      }
      if pad.empty {
        alert := Some(Alert(MissingTechSignatureMessage, AlertError));
        return;
      }
      var id := store.GetNextId();
      var novoTermo := NewTerm(id, techForm, pad.dataUrl, now);
      var novosTermos := termos + [novoTermo];
      termos := novosTermos;
      store.SaveTerms(novosTermos);
      techForm := InitialTechForm;
      alert := Some(Alert(TermRegisteredMessage, AlertSuccess));
      NextStep();
      if old(IdsFresh()) {
        CommitKeepsIdsFresh(old(termos), novoTermo);
      }
    }

    /** The selector's `onChange`: `setSelectedTermId(Number(e.target.value))`. */
    method SelectTerm(o: SelectOption)
      modifies this`selectedTermId
      ensures selectedTermId == Some(SelectedIdOf(o))
    {
      selectedTermId := Some(SelectedIdOf(o));
    }

    /**
     * `handleUserSubmit`: with a selection and a non-empty signature, store
     * the signature on the terms with the selected id, persist the list and
     * move on; with no selection or an empty pad only the alert changes. The
     * employee's pad is rendered only while some term is pending; when it is
     * not mounted (`pad` is `None`) and a term is selected, the empty-pad test
     * is skipped and reading the unmounted pad throws a TypeError (`threw`),
     * leaving every field as it was.
     */
    method HandleUserSubmit(pad: Option<SignaturePad>) returns (threw: bool)
      requires Valid()
      modifies this, store
      ensures Valid() && selectedTermId == old(selectedTermId) && techForm == old(techForm)
      ensures store.nextId == old(store.nextId)
      ensures threw <==> old(selectedTermId).Some? && pad.None?
      ensures threw ==>
        && termos == old(termos) && currentStep == old(currentStep) && alert == old(alert)
        && store.termos == old(store.termos)
      ensures old(selectedTermId).None? ==>
        && termos == old(termos) && currentStep == old(currentStep) && store.termos == old(store.termos)
        && alert == Some(Alert(NoTermSelectedMessage, AlertError))
      ensures old(selectedTermId).Some? && pad.Some? && pad.value.empty ==>
        && termos == old(termos) && currentStep == old(currentStep) && store.termos == old(store.termos)
        && alert == Some(Alert(MissingUserSignatureMessage, AlertError))
      ensures old(selectedTermId).Some? && pad.Some? && !pad.value.empty ==>
        && termos == SignTerm(old(termos), old(selectedTermId).value, pad.value.dataUrl)
        && store.termos == Some(termos) && currentStep == Advanced(old(currentStep))
        && alert == Some(Alert(TermSignedMessage, AlertSuccess))
      ensures old(IdsFresh()) ==> IdsFresh()
    {
      if selectedTermId.None? {
        alert := Some(Alert(NoTermSelectedMessage, AlertError));
        return false;
      }
      if pad.Some? && pad.value.empty {
        alert := Some(Alert(MissingUserSignatureMessage, AlertError));
        return false;
      }
      if pad.None? {
        return true;
      }
      var updatedTerms := SignTerm(termos, selectedTermId.value, pad.value.dataUrl);
      termos := updatedTerms;
      store.SaveTerms(updatedTerms);
      alert := Some(Alert(TermSignedMessage, AlertSuccess));
      NextStep();
      if old(IdsFresh()) {
        SignKeepsIdsFresh(old(termos), selectedTermId.value, pad.value.dataUrl, CounterValue(store.nextId));
      }
      return false;
    }
  }

  /** Step 3 renders the employee's signature pad only while some term is pending. */
  predicate UserPadMounted(step: int, termos: seq<Term>)
  {
    step == 3 && Pending(termos) != []
  }

  /**
   * Choosing the placeholder selects id 0 rather than nothing, so the
   * "no term selected" guard does not fire: a non-empty signature then
   * reports success and advances the step while no term with a positive id
   * changes.
   */
  lemma {:induction false} PlaceholderBypassesSelectionGuard(ts: seq<Term>, sig: string)
    requires forall k :: 0 <= k < |ts| ==> ts[k].id > 0
    ensures SelectedIdOf(Placeholder) == 0
    ensures SignTerm(ts, SelectedIdOf(Placeholder), sig) == ts
  {
    var r := SignTerm(ts, SelectedIdOf(Placeholder), sig);
    forall k | 0 <= k < |ts| ensures r[k] == ts[k] {
      SignTermAt(ts, SelectedIdOf(Placeholder), sig, k);
    }
  }

  /**
   * The walk-through on an empty store, first half: a completed form with a
   * signed pad becomes term 1, unsigned, and the wizard reaches step 2.
   */
  method RegisterScenario()
  {
    var store := new LocalStorage(None, None);
    var w := new Wizard(store);
    w.techForm := TechForm("Ana", "Analista", "000", "Rua B", "Notebook", "X", "Y", "123", "", "");
    w.HandleTechSubmit(SignaturePad(false, "tec"), "2025-02-21");
    assert |w.termos| == 1 && w.termos[0].id == 1 && w.termos[0].assinaturaUsuario == "";
    assert w.currentStep == 2 && store.nextId == Some(2);
  }

  /**
   * Second half: with term 1 selected at step 3, an empty pad is refused and
   * changes nothing; a signed pad signs term 1, nothing stays pending, step 4.
   * Going back to step 3 then unmounts the pad (nothing is pending), and
   * submitting again throws without changing anything.
   */
  method SignScenario(t: Term)
    requires t.id == 1 && t.assinaturaUsuario == ""
  {
    var store := new LocalStorage(Some([t]), Some(2));
    var w := new Wizard(store);
    w.NextStep();
    w.NextStep();
    w.SelectTerm(TermOption(1));
    var threw := w.HandleUserSubmit(Some(SignaturePad(true, "")));
    assert !threw && w.termos == [t] && w.currentStep == 3;
    threw := w.HandleUserSubmit(Some(SignaturePad(false, "func")));
    SignTermAt([t], 1, "func", 0);
    assert w.termos == [Signed(t, "func")];
    assert Pending(w.termos) == [] && w.currentStep == 4;
    w.PrevStep();
    assert !UserPadMounted(w.currentStep, w.termos);
    var signed := w.termos;
    threw := w.HandleUserSubmit(None);
    assert threw && w.termos == signed && w.currentStep == 3;
  }
}
