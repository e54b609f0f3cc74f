/**
 * The training attendance sheet. Its two copies,
 * frontend/components/forms/FrequenciaTreinamentoForm.tsx and
 * frontend/app/controle-frequencia/page.tsx, hold the same state and the same
 * handlers, so one model covers both: a fixed table of 18 participants whose
 * text fields are edited by id, and a modal that captures one participant's
 * signature.
 */
module Attendance {
  import opened Wrappers
  import opened Canvas

  datatype Participant = Participant(id: int, nome: string, cpf: string, empresa: string, assinatura: string)

  /** The text fields a row of the table edits. */
  datatype Field = Nome | Cpf | Empresa

  const ParticipantCount := 18

  /** The table has 18 rows and row k holds the participant with id k + 1. */
  ghost predicate SeatsNumbered(ps: seq<Participant>)
  {
    |ps| == ParticipantCount && forall k :: 0 <= k < |ps| ==> ps[k].id == k + 1
  }

  predicate Blank(p: Participant)
  {
    p.nome == "" && p.cpf == "" && p.empresa == "" && p.assinatura == ""
  }

  /** `initialParticipants` */
  function InitialParticipants(): (r: seq<Participant>)
    ensures SeatsNumbered(r)
    ensures forall k :: 0 <= k < |r| ==> Blank(r[k])
  {
    seq(ParticipantCount, k => Participant(k + 1, "", "", "", ""))
  }

  function FieldOf(p: Participant, field: Field): string
  {
    match field
    case Nome => p.nome
    case Cpf => p.cpf
    case Empresa => p.empresa
  }

  /** `{ ...p, [field]: value }`: the named field takes the value, every other field stays. */
  function WithField(p: Participant, field: Field, value: string): (r: Participant)
    ensures FieldOf(r, field) == value
    ensures forall g :: g != field ==> FieldOf(r, g) == FieldOf(p, g)
    ensures r.id == p.id && r.assinatura == p.assinatura
  {
    match field
    case Nome => p.(nome := value)
    case Cpf => p.(cpf := value)
    case Empresa => p.(empresa := value)
  }

  /** The two per-participant updates: a text field edit, or a captured signature. */
  datatype Edit = SetField(field: Field, value: string) | SetSignature(dataUrl: string)

  function Apply(p: Participant, e: Edit): Participant
  {
    match e
    case SetField(field, value) => WithField(p, field, value)
    case SetSignature(dataUrl) => p.(assinatura := dataUrl)
  }

  /** `prev.map(p => p.id === id ? { ...p, <edit> } : p)` */
  function UpdateById(ps: seq<Participant>, id: int, e: Edit): (r: seq<Participant>)
    ensures |r| == |ps|
  {
    if ps == [] then []
    else [if ps[0].id == id then Apply(ps[0], e) else ps[0]] + UpdateById(ps[1..], id, e)
  }

  /** The update is applied position by position, to exactly the rows with the id. */
  lemma {:induction false} UpdateByIdAt(ps: seq<Participant>, id: int, e: Edit, k: int)
    requires 0 <= k < |ps|
    ensures UpdateById(ps, id, e)[k] == if ps[k].id == id then Apply(ps[k], e) else ps[k]
  {
    if k > 0 {
      UpdateByIdAt(ps[1..], id, e, k - 1);
    }
  }

  /** No edit changes an id, so the table keeps ids 1..18 in order. */
  lemma {:induction false} UpdateKeepsSeats(ps: seq<Participant>, id: int, e: Edit)
    requires SeatsNumbered(ps)
    ensures SeatsNumbered(UpdateById(ps, id, e))
  {
    var r := UpdateById(ps, id, e);
    forall k | 0 <= k < |r| ensures r[k].id == k + 1 {
      UpdateByIdAt(ps, id, e, k);
    }
  }

  /**
   * On a numbered table an edit by id touches the single row of that id and no
   * other; an id outside 1..18 changes nothing.
   */
  lemma {:induction false} UpdateTouchesOneSeat(ps: seq<Participant>, id: int, e: Edit)
    requires SeatsNumbered(ps)
    ensures UpdateById(ps, id, e) ==
      if 1 <= id <= ParticipantCount then ps[id - 1 := Apply(ps[id - 1], e)] else ps
  {
    var r := UpdateById(ps, id, e);
    var expected := if 1 <= id <= ParticipantCount then ps[id - 1 := Apply(ps[id - 1], e)] else ps;
    forall k | 0 <= k < |r| ensures r[k] == expected[k] {
      UpdateByIdAt(ps, id, e, k);
    }
  }

  /** A text edit changes only the named field of the matching row: no signature and no other field. */
  lemma {:induction false} FieldEditOnlyTouchesField(ps: seq<Participant>, id: int, field: Field, value: string)
    ensures var r := UpdateById(ps, id, SetField(field, value));
      forall k :: 0 <= k < |ps| ==>
        && r[k].id == ps[k].id && r[k].assinatura == ps[k].assinatura
        && FieldOf(r[k], field) == (if ps[k].id == id then value else FieldOf(ps[k], field))
        && forall g :: g != field ==> FieldOf(r[k], g) == FieldOf(ps[k], g)
  {
    forall k | 0 <= k < |ps| {
      UpdateByIdAt(ps, id, SetField(field, value), k);
    }
  }

  /** Storing a signature changes only `assinatura` of the matching row. */
  lemma {:induction false} SignatureEditOnlyTouchesSignature(ps: seq<Participant>, id: int, dataUrl: string)
    ensures var r := UpdateById(ps, id, SetSignature(dataUrl));
      forall k :: 0 <= k < |ps| ==>
        && r[k].(assinatura := "") == ps[k].(assinatura := "")
        && r[k].assinatura == (if ps[k].id == id then dataUrl else ps[k].assinatura)
  {
    forall k | 0 <= k < |ps| {
      UpdateByIdAt(ps, id, SetSignature(dataUrl), k);
    }
  }

  /** The component state of the attendance page. */
  class AttendanceSheet {
    var participants: seq<Participant>
    var modalOpen: bool
    var selectedParticipantId: Option<int>

    ghost predicate Valid()
      reads this
    {
      SeatsNumbered(participants)
    }

    constructor ()
      ensures Valid() && participants == InitialParticipants()
      ensures !modalOpen && selectedParticipantId == None
    {
      participants := InitialParticipants();
      modalOpen := false;
      selectedParticipantId := None;
    }

    /** `handleInputChange`: edit one text field of the participant with the id. */
    method HandleInputChange(participantId: int, field: Field, value: string)
      requires Valid()
      modifies this`participants
      ensures Valid()
      ensures participants == UpdateById(old(participants), participantId, SetField(field, value))
    {
      participants := UpdateById(participants, participantId, SetField(field, value));
      UpdateKeepsSeats(old(participants), participantId, SetField(field, value));
    }

    /** `openSignatureModal`: remember the participant and open the modal. */
    method OpenSignatureModal(participantId: int)
      modifies this`modalOpen, this`selectedParticipantId
      ensures selectedParticipantId == Some(participantId) && modalOpen
    {
      selectedParticipantId := Some(participantId);
      modalOpen := true;
    }

    /**
     * `saveSignature`: store the pad's drawing on the selected participant
     * only when the pad is mounted, not empty, and a participant is selected;
     * in every case close the modal and clear the selection.
     */
    method SaveSignature(pad: Option<SignaturePad>)
      requires Valid()
      modifies this
      ensures Valid() && !modalOpen && selectedParticipantId == None
      ensures participants ==
        if pad.Some? && !pad.value.empty && old(selectedParticipantId).Some?
        then UpdateById(old(participants), old(selectedParticipantId).value, SetSignature(pad.value.dataUrl))
        else old(participants)
    {
      if pad.Some? && !pad.value.empty && selectedParticipantId.Some? {
        var dataUrl := pad.value.dataUrl;
        participants := UpdateById(participants, selectedParticipantId.value, SetSignature(dataUrl));
        UpdateKeepsSeats(old(participants), selectedParticipantId.value, SetSignature(dataUrl));
      }
      modalOpen := false;
      selectedParticipantId := None;
    }
  }

  /** Opening the modal for participant 3 and saving a drawing signs row 3 only, then closes. */
  method SignOneParticipantScenario()
  {
    var sheet := new AttendanceSheet();
    sheet.OpenSignatureModal(3);
    sheet.SaveSignature(Some(SignaturePad(false, "sig")));
    UpdateTouchesOneSeat(InitialParticipants(), 3, SetSignature("sig"));
    assert sheet.participants[2].assinatura == "sig" && sheet.participants[3] == InitialParticipants()[3];
    assert !sheet.modalOpen && sheet.selectedParticipantId == None;
  }
}
