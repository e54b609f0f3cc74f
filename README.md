# Document portal: term wizard, asset store and attendance sheet in Dafny

This project models the three pieces of the document/training portal that hold
real logic, and proves properties of each.

- **Equipment-responsibility term wizard** (`frontend/app/termo/page.tsx`).
  This is a four-step page. At step 1 the technician registers a term and signs it.
  Step 2 previews the registration form, which a successful registration has already reset to
  blank. At step 3 the employee signs a pending term. Step 4 shows the result.
  Terms and an id counter persist in `localStorage`.
  - Modules: `TermRecords` (the pure list transforms: validation test, new term, pending filter,
    find by id, signing `map`), `TermStore` (the browser store as a class with the two keys
    "termos" and "nextId") and `TermWizard` (the page state as class `Wizard`, one method per handler).
- **Asset store** (`backend/main.py`). This is the in-memory list `banco_de_ativos` behind the
  REST handlers, modelled as class `Ativos.AtivoStore` over a `seq`. The handlers list, create,
  get, replace and delete assets; all but the listing scan the list with a loop. An `HTTPException`
  becomes a `Failure(HttpError(status, detail))`.
- **Attendance sheet** (`frontend/components/forms/FrequenciaTreinamentoForm.tsx` and
  `frontend/app/controle-frequencia/page.tsx`). The two files hold the same state and
  handlers, so the single module `Attendance` models both.
  The sheet is a fixed table of 18 participants with ids 1..18.
  Its text fields are edited by id, and a modal captures one participant's signature.

The signature widget is a `Canvas.SignaturePad`: whether the canvas is empty, and the data
URL it would produce. The clock (`new Date().toISOString()`) is a `now` parameter.

Behaviour of the code that the model keeps as written:

- `handleUserSubmit` does not check that the selected term is still unsigned. Signing an
  already-signed term again overwrites its employee signature (`TermRecords.ResigningOverwrites`).
  A design that promises "signed once, never reassigned" relies on the selector listing only
  pending terms. The selected id stays set after signing, and the user can step back to step 3.
- The selector's placeholder option has the value `""`, and `Number("")` is 0, not null.
  Choosing it passes the "no term selected" guard. A non-empty signature then reports success and
  advances the step, while no term with a positive id changes
  (`TermWizard.PlaceholderBypassesSelectionGuard`).
- `atualizar_ativo` never compares the payload's id with the path id. Create and delete keep
  stored ids distinct, but an update can duplicate an id (`Ativos.UpdateCanDuplicateIds`).
  `Ativos.UpdateKeepsIdsUniqueIff` gives the exact condition under which an update keeps ids distinct.
- Ids in memory are fresh if the stored counter is ahead of every stored id. The model
  states this as the predicate `Wizard.IdsFresh` and proves that both submit handlers
  preserve it. It cannot hold unconditionally, because the page trusts whatever storage holds.

## Model

| member | source | states |
|---|---|---|
| `TermStore.LocalStorage.LoadTerms` | frontend/app/termo/page.tsx:59-62 | loading never fails: the stored list, or the empty list when the key is absent |
| `TermStore.LocalStorage.SaveTerms` | frontend/app/termo/page.tsx:64-66 | key "termos" holds the list; loading afterwards returns exactly that list; the counter is untouched |
| `TermStore.LocalStorage.GetNextId` | frontend/app/termo/page.tsx:68-73 | returns the stored counter (1 when absent) and stores its successor, so the next call returns the next integer; the terms key is untouched |
| `TermWizard.Wizard.constructor` | frontend/app/termo/page.tsx:224-243 | after mounting: step 1, blank form, no alert, no selection, terms loaded from storage |
| `TermWizard.Advanced` | frontend/app/termo/page.tsx:278 | the next step is the minimum of step + 1 and 4: at most both, and equal to one of them |
| `TermWizard.Retreated` | frontend/app/termo/page.tsx:279 | the previous step is the maximum of step - 1 and 1: at least both, and equal to one of them |
| `TermWizard.Wizard.NextStep` | frontend/app/termo/page.tsx:278 | step becomes min(step + 1, 4) and stays in 1..4 |
| `TermWizard.Wizard.PrevStep` | frontend/app/termo/page.tsx:279 | step becomes max(step - 1, 1) and stays in 1..4 |
| `TermWizard.StepsStayInRange` | frontend/app/termo/page.tsx:278-279 | both moves keep the step in 1..4; advancing is a no-op exactly at 4, retreating exactly at 1 |
| `TermWizard.RetreatUndoesAdvance` | frontend/app/termo/page.tsx:278-279 | from steps 1..3, going forward then back returns to the same step |
| `TermWizard.AdvanceUndoesRetreat` | frontend/app/termo/page.tsx:278-279 | from steps 2..4, going back then forward returns to the same step |
| `TermWizard.WithTechField` | frontend/app/termo/page.tsx:302 | the named input takes the value; the other eight inputs and the technician's signature stay |
| `TermWizard.Wizard.HandleTechChange` | frontend/app/termo/page.tsx:300-303 | exactly the named form input takes the new value |
| `TermWizard.Wizard.ValidateTechForm` | frontend/app/termo/page.tsx:282-297 | passes iff the eight required fields are non-empty; on failure the "missing fields" error alert is raised, otherwise the alert is unchanged |
| `TermRecords.RequiredFilledIffNoEmptyField` | frontend/app/termo/page.tsx:283-292 | the check passes exactly when none of nome_funcionario, cargo, cpf, endereco_funcionario, tipo_equipamento, marca, modelo, numero_serie is empty |
| `TermRecords.UncheckedFields` | frontend/app/termo/page.tsx:283-292 | the accessories and technician-signature fields never affect the check |
| `TermRecords.InitialFormFails` | frontend/app/termo/page.tsx:43-54 | the blank initial form never passes the check |
| `TermRecords.NewTerm` | frontend/app/termo/page.tsx:317-331 | the new term carries the form's nine data fields, the allocated id, the technician's signature, the timestamp and an empty employee signature |
| `TermWizard.Wizard.HandleTechSubmit` | frontend/app/termo/page.tsx:309-339 | failed validation or an empty pad: only the alert changes (terms, step, form, store and counter stay, no id used); success: exactly one new term appended at the end with the counter's id, the same list saved, counter advanced, form reset, step advanced, success alert; preserves `IdsFresh` |
| `TermRecords.CommitKeepsIdsFresh` | frontend/app/termo/page.tsx:318-332 | if the counter exceeds every id, the new id differs from every existing id, ids keep strictly increasing, and all stay below the next counter |
| `TermRecords.CommittedTermIsPending` | frontend/app/termo/page.tsx:329-332 | the appended term joins the end of the pending list |
| `TermWizard.Wizard.SelectTerm` | frontend/app/termo/page.tsx:582-588 | the selection becomes the chosen option's number (0 for the placeholder) |
| `TermWizard.PlaceholderBypassesSelectionGuard` | frontend/app/termo/page.tsx:584-588 | the placeholder yields a present selection (0), and signing with it changes no term whose id is positive |
| `TermWizard.Wizard.HandleUserSubmit` | frontend/app/termo/page.tsx:346-367 | no selection, or a mounted pad that is empty: only the alert changes; a selection with the pad not mounted (nothing pending, page.tsx:576-612): the read of the missing pad throws and nothing changes, not even the alert; otherwise the list becomes the signing map of the old list, the same list is saved, the step advances, success alert; counter, form and selection stay; preserves `IdsFresh` |
| `TermRecords.SignTerm` | frontend/app/termo/page.tsx:357-362 | the `map` yields one term per input term (contents position by position in `SignTermAt`) |
| `TermRecords.SignTermAt` | frontend/app/termo/page.tsx:357-362 | position by position, terms with the selected id get the new employee signature and every other term is unchanged; length and order preserved |
| `TermRecords.SignTermKeepsOtherFields` | frontend/app/termo/page.tsx:357-362 | signing changes no field but `assinatura_usuario` |
| `TermRecords.SignTermLeavesPending` | frontend/app/termo/page.tsx:357-362 | after a non-empty signature no term with that id is pending, and every other pending term still is |
| `TermRecords.SignKeepsIdsFresh` | frontend/app/termo/page.tsx:357-362 | signing changes no id, so increasing ids below the counter stay so |
| `TermRecords.ResigningOverwrites` | frontend/app/termo/page.tsx:346-362 | a term already signed (no longer pending) can be signed again, and its employee signature is replaced |
| `TermRecords.Pending` | frontend/app/termo/page.tsx:443 | `termosPendentes`: every pending term is in the list with an empty employee signature, and every such term is pending |
| `TermRecords.PendingAppend` | frontend/app/termo/page.tsx:443 | the filter preserves order: filtering a concatenation concatenates the filtered parts |
| `TermRecords.FindById` | frontend/app/termo/page.tsx:444 | absent iff no term has the id; otherwise a term with the id, at a position before which no term has it (the first) |
| `TermRecords.SelectedTerm` | frontend/app/termo/page.tsx:444 | `selectedTerm`: a found term is in the list and has the selected id; with a selection that some term has, a term is found |
| `Ativos.FirstIndex` | backend/main.py:53-55 | the position where a scan stops: absent iff no asset has the id, otherwise an asset with the id before which none has it |
| `Ativos.RemoveAt` | backend/main.py:70 | `del` at i: one element shorter, elements before i unchanged, elements after i shifted down by one |
| `Ativos.AtivoStore.constructor` | backend/main.py:35 | the store starts empty |
| `Ativos.AtivoStore.ListarAtivos` | backend/main.py:37-39 | returns the stored list unchanged |
| `Ativos.AtivoStore.CriarAtivo` | backend/main.py:41-49 | an id already stored: 400 and no change; otherwise the asset is appended at the end and returned |
| `Ativos.AtivoStore.ObterAtivo` | backend/main.py:51-56 | the first asset with the id, or 404; the list is not modified |
| `Ativos.AtivoStore.AtualizarAtivo` | backend/main.py:58-64 | only the first matching position is overwritten, with the payload exactly as given; length and other positions unchanged; 404 and no change if no asset has the id |
| `Ativos.AtivoStore.DeletarAtivo` | backend/main.py:66-72 | exactly the first matching asset is removed and the rest keep their order; 404 and no change if no asset has the id |
| `Ativos.CreateKeepsIdsUnique` | backend/main.py:43-48 | a successful create keeps stored ids pairwise distinct |
| `Ativos.DeleteKeepsIdsUnique` | backend/main.py:68-71 | a delete keeps stored ids pairwise distinct |
| `Ativos.UpdateKeepsIdsUniqueIff` | backend/main.py:60-63 | with distinct ids, an update keeps them distinct iff the payload's id occurs at no other position |
| `Ativos.UpdateCanDuplicateIds` | backend/main.py:60-63 | there is a list with distinct ids and an update that leaves two assets with the same id |
| `Ativos.GetAfterCreate` | backend/main.py:48-55 | after a successful create, a get for that id finds the new asset at the end |
| `Ativos.GetAfterUpdate` | backend/main.py:58-63 | after an update whose payload keeps the id, a get for that id stops at the same position, which now holds the payload |
| `Ativos.GetAfterDelete` | backend/main.py:66-72 | with distinct ids, after a delete a get for that id answers 404 |
| `Attendance.InitialParticipants` | frontend/components/forms/FrequenciaTreinamentoForm.tsx:19-25 | 18 participants, row k with id k + 1, every text and signature field empty |
| `Attendance.WithField` | frontend/components/forms/FrequenciaTreinamentoForm.tsx:60 | the named field takes the value; the other text fields, the id and the signature stay |
| `Attendance.UpdateById` | frontend/components/forms/FrequenciaTreinamentoForm.tsx:59-78 | both `map`s (text edit at 60, signature at 75-77) yield one participant per input participant (contents position by position in `UpdateByIdAt`) |
| `Attendance.UpdateByIdAt` | frontend/app/controle-frequencia/page.tsx:64-66 | the `map` applies the edit to exactly the rows with the id and leaves the others; length and order preserved |
| `Attendance.UpdateKeepsSeats` | frontend/app/controle-frequencia/page.tsx:64-83 | no edit changes an id, so the table keeps ids 1..18 in order |
| `Attendance.UpdateTouchesOneSeat` | frontend/components/forms/FrequenciaTreinamentoForm.tsx:59-61 | on the numbered table an edit by id changes only row id - 1, and an id outside 1..18 changes nothing |
| `Attendance.FieldEditOnlyTouchesField` | frontend/app/controle-frequencia/page.tsx:59-67 | a text edit changes only the named field of the matching participant; ids, signatures and other fields stay |
| `Attendance.SignatureEditOnlyTouchesSignature` | frontend/app/controle-frequencia/page.tsx:79-83 | storing a signature changes only `assinatura` of the matching participant |
| `Attendance.AttendanceSheet.constructor` | frontend/components/forms/FrequenciaTreinamentoForm.tsx:29-32 | the initial table, modal closed, nothing selected |
| `Attendance.AttendanceSheet.HandleInputChange` | frontend/components/forms/FrequenciaTreinamentoForm.tsx:54-62 | the table becomes the text-edit map of the old one and keeps ids 1..18 |
| `Attendance.AttendanceSheet.OpenSignatureModal` | frontend/app/controle-frequencia/page.tsx:70-73 | the participant is selected and the modal is open |
| `Attendance.AttendanceSheet.SaveSignature` | frontend/components/forms/FrequenciaTreinamentoForm.tsx:71-82 | the signature is stored on the selected participant only when the pad is mounted, non-empty and a participant is selected, otherwise the table is unchanged; always ends with the modal closed and no selection; ids stay 1..18 |

## Left out

- PDF export (`exportToPDF` and the two `exportTerm` effects) and the `exportTerm`/`modalTerm` state: these are calls into html2canvas and jsPDF, they are asynchronous, and they size the image in floating point.
- Signature capture: the drawing, trimming and PNG encoding are done by the canvas widget. Clearing a canvas (`clearTechSignature`, `clearUserSignature`, `clearSignature`) has no effect on the modelled state.
- Storage encoding: the JSON text under "termos" and the decimal text under "nextId" (`JSON.parse`, `JSON.stringify`, `parseInt`). Malformed stored strings are not modelled.
- Timestamps and locale formatting: the creation time is the `now` parameter.
- Rendering: `renderPreview`, `StepIndicator`, `TermModal`, the alert banner, animations, and `shareViaEmail`.
- The login page, the home dashboard, the navigation bar, the calendar widget, the document editor and the document-section components: they hold markup and event pass-through only.
- FastAPI plumbing: CORS, routing and pydantic validation of request bodies. The `Ativo` default values are not applied.
- Ativos.AtivoStore.ListarAtivos: returns the list's value; the source returns the list object itself, so later aliasing of that object is not modelled.
- TermWizard.Wizard.HandleTechSubmit: assumes the technician's pad is mounted, which holds because the pad is rendered inside the form being submitted. With no pad, the source would fail at `getTrimmedCanvas`.
- Id width: ids and the counter are JavaScript doubles (page.tsx:70-71), so past 2^53 `id + 1` equals `id` and `getNextId` would hand out the same id twice. The model uses unbounded integers, so `TermStore.LocalStorage.GetNextId` and `TermRecords.CommitKeepsIdsFresh` do not cover counters that large.
