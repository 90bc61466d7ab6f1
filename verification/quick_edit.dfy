/**
 The quick-edit dialog for one appointment: the radio list of statuses, the
 status chosen so far, the submit-button guard and the partial update that
 submitting hands to the caller's `onUpdate`.
 */
module QuickEditAppointment {
  import opened Wrappers
  import opened Entities
  import Calendar

  /** The partial record passed to `onUpdate`: `status`, and `pago` only when present. */
  datatype Patch = Patch(status: string, pago: Option<bool>)

  /** `{ status: newStatus, ...(newStatus === 'concluido' && { pago: true }) }` */
  function StatusPatch(novo: string): (p: Patch)
    ensures p.status == novo
    ensures p.pago.Some? <==> novo == Concluido
    ensures p.pago.Some? ==> p.pago.value
  {
    Patch(novo, if novo == Concluido then Some(true) else None)
  }

  /** Spreading a patch over a record: the fields it carries replace the record's. */
  function Apply(a: Agendamento, p: Patch): Agendamento
  {
    a.(status := p.status, pago := p.pago.GetOr(a.pago))
  }

  /**
   Applying a status patch sets the status, marks the appointment paid when it
   is completed, and otherwise leaves `pago` as it was (a paid appointment is
   never marked unpaid); no other field changes.
   */
  lemma StatusPatchEffect(a: Agendamento, novo: string)
    ensures var r := Apply(a, StatusPatch(novo));
      && r.status == novo
      && r.pago == (novo == Concluido || a.pago)
      && r.(status := a.status, pago := a.pago) == a
  {
  }

  /** One radio button: the status it selects, its label and its colour. */
  datatype OpcaoStatus = OpcaoStatus(valor: string, rotulo: string, cor: string)

  const Opcoes: seq<OpcaoStatus> := [
    OpcaoStatus(Agendado, "Agendado", "#ed8936"),
    OpcaoStatus(Confirmado, "Confirmado", "#48bb78"),
    OpcaoStatus(EmAndamento, "Em Andamento", "#00bcd4"),
    OpcaoStatus(Concluido, "Concluído", "#38a169"),
    OpcaoStatus(Cancelado, "Cancelado", "#e53e3e")]

  /**
   The radio list offers each of the five statuses exactly once, and each in
   the colour the calendar gives it.
   */
  lemma OpcoesCoverStatuses()
    ensures |Opcoes| == |Statuses|
    ensures forall s :: s in Statuses <==> exists i :: 0 <= i < |Opcoes| && Opcoes[i].valor == s
    ensures forall i, j :: 0 <= i < j < |Opcoes| ==> Opcoes[i].valor != Opcoes[j].valor
    ensures forall i :: 0 <= i < |Opcoes| ==> Opcoes[i].cor == Calendar.CorStatus(Opcoes[i].valor)
  {
    forall s | s in Statuses ensures exists i :: 0 <= i < |Opcoes| && Opcoes[i].valor == s {
      if s == Agendado { assert Opcoes[0].valor == s; }
      else if s == Confirmado { assert Opcoes[1].valor == s; }
      else if s == EmAndamento { assert Opcoes[2].valor == s; }
      else if s == Concluido { assert Opcoes[3].valor == s; }
      else { assert Opcoes[4].valor == s; }
    }
  }

  /** The dialog's state: the appointment shown, the status chosen, whether a submit is in flight. */
  datatype Editor = Editor(appointment: Option<Agendamento>, novoStatus: string, atualizando: bool)

  /** Before any appointment is shown the chosen status is `agendado`. */
  const Inicial: Editor := Editor(None, Agendado, false)

  /**
   The dialog receives its appointment prop. The effect that resets the
   choice depends on the prop's identity, so it runs only when `mudou`, that
   is when the prop is a different object from the one the dialog last
   received; it then resets the choice to a present appointment's status.
   Re-showing the same object (the page keeps its selection after Cancelar,
   which only hides the dialog) keeps whatever was chosen before.
   */
  function Abrir(e: Editor, appointment: Option<Agendamento>, mudou: bool): (r: Editor)
    ensures r.appointment == appointment && r.atualizando == e.atualizando
    ensures mudou && appointment.Some? ==> r.novoStatus == appointment.value.status
    ensures !mudou || appointment.None? ==> r.novoStatus == e.novoStatus
  {
    if mudou && appointment.Some? then e.(appointment := appointment, novoStatus := appointment.value.status)
    else e.(appointment := appointment)
  }

  /** Clicking a radio button: any option may be chosen, whatever the current status. */
  function Escolher(e: Editor, i: nat): (r: Editor)
    requires i < |Opcoes|
    ensures r.novoStatus == Opcoes[i].valor && r.novoStatus in Statuses
    ensures r.appointment == e.appointment && r.atualizando == e.atualizando
  {
    e.(novoStatus := Opcoes[i].valor)
  }

  /** The submit button is enabled: an appointment is shown, no submit is in flight, the status differs. */
  predicate Habilitado(e: Editor)
  {
    e.appointment.Some? && !e.atualizando && e.novoStatus != e.appointment.value.status
  }

  /** `handleUpdateStatus`: nothing without an appointment, else the id and the status patch. */
  function HandleUpdateStatus(e: Editor): (pedido: Option<(string, Patch)>)
    ensures pedido.None? <==> e.appointment.None?
    ensures pedido.Some? ==> pedido.value.0 == e.appointment.value.id && pedido.value.1 == StatusPatch(e.novoStatus)
  {
    match e.appointment
    case None => None
    case Some(a) => Some((a.id, StatusPatch(e.novoStatus)))
  }

  /**
   Pressing the submit button: a disabled button issues nothing; an enabled
   one issues the update and marks the dialog as updating.
   */
  function Submeter(e: Editor): (r: (Editor, Option<(string, Patch)>))
    ensures r.1.Some? <==> Habilitado(e)
    ensures r.1.Some? ==> r.1 == Some((e.appointment.value.id, StatusPatch(e.novoStatus)))
    ensures r.1.Some? ==> r.1.value.1.status != e.appointment.value.status
    ensures r.1.Some? ==> r.0 == e.(atualizando := true)
    ensures r.1.None? ==> r.0 == e
  {
    if Habilitado(e) then (e.(atualizando := true), HandleUpdateStatus(e)) else (e, None)
  }

  /** The `finally` of `handleUpdateStatus`: the dialog is no longer updating. */
  function Concluir(e: Editor): (r: Editor)
    ensures !r.atualizando && r.appointment == e.appointment && r.novoStatus == e.novoStatus
  {
    e.(atualizando := false)
  }

  /** Right after a new appointment object is received, submitting issues nothing: its status is unchanged. */
  lemma OpenedIsNoOp(e: Editor, a: Agendamento)
    ensures Submeter(Abrir(e, Some(a), true)).1.None?
  {
  }

  /**
   Choosing another status, pressing Cancelar and showing the same
   appointment object again keeps the earlier choice: the submit button is
   enabled and pressing it issues that choice's patch.
   */
  lemma ReopenKeepsChoice(e: Editor, a: Agendamento, i: nat)
    requires i < |Opcoes| && !e.atualizando && Opcoes[i].valor != a.status
    ensures var reaberto := Abrir(Escolher(Abrir(e, Some(a), true), i), Some(a), false);
      && reaberto.novoStatus == Opcoes[i].valor
      && Submeter(reaberto).1 == Some((a.id, StatusPatch(Opcoes[i].valor)))
  {
  }

  /** A second press while the first update is in flight issues nothing. */
  lemma NoDoubleSubmit(e: Editor)
    ensures Submeter(Submeter(e).0).1.None?
  {
  }

  /**
   No transition is rejected: from any shown appointment, choosing any other
   status and submitting issues exactly that status's patch.
   */
  lemma EveryTransitionIssued(e: Editor, a: Agendamento, i: nat)
    requires i < |Opcoes| && !e.atualizando && Opcoes[i].valor != a.status
    ensures Submeter(Escolher(Abrir(e, Some(a), true), i)).1 == Some((a.id, StatusPatch(Opcoes[i].valor)))
  {
  }
}
