/**
 * The "new equipment" dialog: the owner's clients to choose from, five text fields,
 * a submit button that needs a client, and the insert with reset on success.
 */
module CreateEquipment {
  import opened Wrappers
  import opened Schema
  import opened Tables
  import opened Equipments

  /** The dialog's text inputs; the client is chosen with a selector. */
  datatype EquipmentField = Kind | Brand | Model | SerialNumber | Observations

  function FieldText(f: EquipmentForm, field: EquipmentField): string {
    match field
    case Kind => f.kind
    case Brand => f.brand
    case Model => f.model
    case SerialNumber => f.serialNumber
    case Observations => f.observations
  }

  /** An input's `onChange`: `{ ...formData, field: value }`; the client stays. */
  function WithField(f: EquipmentForm, field: EquipmentField, v: string): (g: EquipmentForm)
    ensures FieldText(g, field) == v && g.clientId == f.clientId
    ensures forall other :: other != field ==> FieldText(g, other) == FieldText(f, other)
  {
    match field
    case Kind => f.(kind := v)
    case Brand => f.(brand := v)
    case Model => f.(model := v)
    case SerialNumber => f.(serialNumber := v)
    case Observations => f.(observations := v)
  }

  /** The submit button's `disabled`: while saving or while no client is chosen. */
  function SubmitDisabled(isLoading: bool, f: EquipmentForm): (disabled: bool)
    ensures !disabled <==> !isLoading && f.clientId != ""
  {
    isLoading || f.clientId == ""
  }

  /** `{ ...formData, user_id }`: every field as typed, "" included, and the owner. */
  function EquipmentInsertOf(f: EquipmentForm, userId: Id): (ins: EquipmentInsert)
    ensures ins.kind == f.kind && ins.clientId == f.clientId && ins.userId == userId
    ensures ins.brand == Some(f.brand) && ins.model == Some(f.model)
    ensures ins.serialNumber == Some(f.serialNumber) && ins.observations == Some(f.observations)
  {
    EquipmentInsert(f.kind, Some(f.brand), Some(f.model), Some(f.serialNumber),
                    Some(f.observations), f.clientId, userId)
  }

  /**
   * Equipment created through this dialog opens in the edit dialog with exactly the
   * form it was created from, and saving that form unchanged leaves its row as it is.
   */
  lemma {:induction false} CreatedEquipmentEditsBack(f: EquipmentForm, userId: Id, id: Id, now: Date,
                                                     clientName: string)
    ensures var row := EquipmentFromInsert(EquipmentInsertOf(f, userId), id, now);
            EquipmentEditPrefill(Joined(row, clientName)) == f
    ensures var row := EquipmentFromInsert(EquipmentInsertOf(f, userId), id, now);
            ApplyEquipmentUpdate(row, EquipmentFormUpdate(EquipmentEditPrefill(Joined(row, clientName)))) == row
  {
    var row := EquipmentFromInsert(EquipmentInsertOf(f, userId), id, now);
    UnchangedEquipmentEdit(row, clientName);
  }

  /** An entry of the client selector (`select('id, name')`). */
  datatype ClientOption = ClientOption(id: Id, name: string)

  class CreateEquipmentModal {
    var open: bool
    var isLoading: bool
    var clients: seq<ClientOption>
    var form: EquipmentForm

    constructor ()
      ensures !open && !isLoading && clients == [] && form == EmptyEquipmentForm
    {
      open, isLoading := false, false;
      clients := [];
      form := EmptyEquipmentForm;
    }

    /** `loadClients`: the owner's clients, unless there is no user or the query fails. */
    method LoadClients(user: Option<Id>, rows: seq<ClientOption>, listFails: bool)
      modifies this`clients
      ensures clients == if user.Some? && !listFails then rows else old(clients)
    {
      if user.Some? && !listFails {
        clients := rows;
      }
    }

    /** The client selector. */
    method SelectClient(clientId: string)
      modifies this`form
      ensures form == old(form).(clientId := clientId)
    {
      form := form.(clientId := clientId);
    }

    /** Typing into one of the text inputs. */
    method Edit(field: EquipmentField, v: string)
      modifies this`form
      ensures form == WithField(old(form), field, v)
    {
      form := WithField(form, field, v);
    }

    /**
     * `handleSubmit`: no insert without a user; the database refuses a client that
     * does not exist; on success the form is reset and the dialog closes, on failure
     * both are kept.
     */
    method HandleSubmit(store: Store, user: Option<Id>, newId: Id, now: Date, insertFails: bool)
      returns (ok: bool)
      requires store.Valid()
      modifies this`open, this`isLoading, this`form, store`equipments
      ensures store.Valid()
      ensures !isLoading
      ensures ok <==> && user.Some? && !insertFails && newId !in old(store.equipments)
                      && old(form).clientId in store.clients
      ensures ok ==> store.equipments == old(store.equipments)[newId :=
                       EquipmentFromInsert(EquipmentInsertOf(old(form), user.value), newId, now)]
      ensures ok ==> form == EmptyEquipmentForm && !open
      ensures !ok ==> store.equipments == old(store.equipments) && form == old(form) && open == old(open)
    {
      isLoading := true;
      if user.None? || insertFails {
        ok := false;
        isLoading := false;
        return;
      }
      ok := store.InsertEquipment(EquipmentInsertOf(form, user.value), newId, now);
      if ok {
        form := EmptyEquipmentForm;
        open := false;
      }
      isLoading := false;
    }
  }
}
