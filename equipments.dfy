/**
 * The equipment screen: the brand/model and serial-number cells of the list, and
 * the edit form's prefill and update.
 */
module Equipments {
  import opened Wrappers
  import opened Schema
  import opened Tables

  /** JavaScript truthiness of a nullable text: present and not "". */
  predicate Present(o: Option<string>) {
    o.Some? && o.value != ""
  }

  /** The brand/model cell: "brand model", the one present, or "-". */
  function BrandModelCell(brand: Option<string>, model: Option<string>): (r: string)
    ensures Present(brand) && Present(model) ==> r == brand.value + " " + model.value
    ensures Present(brand) && !Present(model) ==> r == brand.value
    ensures !Present(brand) && Present(model) ==> r == model.value
    ensures !Present(brand) && !Present(model) ==> r == "-"
    ensures r != ""
  {
    if Present(brand) && Present(model) then brand.value + " " + model.value
    else if Present(brand) then brand.value
    else if Present(model) then model.value
    else "-"
  }

  /** The serial-number cell: the number, or "-" when it is missing or "". */
  function SerialCell(serial: Option<string>): (r: string)
    ensures Present(serial) ==> r == serial.value
    ensures !Present(serial) ==> r == "-"
    ensures r != ""
  {
    if Present(serial) then serial.value else "-"
  }

  /** The client columns joined to a listed equipment (`clients (id, name)`). */
  datatype JoinedClient = JoinedClient(id: Id, name: string)

  datatype ListedEquipment = ListedEquipment(row: EquipmentRow, client: JoinedClient)

  /** A stored equipment joined with its client's row through `client_id`. */
  function Joined(row: EquipmentRow, clientName: string): (e: ListedEquipment)
    ensures e.row == row && e.client.id == row.clientId
  {
    ListedEquipment(row, JoinedClient(row.clientId, clientName))
  }

  /** The edit dialog's six fields, all plain strings. */
  datatype EquipmentForm = EquipmentForm(
    kind: string, brand: string, model: string, serialNumber: string,
    observations: string, clientId: string)

  const EmptyEquipmentForm := EquipmentForm("", "", "", "", "", "")

  /** `handleEdit`: missing optional texts become ""; the client comes from the join. */
  function EquipmentEditPrefill(e: ListedEquipment): (f: EquipmentForm)
    ensures f.kind == e.row.kind && f.clientId == e.client.id
    ensures f.brand == e.row.brand.GetOr("") && f.model == e.row.model.GetOr("")
    ensures f.serialNumber == e.row.serialNumber.GetOr("")
    ensures f.observations == e.row.observations.GetOr("")
  {
    EquipmentForm(e.row.kind, e.row.brand.GetOr(""), e.row.model.GetOr(""),
                  e.row.serialNumber.GetOr(""), e.row.observations.GetOr(""), e.client.id)
  }

  /** `update(editFormData)`: the six fields as typed, "" included. */
  function EquipmentFormUpdate(f: EquipmentForm): (u: EquipmentUpdate)
    ensures u.kind == f.kind && u.clientId == f.clientId
    ensures u.brand == Some(f.brand) && u.model == Some(f.model)
    ensures u.serialNumber == Some(f.serialNumber) && u.observations == Some(f.observations)
  {
    EquipmentUpdate(f.kind, Some(f.brand), Some(f.model), Some(f.serialNumber),
                    Some(f.observations), f.clientId)
  }

  /**
   * Prefill then update with no edits keeps the type and the client and writes every
   * optional text back, a null one as ""; the row is unchanged exactly when none of
   * the four optional texts was null.
   */
  lemma UnchangedEquipmentEdit(row: EquipmentRow, clientName: string)
    ensures var r := ApplyEquipmentUpdate(row, EquipmentFormUpdate(EquipmentEditPrefill(Joined(row, clientName))));
            && r.kind == row.kind && r.clientId == row.clientId
            && r.brand == Some(row.brand.GetOr("")) && r.model == Some(row.model.GetOr(""))
            && r.serialNumber == Some(row.serialNumber.GetOr(""))
            && r.observations == Some(row.observations.GetOr(""))
    ensures ApplyEquipmentUpdate(row, EquipmentFormUpdate(EquipmentEditPrefill(Joined(row, clientName)))) == row
        <==> row.brand.Some? && row.model.Some? && row.serialNumber.Some? && row.observations.Some?
  {
  }

  class EquipmentsPage {
    var editingEquipment: Option<ListedEquipment>
    var editForm: EquipmentForm
    var isEditModalOpen: bool
    var isUpdating: bool

    constructor ()
      ensures editingEquipment == None && editForm == EmptyEquipmentForm
      ensures !isEditModalOpen && !isUpdating
    {
      editingEquipment := None;
      editForm := EmptyEquipmentForm;
      isEditModalOpen := false;
      isUpdating := false;
    }

    /** `handleEdit`: remember the equipment, prefill the form, open the dialog. */
    method HandleEdit(e: ListedEquipment)
      modifies this
      ensures editingEquipment == Some(e) && editForm == EquipmentEditPrefill(e)
      ensures isEditModalOpen && isUpdating == old(isUpdating)
    {
      editingEquipment := Some(e);
      editForm := EquipmentEditPrefill(e);
      isEditModalOpen := true;
    }

    /**
     * `handleUpdate`: without an equipment being edited nothing happens; otherwise the
     * six fields are written to the row with the edited id, and the dialog closes only
     * when the database accepts the update.
     */
    method HandleUpdate(store: Store, updateFails: bool) returns (ok: bool)
      requires store.Valid()
      modifies this, store`equipments
      ensures store.Valid()
      ensures old(editingEquipment).None? ==>
        !ok && store.equipments == old(store.equipments)
        && isEditModalOpen == old(isEditModalOpen) && isUpdating == old(isUpdating)
      ensures old(editingEquipment).Some? ==> !isUpdating
      ensures ok <==> old(editingEquipment).Some? && !updateFails
                      && (old(editForm).clientId in store.clients
                          || old(editingEquipment).value.row.id !in old(store.equipments))
      ensures ok ==>
        var id := old(editingEquipment).value.row.id;
        && store.equipments == (if id in old(store.equipments)
             then old(store.equipments)[id := ApplyEquipmentUpdate(old(store.equipments)[id], EquipmentFormUpdate(old(editForm)))]
             else old(store.equipments))
        && !isEditModalOpen
      ensures !ok ==> store.equipments == old(store.equipments) && isEditModalOpen == old(isEditModalOpen)
      ensures editingEquipment == old(editingEquipment) && editForm == old(editForm)
    {
      ok := false;
      if editingEquipment.None? {
        return;
      }
      isUpdating := true;
      if !updateFails {
        ok := store.UpdateEquipment(editingEquipment.value.row.id, EquipmentFormUpdate(editForm));
        if ok {
          isEditModalOpen := false;
        }
      }
      isUpdating := false;
    }
  }
}
