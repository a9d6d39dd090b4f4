/**
 * The clients screen: the per-client order count of the list, the edit form's
 * prefill and update, and the delete guard that refuses to delete a client that
 * still has equipment or service orders.
 */
module Clients {
  import opened Wrappers
  import opened Schema
  import opened Tables

  /** A listed client with its number of service orders. */
  datatype ListedClient = ListedClient(row: ClientRow, serviceOrdersCount: nat)

  /** One entry of `loadClients`: the count query's result, or 0 when it yields none. */
  function ListClient(row: ClientRow, orders: map<Id, ServiceOrderRow>, countLost: bool): (c: ListedClient)
    ensures c.row == row
    ensures c.serviceOrdersCount == if countLost then 0 else OrderCount(orders, row.id)
    ensures c.serviceOrdersCount > 0 ==> exists k :: k in orders && orders[k].clientId == row.id
  {
    var count: Option<nat> := if countLost then None else Some(OrderCount(orders, row.id));
    ListedClient(row, count.GetOr(0))
  }

  /** The edit dialog's fields; every one is a plain string. */
  datatype ClientForm = ClientForm(name: string, email: string, phone: string, address: string)

  const EmptyClientForm := ClientForm("", "", "", "")

  /** `handleEdit`: missing email, phone and address become "". */
  function ClientEditPrefill(c: ClientRow): (f: ClientForm)
    ensures f.name == c.name
    ensures c.email.None? ==> f.email == ""
    ensures c.phone.None? ==> f.phone == ""
    ensures c.address.None? ==> f.address == ""
    ensures c.email.Some? ==> f.email == c.email.value
    ensures c.phone.Some? ==> f.phone == c.phone.value
    ensures c.address.Some? ==> f.address == c.address.value
  {
    ClientForm(c.name, c.email.GetOr(""), c.phone.GetOr(""), c.address.GetOr(""))
  }

  /** `update(editFormData)`: all four fields are written as typed, "" included. */
  function ClientFormUpdate(f: ClientForm): (u: ClientUpdate)
    ensures u.name == f.name
    ensures u.email == Some(f.email) && u.phone == Some(f.phone) && u.address == Some(f.address)
  {
    ClientUpdate(f.name, Some(f.email), Some(f.phone), Some(f.address))
  }

  /** The row an unchanged edit leaves behind: null email, phone and address become "". */
  function NullsAsEmpty(c: ClientRow): ClientRow {
    c.(email := Some(c.email.GetOr("")), phone := Some(c.phone.GetOr("")),
       address := Some(c.address.GetOr("")))
  }

  /**
   * Prefill then update with no edits keeps every value, except that a null email,
   * phone or address is written back as ""; the row is unchanged exactly when none
   * of the three was null.
   */
  lemma UnchangedClientEdit(c: ClientRow)
    ensures ApplyClientUpdate(c, ClientFormUpdate(ClientEditPrefill(c))) == NullsAsEmpty(c)
    ensures ApplyClientUpdate(c, ClientFormUpdate(ClientEditPrefill(c))) == c
        <==> c.email.Some? && c.phone.Some? && c.address.Some?
  {
  }

  /** A second unchanged edit after the first changes nothing more. */
  lemma UnchangedClientEditStable(c: ClientRow)
    ensures var once := ApplyClientUpdate(c, ClientFormUpdate(ClientEditPrefill(c)));
            ApplyClientUpdate(once, ClientFormUpdate(ClientEditPrefill(once))) == once
  {
  }

  /** What a delete attempt ends in. */
  datatype DeleteOutcome = HasEquipment | HasOrders | Deleted | DeleteFailed

  /** `count && count > 0`: a null count does not block. */
  predicate Blocks(count: Option<nat>) {
    count.Some? && count.value > 0
  }

  class ClientsPage {
    var editingClient: Option<ClientRow>
    var editForm: ClientForm
    var isEditModalOpen: bool
    var isUpdating: bool

    constructor ()
      ensures editingClient == None && editForm == EmptyClientForm
      ensures !isEditModalOpen && !isUpdating
    {
      editingClient := None;
      editForm := EmptyClientForm;
      isEditModalOpen := false;
      isUpdating := false;
    }

    /** `handleEdit`: remember the client, prefill the form, open the dialog. */
    method HandleEdit(c: ClientRow)
      modifies this
      ensures editingClient == Some(c) && editForm == ClientEditPrefill(c)
      ensures isEditModalOpen && isUpdating == old(isUpdating)
    {
      editingClient := Some(c);
      editForm := ClientEditPrefill(c);
      isEditModalOpen := true;
    }

    /**
     * `handleUpdate`: without a client being edited nothing happens; otherwise the
     * form is written to the row with the edited id, and the dialog closes on success.
     */
    method HandleUpdate(store: Store, updateFails: bool)
      requires store.Valid()
      modifies this, store`clients
      ensures store.Valid()
      ensures old(editingClient).None? ==>
        store.clients == old(store.clients) && isEditModalOpen == old(isEditModalOpen)
        && isUpdating == old(isUpdating)
      ensures old(editingClient).Some? ==> !isUpdating
      ensures old(editingClient).Some? && !updateFails ==>
        var id := old(editingClient).value.id;
        && store.clients == (if id in old(store.clients)
             then old(store.clients)[id := ApplyClientUpdate(old(store.clients)[id], ClientFormUpdate(old(editForm)))]
             else old(store.clients))
        && !isEditModalOpen
      ensures old(editingClient).Some? && updateFails ==>
        store.clients == old(store.clients) && isEditModalOpen == old(isEditModalOpen)
      ensures editingClient == old(editingClient) && editForm == old(editForm)
    {
      if editingClient.None? {
        return;
      }
      isUpdating := true;
      if !updateFails {
        store.UpdateClient(editingClient.value.id, ClientFormUpdate(editForm));
        isEditModalOpen := false;
      }
      isUpdating := false;
    }

    /**
     * `handleDelete`: count the client's equipment and refuse if any; only then count
     * its service orders and refuse if any; only then delete. A count query that
     * yields no count is taken as zero.
     */
    method HandleDelete(store: Store, id: Id, equipmentCountLost: bool, orderCountLost: bool,
                        deleteFails: bool) returns (outcome: DeleteOutcome)
      requires store.Valid()
      modifies store`clients
      ensures store.Valid()
      ensures outcome == HasEquipment <==>
        !equipmentCountLost && EquipmentCount(store.equipments, id) > 0
      ensures outcome == HasOrders <==>
        && !(!equipmentCountLost && EquipmentCount(store.equipments, id) > 0)
        && !orderCountLost && OrderCount(store.serviceOrders, id) > 0
      ensures outcome == Deleted ==>
        && !deleteFails
        && EquipmentCount(store.equipments, id) == 0 && OrderCount(store.serviceOrders, id) == 0
        && store.clients == old(store.clients) - {id}
      ensures outcome != Deleted ==> store.clients == old(store.clients)
      ensures outcome == Deleted <==>
        !deleteFails && EquipmentCount(store.equipments, id) == 0 && OrderCount(store.serviceOrders, id) == 0
      ensures (!equipmentCountLost && !orderCountLost && !deleteFails
               && outcome != HasEquipment && outcome != HasOrders) ==> outcome == Deleted
      ensures equipmentCountLost && orderCountLost && !deleteFails ==>
        outcome == (if EquipmentCount(store.equipments, id) == 0 && OrderCount(store.serviceOrders, id) == 0
                    then Deleted else DeleteFailed)
    {
      var equipmentCount: Option<nat> := if equipmentCountLost then None else Some(EquipmentCount(store.equipments, id));
      if Blocks(equipmentCount) {
        return HasEquipment;
      }
      var orderCount: Option<nat> := if orderCountLost then None else Some(OrderCount(store.serviceOrders, id));
      if Blocks(orderCount) {
        return HasOrders;
      }
      if deleteFails {
        return DeleteFailed;
      }
      var ok := store.DeleteClient(id);
      outcome := if ok then Deleted else DeleteFailed;
    }
  }
}
