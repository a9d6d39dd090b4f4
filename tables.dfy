/**
 * The hosted database, replaced by in-memory tables: one map per table, keyed by
 * row id. The database keeps every declared foreign key resolvable, so it refuses
 * an insert or update whose reference does not resolve and the delete of a client
 * that is still referenced. An update or delete filtered on an id that matches no
 * row succeeds and changes nothing.
 */
module Tables {
  import opened Wrappers
  import opened Schema

  /** How many equipment rows belong to `clientId` (the `count: 'exact'` query). */
  function EquipmentCount(equipments: map<Id, EquipmentRow>, clientId: Id): (n: nat)
    ensures n > 0 <==> exists k :: k in equipments && equipments[k].clientId == clientId
  {
    var owned := set k | k in equipments && equipments[k].clientId == clientId;
    assert forall k :: k in equipments && equipments[k].clientId == clientId ==> k in owned;
    |owned|
  }

  /** How many service orders reference `clientId`. */
  function OrderCount(orders: map<Id, ServiceOrderRow>, clientId: Id): (n: nat)
    ensures n > 0 <==> exists k :: k in orders && orders[k].clientId == clientId
  {
    var placed := set k | k in orders && orders[k].clientId == clientId;
    assert forall k :: k in orders && orders[k].clientId == clientId ==> k in placed;
    |placed|
  }

  /**
   * Each row is stored under its own id, and the declared relationships resolve: an
   * equipment belongs to one client; a service order references one client, one
   * equipment and one profile; a media file and a signature each belong to one
   * service order; `created_by` names a profile or is null.
   */
  ghost predicate TablesConsistent(
    clients: map<Id, ClientRow>, equipments: map<Id, EquipmentRow>,
    profiles: map<Id, ProfileRow>, serviceOrders: map<Id, ServiceOrderRow>,
    mediaFiles: map<Id, MediaFileRow>, signatures: map<Id, SignatureRow>)
  {
    && (forall k :: k in clients ==> clients[k].id == k)
    && (forall k :: k in equipments ==> equipments[k].id == k)
    && (forall k :: k in profiles ==> profiles[k].id == k)
    && (forall k :: k in serviceOrders ==> serviceOrders[k].id == k)
    && (forall k :: k in mediaFiles ==> mediaFiles[k].id == k)
    && (forall k :: k in signatures ==> signatures[k].id == k)
    && (forall k :: k in equipments ==> equipments[k].clientId in clients)
    && (forall k :: k in serviceOrders ==>
          && serviceOrders[k].clientId in clients
          && serviceOrders[k].equipmentId in equipments
          && serviceOrders[k].technicianId in profiles)
    && (forall k :: k in mediaFiles ==> mediaFiles[k].serviceOrderId in serviceOrders)
    && (forall k :: k in signatures ==> signatures[k].serviceOrderId in serviceOrders)
    && (forall k :: k in profiles && profiles[k].createdBy.Some? ==>
          profiles[k].createdBy.value in profiles)
  }

  class Store {
    /** Column defaults of `service_orders.status` and `payment_status`. */
    const defaultStatus: OsStatus
    const defaultPayment: PaymentStatus

    var clients: map<Id, ClientRow>
    var equipments: map<Id, EquipmentRow>
    var profiles: map<Id, ProfileRow>
    var serviceOrders: map<Id, ServiceOrderRow>
    var mediaFiles: map<Id, MediaFileRow>
    var signatures: map<Id, SignatureRow>

    ghost predicate Valid()
      reads this
    {
      TablesConsistent(clients, equipments, profiles, serviceOrders, mediaFiles, signatures)
    }

    constructor (defaultStatus: OsStatus, defaultPayment: PaymentStatus)
      ensures Valid()
      ensures this.defaultStatus == defaultStatus && this.defaultPayment == defaultPayment
      ensures clients == map[] && equipments == map[] && profiles == map[]
      ensures serviceOrders == map[] && mediaFiles == map[] && signatures == map[]
    {
      this.defaultStatus := defaultStatus;
      this.defaultPayment := defaultPayment;
      clients, equipments, profiles := map[], map[], map[];
      serviceOrders, mediaFiles, signatures := map[], map[], map[];
    }

    /** `insert` into `clients`; refused only when the generated id is taken. */
    method InsertClient(ins: ClientInsert, id: Id, now: Date) returns (ok: bool)
      requires Valid()
      modifies this`clients
      ensures Valid()
      ensures ok <==> id !in old(clients)
      ensures clients == if ok
        then old(clients)[id := ClientFromInsert(ins, id, now)]
        else old(clients)
    {
      ok := id !in clients;
      if ok {
        clients := clients[id := ClientFromInsert(ins, id, now)];
      }
    }

    /** `insert` into `equipments`; refused when the id is taken or the client does not exist. */
    method InsertEquipment(ins: EquipmentInsert, id: Id, now: Date) returns (ok: bool)
      requires Valid()
      modifies this`equipments
      ensures Valid()
      ensures ok <==> id !in old(equipments) && ins.clientId in clients
      ensures equipments == if ok
        then old(equipments)[id := EquipmentFromInsert(ins, id, now)]
        else old(equipments)
    {
      ok := id !in equipments && ins.clientId in clients;
      if ok {
        equipments := equipments[id := EquipmentFromInsert(ins, id, now)];
      }
    }

    /** `insert` into `service_orders`; refused when the id is taken or a reference dangles. */
    method InsertServiceOrder(ins: ServiceOrderInsert, id: Id, now: Date) returns (ok: bool)
      requires Valid()
      modifies this`serviceOrders
      ensures Valid()
      ensures ok <==> && id !in old(serviceOrders) && ins.clientId in clients
                      && ins.equipmentId in equipments && ins.technicianId in profiles
      ensures serviceOrders == if ok
        then old(serviceOrders)[id := ServiceOrderFromInsert(ins, id, now, defaultStatus, defaultPayment)]
        else old(serviceOrders)
    {
      ok := && id !in serviceOrders && ins.clientId in clients
            && ins.equipmentId in equipments && ins.technicianId in profiles;
      if ok {
        serviceOrders := serviceOrders[id := ServiceOrderFromInsert(ins, id, now, defaultStatus, defaultPayment)];
      }
    }

    /** `update(u).eq('id', id)` on `clients`. */
    method UpdateClient(id: Id, u: ClientUpdate)
      requires Valid()
      modifies this`clients
      ensures Valid()
      ensures clients == if id in old(clients)
        then old(clients)[id := ApplyClientUpdate(old(clients)[id], u)]
        else old(clients)
    {
      if id in clients {
        clients := clients[id := ApplyClientUpdate(clients[id], u)];
      }
    }

    /** `update(u).eq('id', id)` on `equipments`; refused when the new client does not exist. */
    method UpdateEquipment(id: Id, u: EquipmentUpdate) returns (ok: bool)
      requires Valid()
      modifies this`equipments
      ensures Valid()
      ensures ok <==> u.clientId in clients || id !in old(equipments)
      ensures equipments == if ok && id in old(equipments)
        then old(equipments)[id := ApplyEquipmentUpdate(old(equipments)[id], u)]
        else old(equipments)
    {
      ok := u.clientId in clients || id !in equipments;
      if ok && id in equipments {
        equipments := equipments[id := ApplyEquipmentUpdate(equipments[id], u)];
      }
    }

    /** `update(u).eq('id', id)` on `profiles`. */
    method UpdateProfile(id: Id, u: ProfileUpdate)
      requires Valid()
      modifies this`profiles
      ensures Valid()
      ensures profiles == if id in old(profiles)
        then old(profiles)[id := ApplyProfileUpdate(old(profiles)[id], u)]
        else old(profiles)
    {
      if id in profiles {
        profiles := profiles[id := ApplyProfileUpdate(profiles[id], u)];
      }
    }

    /** `delete().eq('id', id)` on `clients`; refused while equipment or orders reference it. */
    method DeleteClient(id: Id) returns (ok: bool)
      requires Valid()
      modifies this`clients
      ensures Valid()
      ensures ok <==> EquipmentCount(equipments, id) == 0 && OrderCount(serviceOrders, id) == 0
      ensures clients == if ok then old(clients) - {id} else old(clients)
    {
      ok := EquipmentCount(equipments, id) == 0 && OrderCount(serviceOrders, id) == 0;
      if ok {
        clients := clients - {id};
      }
    }
  }
}
