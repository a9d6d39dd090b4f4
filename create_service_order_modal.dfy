/**
 * The "new service order" dialog: three loaded lists, a cascading client-to-equipment
 * selector, the submit-enable rule and the insert with reset on success.
 */
module CreateServiceOrder {
  import opened Wrappers
  import opened Schema
  import opened Seqs
  import opened Tables

  datatype ClientOption = ClientOption(id: Id, name: string)

  datatype EquipmentOption = EquipmentOption(
    id: Id, kind: string, brand: Option<string>, model: Option<string>, clientId: Id)

  datatype TechnicianOption = TechnicianOption(id: Id, name: string, userType: UserType)

  /** The dialog's five fields, all plain strings ("" = nothing chosen or typed). */
  datatype OrderForm = OrderForm(
    clientId: string, equipmentId: string, technicianId: string,
    problemDescription: string, value: string)

  const EmptyOrderForm := OrderForm("", "", "", "", "")

  /** `equipments.filter(eq => eq.client_id === formData.client_id)`. */
  function FilteredEquipments(equipments: seq<EquipmentOption>, clientId: string): (r: seq<EquipmentOption>)
    ensures forall e :: e in r <==> e in equipments && e.clientId == clientId
    ensures Sublist(r, equipments)
  {
    Filter(equipments, (e: EquipmentOption) => e.clientId == clientId)
  }

  /** The ids the equipment selector offers for `clientId`, in list order. */
  function OfferedIds(equipments: seq<EquipmentOption>, clientId: string): (r: seq<Id>)
    ensures |r| == |FilteredEquipments(equipments, clientId)|
    ensures forall i :: 0 <= i < |r| ==> r[i] == FilteredEquipments(equipments, clientId)[i].id
  {
    var offered := FilteredEquipments(equipments, clientId);
    seq(|offered|, i requires 0 <= i < |offered| => offered[i].id)
  }

  /** No equipment chosen, or one chosen from the current client's list. */
  predicate SelectionConsistent(equipments: seq<EquipmentOption>, form: OrderForm) {
    form.equipmentId == "" || form.equipmentId in OfferedIds(equipments, form.clientId)
  }

  /** A consistent selection pairs the chosen equipment with the chosen client. */
  lemma ConsistentSelectionBelongsToClient(equipments: seq<EquipmentOption>, form: OrderForm)
    requires SelectionConsistent(equipments, form) && form.equipmentId != ""
    ensures exists e :: e in equipments && e.id == form.equipmentId && e.clientId == form.clientId
  {
    var offered := FilteredEquipments(equipments, form.clientId);
    var i :| 0 <= i < |offered| && OfferedIds(equipments, form.clientId)[i] == form.equipmentId;
    assert offered[i] in offered;
  }

  /** The loaded options describe stored equipment with its stored owner. */
  ghost predicate MirrorsStore(equipments: seq<EquipmentOption>, stored: map<Id, EquipmentRow>) {
    forall e :: e in equipments ==> e.id in stored && stored[e.id].clientId == e.clientId
  }

  /**
   * When the options mirror the stored equipment, a consistent selection names stored
   * equipment owned by the chosen client, so the order the dialog submits pairs an
   * equipment with its owner.
   */
  lemma ConsistentSelectionMatchesStore(equipments: seq<EquipmentOption>, stored: map<Id, EquipmentRow>,
                                        form: OrderForm)
    requires SelectionConsistent(equipments, form) && form.equipmentId != ""
    requires MirrorsStore(equipments, stored)
    ensures form.equipmentId in stored && stored[form.equipmentId].clientId == form.clientId
  {
    ConsistentSelectionBelongsToClient(equipments, form);
    var e :| e in equipments && e.id == form.equipmentId && e.clientId == form.clientId;
  }

  /** Only "tecnico" profiles are offered as technicians. */
  function TechnicianOptions(rows: seq<TechnicianOption>): (r: seq<TechnicianOption>)
    ensures forall t :: t in r <==> t in rows && t.userType == Tecnico
  {
    Filter(rows, (t: TechnicianOption) => t.userType == Tecnico)
  }

  /**
   * The submit button's `disabled`: while saving, or while client, equipment or
   * technician is unset. The problem description is not part of it (only the
   * field's `required` attribute asks for it).
   */
  function SubmitDisabled(isLoading: bool, form: OrderForm): (disabled: bool)
    ensures !disabled ==> form.clientId != "" && form.equipmentId != "" && form.technicianId != ""
    ensures !isLoading && form.clientId != "" && form.equipmentId != "" && form.technicianId != "" ==> !disabled
    ensures isLoading ==> disabled
  {
    isLoading || form.clientId == "" || form.equipmentId == "" || form.technicianId == ""
  }

  /** An empty problem description does not disable the button. */
  lemma EmptyProblemDescriptionDoesNotDisable(form: OrderForm)
    requires form.clientId != "" && form.equipmentId != "" && form.technicianId != ""
    ensures !SubmitDisabled(false, form.(problemDescription := ""))
  {
  }

  /**
   * The inserted record: the four chosen/typed fields, the value (null when the field
   * is empty, otherwise what `parseMoney` reads, None standing for an unreadable
   * number), and the current user; status, payment status and solution are left to
   * the database.
   */
  function OrderInsert(form: OrderForm, userId: Id, parseMoney: string -> Option<int>): (ins: ServiceOrderInsert)
    ensures ins.clientId == form.clientId && ins.equipmentId == form.equipmentId
    ensures ins.technicianId == form.technicianId && ins.problemDescription == form.problemDescription
    ensures ins.userId == userId
    ensures form.value == "" ==> ins.value.None?
    ensures form.value != "" ==> ins.value == parseMoney(form.value)
    ensures ins.status.None? && ins.paymentStatus.None? && ins.solutionDescription.None?
  {
    ServiceOrderInsert(
      form.clientId, form.equipmentId, form.technicianId, form.problemDescription, userId,
      None, None, if form.value == "" then None else parseMoney(form.value), None)
  }

  /** Which of the three loading queries fails, if any. */
  datatype LoadFault = NoFault | ClientsFail | EquipmentsFail | TechniciansFail

  class CreateServiceOrderModal {
    var open: bool
    var isLoading: bool
    var clients: seq<ClientOption>
    var equipments: seq<EquipmentOption>
    var technicians: seq<TechnicianOption>
    var form: OrderForm

    predicate Consistent()
      reads this
    {
      SelectionConsistent(equipments, form)
    }

    constructor ()
      ensures !open && !isLoading && form == EmptyOrderForm
      ensures clients == [] && equipments == [] && technicians == []
      ensures Consistent()
    {
      open, isLoading := false, false;
      clients, equipments, technicians := [], [], [];
      form := EmptyOrderForm;
    }

    /**
     * `loadData`: the owner's clients, then the owner's equipment, then the technician
     * profiles; a failing query stops the ones after it.
     */
    method LoadData(user: Option<Id>, clientRows: seq<ClientOption>,
                    equipmentRows: seq<EquipmentOption>, profileRows: seq<TechnicianOption>,
                    fault: LoadFault)
      modifies this`clients, this`equipments, this`technicians
      ensures clients == if user.Some? && fault != ClientsFail then clientRows else old(clients)
      ensures equipments == if user.Some? && fault != ClientsFail && fault != EquipmentsFail
                            then equipmentRows else old(equipments)
      ensures technicians == if user.Some? && fault == NoFault
                             then TechnicianOptions(profileRows) else old(technicians)
    {
      if user.None? {
        return;
      }
      if fault == ClientsFail {
        return;
      }
      clients := clientRows;
      if fault == EquipmentsFail {
        return;
      }
      equipments := equipmentRows;
      if fault == TechniciansFail {
        return;
      }
      technicians := TechnicianOptions(profileRows);
    }

    /** The client selector: sets the client and clears the equipment. */
    method SelectClient(clientId: string)
      modifies this`form
      ensures form == old(form).(clientId := clientId, equipmentId := "")
      ensures Consistent()
    {
      form := form.(clientId := clientId, equipmentId := "");
    }

    /** The equipment selector, which lists `FilteredEquipments` for the chosen client. */
    method SelectEquipment(equipmentId: string)
      modifies this`form
      ensures form == old(form).(equipmentId := equipmentId)
      ensures (equipmentId == "" || equipmentId in OfferedIds(equipments, form.clientId)) ==> Consistent()
    {
      form := form.(equipmentId := equipmentId);
    }

    /** The technician selector. */
    method SelectTechnician(technicianId: string)
      modifies this`form
      ensures form == old(form).(technicianId := technicianId)
      ensures old(Consistent()) ==> Consistent()
    {
      form := form.(technicianId := technicianId);
    }

    /** The problem-description textarea: only that field changes. */
    method TypeProblemDescription(problemDescription: string)
      modifies this`form
      ensures form == old(form).(problemDescription := problemDescription)
      ensures old(Consistent()) ==> Consistent()
    {
      form := form.(problemDescription := problemDescription);
    }

    /** The value input: only that field changes. */
    method TypeValue(value: string)
      modifies this`form
      ensures form == old(form).(value := value)
      ensures old(Consistent()) ==> Consistent()
    {
      form := form.(value := value);
    }

    /**
     * `handleSubmit`: no insert without a user; on success the form is reset and the
     * dialog closes; on failure both are kept.
     */
    method HandleSubmit(store: Store, user: Option<Id>, newId: Id, now: Date,
                        parseMoney: string -> Option<int>, insertFails: bool) returns (ok: bool)
      requires store.Valid()
      modifies this`open, this`isLoading, this`form, store`serviceOrders
      ensures store.Valid()
      ensures !isLoading
      ensures ok <==> && user.Some? && !insertFails && newId !in old(store.serviceOrders)
                      && old(form).clientId in store.clients && old(form).equipmentId in store.equipments
                      && old(form).technicianId in store.profiles
      ensures ok ==> store.serviceOrders == old(store.serviceOrders)[newId :=
                       ServiceOrderFromInsert(OrderInsert(old(form), user.value, parseMoney), newId, now,
                                              store.defaultStatus, store.defaultPayment)]
      ensures ok ==> form == EmptyOrderForm && !open
      ensures !ok ==> store.serviceOrders == old(store.serviceOrders) && form == old(form) && open == old(open)
    {
      isLoading := true;
      if user.None? || insertFails {
        ok := false;
        isLoading := false;
        return;
      }
      var ins := OrderInsert(form, user.value, parseMoney);
      ok := store.InsertServiceOrder(ins, newId, now);
      if ok {
        form := EmptyOrderForm;
        open := false;
      }
      isLoading := false;
    }
  }
}
