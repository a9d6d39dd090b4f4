/**
 * The technician administration screen: the admin gate, the technician list, the
 * active/inactive toggle and the delete confirmation.
 */
module Technicians {
  import opened Wrappers
  import opened Schema
  import opened Seqs
  import opened Tables

  /** `status === "ativo" ? "inativo" : "ativo"`; a null or unknown status becomes "ativo". */
  function ToggledStatus(status: Option<string>): (r: string)
    ensures r == "inativo" <==> status == Some("ativo")
    ensures r == "ativo" || r == "inativo"
  {
    if status == Some("ativo") then "inativo" else "ativo"
  }

  /** Toggling twice restores the status exactly when it was "ativo" or "inativo". */
  lemma ToggleTwiceRestores(status: Option<string>)
    ensures Some(ToggledStatus(Some(ToggledStatus(status)))) == status
        <==> status == Some("ativo") || status == Some("inativo")
  {
  }

  predicate IsTecnico(p: ProfileRow) {
    p.userType == Tecnico
  }

  /** The `.eq("user_type", "tecnico")` list, in the order the rows were returned. */
  function TechnicianList(rows: seq<ProfileRow>): (r: seq<ProfileRow>)
    ensures forall p :: p in r <==> p in rows && p.userType == Tecnico
    ensures Sublist(r, rows)
  {
    Filter(rows, IsTecnico)
  }

  /** `confirm(...)` declined issues nothing; accepted, the account of the technician is deleted. */
  function DeleteRequest(confirmed: bool, technician: ProfileRow): (r: Option<Id>)
    ensures r.Some? <==> confirmed
    ensures r.Some? ==> r.value == technician.userId
  {
    if confirmed then Some(technician.userId) else None
  }

  class TechniciansPage {
    var technicians: seq<ProfileRow>
    var loading: bool
    var currentUserType: string

    constructor ()
      ensures technicians == [] && loading && currentUserType == ""
    {
      technicians := [];
      loading := true;
      currentUserType := "";
    }

    /** The render gate: anything but "admin" shows the access-denied view. */
    predicate AccessDenied()
      reads this
      ensures !AccessDenied() <==> ParseUserType(currentUserType) == Some(Admin)
      ensures ParseUserType(currentUserType) == Some(Tecnico) ==> AccessDenied()
    {
      currentUserType != "admin"
    }

    /**
     * `fetchTechnicians`: without a session nothing is loaded; the viewer's own
     * profile decides the user type; a viewer who is not admin gets no list.
     */
    method FetchTechnicians(sessionUser: Option<Id>, currentProfile: Option<ProfileRow>,
                            rows: seq<ProfileRow>, listFails: bool) returns (denied: bool)
      modifies this
      ensures !loading
      ensures sessionUser.None? ==>
        !denied && technicians == old(technicians) && currentUserType == old(currentUserType)
      ensures sessionUser.Some? ==>
        currentUserType == (if currentProfile.Some? then UserTypeText(currentProfile.value.userType)
                            else old(currentUserType))
      ensures denied <==> sessionUser.Some? && !(currentProfile.Some? && currentProfile.value.userType == Admin)
      ensures denied ==> technicians == old(technicians)
      ensures denied && currentProfile.Some? ==> AccessDenied()
      ensures !denied && sessionUser.Some? ==> !AccessDenied()
      ensures technicians == (if sessionUser.Some? && !denied && !listFails then TechnicianList(rows)
                              else old(technicians))
    {
      denied := false;
      if sessionUser.None? {
        loading := false;
        return;
      }
      if currentProfile.Some? {
        currentUserType := UserTypeText(currentProfile.value.userType);
      }
      if !(currentProfile.Some? && currentProfile.value.userType == Admin) {
        denied := true;
        loading := false;
        return;
      }
      if !listFails {
        technicians := TechnicianList(rows);
      }
      loading := false;
    }

    /** `handleStatusToggle`: only the status of the profile with the technician's id changes. */
    method HandleStatusToggle(store: Store, technician: ProfileRow, updateFails: bool)
      requires store.Valid()
      modifies store`profiles
      ensures store.Valid()
      ensures store.profiles == if !updateFails && technician.id in old(store.profiles)
        then old(store.profiles)[technician.id :=
               old(store.profiles)[technician.id].(status := Some(ToggledStatus(technician.status)))]
        else old(store.profiles)
    {
      if !updateFails {
        var newStatus := ToggledStatus(technician.status);
        store.UpdateProfile(technician.id, ProfileUpdate(None, None, None, Some(Some(newStatus))));
      }
    }
  }
}
