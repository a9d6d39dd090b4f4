/**
 * The technician edit dialog: the prefill from the selected technician, the update
 * that turns empty phone and position into null, and the dialog closing on success.
 */
module EditTechnician {
  import opened Wrappers
  import opened Schema
  import opened Tables

  /** The dialog's fields; status carries whatever the profile held, null included. */
  datatype TechnicianForm = TechnicianForm(
    name: string, phone: string, position: string, status: Option<string>)

  /** The form before the technician is known. */
  const DefaultTechnicianForm := TechnicianForm("", "", "", Some("ativo"))

  /** The prefill effect: a null phone or position becomes "". */
  function TechnicianPrefill(t: ProfileRow): (f: TechnicianForm)
    ensures f.name == t.name && f.status == t.status
    ensures f.phone == t.phone.GetOr("") && f.position == t.position.GetOr("")
  {
    TechnicianForm(t.name, t.phone.GetOr(""), t.position.GetOr(""), t.status)
  }

  /** `text || null`. */
  function NullIfEmpty(s: string): (o: Option<string>)
    ensures o.None? <==> s == ""
    ensures o.Some? ==> o.value == s
  {
    if s == "" then None else Some(s)
  }

  /** The update sent on submit: name and status as they are, "" phone or position as null. */
  function TechnicianSubmitUpdate(f: TechnicianForm): (u: ProfileUpdate)
    ensures u.name == Some(f.name) && u.status == Some(f.status)
    ensures u.phone == Some(NullIfEmpty(f.phone)) && u.position == Some(NullIfEmpty(f.position))
  {
    ProfileUpdate(Some(f.name), Some(NullIfEmpty(f.phone)), Some(NullIfEmpty(f.position)), Some(f.status))
  }

  /**
   * Saving the prefilled form unchanged writes back every field as it was, except that
   * a phone or position stored as "" comes back null; so the profile is unchanged
   * exactly when neither is "".
   */
  lemma {:induction false} UnchangedTechnicianEdit(t: ProfileRow)
    ensures var r := ApplyProfileUpdate(t, TechnicianSubmitUpdate(TechnicianPrefill(t)));
            && r.name == t.name && r.status == t.status
            && r.phone == (if t.phone == Some("") then None else t.phone)
            && r.position == (if t.position == Some("") then None else t.position)
            && r.id == t.id && r.userId == t.userId && r.userType == t.userType && r.createdBy == t.createdBy
    ensures ApplyProfileUpdate(t, TechnicianSubmitUpdate(TechnicianPrefill(t))) == t
        <==> t.phone != Some("") && t.position != Some("")
  {
    var r := ApplyProfileUpdate(t, TechnicianSubmitUpdate(TechnicianPrefill(t)));
    if t.phone == Some("") {
      assert r.phone != t.phone;
    }
    if t.position == Some("") {
      assert r.position != t.position;
    }
  }

  class EditTechnicianModal {
    var open: bool
    var loading: bool
    var technician: ProfileRow
    var form: TechnicianForm

    /**
     * Mounting with a selected technician: the first render holds the default form;
     * the prefill effect, which runs after it, is `TechnicianChanged`.
     */
    constructor (t: ProfileRow, open: bool)
      ensures this.open == open && !loading && technician == t
      ensures form == DefaultTechnicianForm
    {
      this.open := open;
      loading := false;
      technician := t;
      form := DefaultTechnicianForm;
    }

    /** The prefill effect, run after mounting and whenever a new technician is passed in. */
    method TechnicianChanged(t: ProfileRow)
      modifies this`technician, this`form
      ensures technician == t && form == TechnicianPrefill(t)
    {
      technician := t;
      form := TechnicianPrefill(t);
    }

    /** `handleSubmit`: only the profile with the technician's id changes; the dialog closes on success. */
    method HandleSubmit(store: Store, updateFails: bool) returns (ok: bool)
      requires store.Valid()
      modifies this`open, this`loading, store`profiles
      ensures store.Valid()
      ensures !loading
      ensures ok == !updateFails
      ensures store.profiles == if ok && technician.id in old(store.profiles)
        then old(store.profiles)[technician.id :=
               ApplyProfileUpdate(old(store.profiles)[technician.id], TechnicianSubmitUpdate(form))]
        else old(store.profiles)
      ensures open == (if ok then false else old(open))
    {
      loading := true;
      ok := !updateFails;
      if ok {
        store.UpdateProfile(technician.id, TechnicianSubmitUpdate(form));
        open := false;
      }
      loading := false;
    }
  }
}
