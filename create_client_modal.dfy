/**
 * The "new client" dialog: four text fields, inserted as typed with the current
 * user as owner; the form is cleared and the dialog closed only on success.
 */
module CreateClient {
  import opened Wrappers
  import opened Schema
  import opened Tables
  import opened Clients

  /** The dialog's text inputs. */
  datatype ClientField = Name | Email | Phone | Address

  function FieldText(f: ClientForm, field: ClientField): string {
    match field
    case Name => f.name
    case Email => f.email
    case Phone => f.phone
    case Address => f.address
  }

  /** An input's `onChange`: `{ ...formData, field: value }`. */
  function WithField(f: ClientForm, field: ClientField, v: string): (g: ClientForm)
    ensures FieldText(g, field) == v
    ensures forall other :: other != field ==> FieldText(g, other) == FieldText(f, other)
  {
    match field
    case Name => f.(name := v)
    case Email => f.(email := v)
    case Phone => f.(phone := v)
    case Address => f.(address := v)
  }

  /** `{ ...formData, user_id }`: every field as typed, "" included, and the owner. */
  function ClientInsertOf(f: ClientForm, userId: Id): (ins: ClientInsert)
    ensures ins.name == f.name && ins.userId == userId
    ensures ins.email == Some(f.email) && ins.phone == Some(f.phone) && ins.address == Some(f.address)
  {
    ClientInsert(f.name, Some(f.email), Some(f.phone), Some(f.address), userId)
  }

  /**
   * A client created through this dialog opens in the edit dialog with exactly the
   * form it was created from, and saving that form unchanged leaves its row as it is.
   */
  lemma {:induction false} CreatedClientEditsBack(f: ClientForm, userId: Id, id: Id, now: Date)
    ensures ClientEditPrefill(ClientFromInsert(ClientInsertOf(f, userId), id, now)) == f
    ensures var row := ClientFromInsert(ClientInsertOf(f, userId), id, now);
            ApplyClientUpdate(row, ClientFormUpdate(ClientEditPrefill(row))) == row
  {
    var row := ClientFromInsert(ClientInsertOf(f, userId), id, now);
    UnchangedClientEdit(row);
  }

  class CreateClientModal {
    var open: bool
    var isLoading: bool
    var form: ClientForm

    constructor ()
      ensures !open && !isLoading && form == EmptyClientForm
    {
      open, isLoading := false, false;
      form := EmptyClientForm;
    }

    /** Typing into one of the inputs. */
    method Edit(field: ClientField, v: string)
      modifies this`form
      ensures form == WithField(old(form), field, v)
    {
      form := WithField(form, field, v);
    }

    /**
     * `handleSubmit`: no insert without a user; on success the form is reset and the
     * dialog closes; on failure both are kept.
     */
    method HandleSubmit(store: Store, user: Option<Id>, newId: Id, now: Date, insertFails: bool)
      returns (ok: bool)
      requires store.Valid()
      modifies this`open, this`isLoading, this`form, store`clients
      ensures store.Valid()
      ensures !isLoading
      ensures ok <==> user.Some? && !insertFails && newId !in old(store.clients)
      ensures ok ==> store.clients == old(store.clients)[newId :=
                       ClientFromInsert(ClientInsertOf(old(form), user.value), newId, now)]
      ensures ok ==> form == EmptyClientForm && !open
      ensures !ok ==> store.clients == old(store.clients) && form == old(form) && open == old(open)
    {
      isLoading := true;
      if user.None? || insertFails {
        ok := false;
        isLoading := false;
        return;
      }
      ok := store.InsertClient(ClientInsertOf(form, user.value), newId, now);
      if ok {
        form := EmptyClientForm;
        open := false;
      }
      isLoading := false;
    }
  }
}
