/**
 * The trustee screen (TrusteeManagement.jsx): a form of four text fields,
 * the trustee being edited (if any), and the list read from the store. A
 * save builds the trustee record from the form; the "Add" button is
 * disabled once two trustees exist.
 */
module TrusteeManagement {
  import opened Wrappers
  import opened Records
  import opened Storage

  /** The form's four inputs. */
  datatype Form = Form(name: string, email: string, phone: string, relationship: string)

  const EmptyForm := Form("", "", "", "")

  /** The most trustees the "Add" button allows. */
  const MaxTrustees := 2

  /** `trustees.find(t => t.id === id)`: the first trustee with that id. */
  function Find(ts: seq<Trustee>, id: string): (r: Option<Trustee>)
    ensures r.Some? ==> r.value in ts && r.value.id == id
    ensures r.None? <==> forall i :: 0 <= i < |ts| ==> ts[i].id != id
  {
    if ts == [] then None
    else if ts[0].id == id then Some(ts[0])
    else Find(ts[1..], id)
  }

  /**
   * The record handleSave writes. `editingId` is "" when adding (`null`).
   * The id is the edited one or `freshId`; `addedDate` is kept on an edit
   * (now when the trustee is not in the list or its date is falsy) and is
   * now on an add; empty phone and relationship stay empty.
   */
  function TrusteeRecord(form: Form, editingId: string, freshId: string, ts: seq<Trustee>, now: int): (t: Trustee)
    ensures t.name == form.name && t.email == form.email
    ensures t.phone == form.phone && t.relationship == form.relationship
    ensures editingId == "" ==> t.id == freshId && t.addedDate == now
    ensures editingId != "" ==> t.id == editingId
    ensures editingId != "" && Find(ts, editingId).Some? && Find(ts, editingId).value.addedDate != 0 ==>
      t.addedDate == Find(ts, editingId).value.addedDate
    ensures editingId != "" && (Find(ts, editingId).None? || Find(ts, editingId).value.addedDate == 0) ==> t.addedDate == now
  {
    var trusteeId := if editingId != "" then editingId else freshId;
    var addedDate :=
      if editingId != "" then
        (match Find(ts, editingId)
         case Some(found) => OrDefault(found.addedDate, now)
         case None => now)
      else now;
    Trustee(trusteeId, form.name, form.email, form.phone, form.relationship, addedDate)
  }

  /** The keys handleInputChange is called with, one per input. */
  datatype FormKey = NameKey | EmailKey | PhoneKey | RelationshipKey

  /** `{...form, [key]: value}`. */
  function WithField(form: Form, key: FormKey, value: string): Form
  {
    match key
    case NameKey => form.(name := value)
    case EmailKey => form.(email := value)
    case PhoneKey => form.(phone := value)
    case RelationshipKey => form.(relationship := value)
  }

  /** What handleEdit puts in the form. */
  function FormOf(t: Trustee): Form
  {
    Form(t.name, t.email, t.phone, t.relationship)
  }

  /**
   * Editing a listed trustee and saving without touching the form writes
   * the trustee back unchanged (given a truthy id and date), whatever fresh
   * id and clock the save is given.
   */
  lemma EditThenSaveIsIdentity(t: Trustee, ts: seq<Trustee>, freshId: string, now: int)
    requires t.id != "" && t.addedDate != 0
    requires Find(ts, t.id) == Some(t)
    ensures TrusteeRecord(FormOf(t), t.id, freshId, ts, now) == t
  {
  }

  class Manager {
    const store: Store
    var trustees: seq<Trustee>
    var loading: bool
    var showAddForm: bool
    /** The id of the trustee being edited; "" while adding (`null`). */
    var editingId: string
    var form: Form
    var notification: string

    constructor (store: Store)
      ensures this.store == store
      ensures trustees == [] && loading && !showAddForm && editingId == "" && form == EmptyForm && notification == ""
    {
      this.store := store;
      trustees, loading, showAddForm, editingId, form, notification := [], true, false, "", EmptyForm, "";
    }

    /** loadTrustees: the list is every stored trustee once. */
    method LoadTrustees() returns (ghost keys: seq<string>)
      requires store.Valid()
      modifies this
      ensures Listing(trustees, keys, store.trustees)
      ensures !loading
      ensures showAddForm == old(showAddForm) && editingId == old(editingId) && form == old(form)
      ensures notification == old(notification)
    {
      loading := true;
      var allTrustees;
      allTrustees, keys := store.GetTrustees();
      trustees := allTrustees;
      loading := false;
    }

    /**
     * handleSave: with an empty name or e-mail nothing is written; otherwise
     * the record is saved, the form reset and the list reloaded.
     */
    method HandleSave(freshId: string, now: int) returns (ghost keys: seq<string>)
      requires store.Valid()
      modifies this, store
      ensures store.Valid()
      ensures store.pages == old(store.pages) && store.settings == old(store.settings)
      ensures store.conditions == old(store.conditions)
      ensures old(form.name) == "" || old(form.email) == "" ==>
        && store.trustees == old(store.trustees)
        && notification == "Name and email are required"
        && form == old(form) && editingId == old(editingId) && showAddForm == old(showAddForm)
        && trustees == old(trustees) && loading == old(loading)
      ensures old(form.name) != "" && old(form.email) != "" ==>
        var t := TrusteeRecord(old(form), old(editingId), freshId, old(trustees), now);
        && store.trustees == old(store.trustees)[t.id := t]
        && (old(editingId) == "" && freshId !in old(store.trustees) ==> |store.trustees| == |old(store.trustees)| + 1)
        && (old(editingId) != "" && old(editingId) in old(store.trustees) ==> |store.trustees| == |old(store.trustees)|)
        && notification == (if old(editingId) != "" then "Trustee updated" else "Trustee added")
        && form == EmptyForm && editingId == "" && !showAddForm && !loading
        && Listing(trustees, keys, store.trustees)
    {
      if form.name == "" || form.email == "" {
        notification := "Name and email are required";
        keys := [];
        return;
      }
      var trustee := TrusteeRecord(form, editingId, freshId, trustees, now);
      store.SaveTrustee(trustee);
      notification := if editingId != "" then "Trustee updated" else "Trustee added";
      form := EmptyForm;
      showAddForm := false;
      editingId := "";
      keys := LoadTrustees();
    }

    /** handleEdit: the form takes the trustee's fields and the trustee becomes the one edited. */
    method HandleEdit(t: Trustee)
      modifies this
      ensures form == FormOf(t) && editingId == t.id && showAddForm
      ensures trustees == old(trustees) && loading == old(loading) && notification == old(notification)
    {
      form := Form(t.name, t.email, t.phone, t.relationship);
      editingId := t.id;
      showAddForm := true;
    }

    /** handleDelete: once confirmed, the trustee is removed and the list reloaded. */
    method HandleDelete(confirmed: bool, trusteeId: string) returns (ghost keys: seq<string>)
      requires store.Valid()
      modifies this, store
      ensures store.Valid()
      ensures store.pages == old(store.pages) && store.settings == old(store.settings)
      ensures store.conditions == old(store.conditions)
      ensures !confirmed ==> store.trustees == old(store.trustees) && trustees == old(trustees)
      ensures !confirmed ==> notification == old(notification) && loading == old(loading)
      ensures confirmed ==> !loading
      ensures confirmed ==> store.trustees == old(store.trustees) - {trusteeId} && notification == "Trustee removed"
      ensures confirmed ==> Listing(trustees, keys, store.trustees)
      ensures form == old(form) && editingId == old(editingId) && showAddForm == old(showAddForm)
    {
      keys := [];
      if confirmed {
        store.DeleteTrustee(trusteeId);
        notification := "Trustee removed";
        keys := LoadTrustees();
      }
    }

    /** handleInputChange: one input's value replaces that field of the form. */
    method HandleInputChange(key: FormKey, value: string)
      modifies this
      ensures form == WithField(old(form), key, value)
      ensures trustees == old(trustees) && editingId == old(editingId) && showAddForm == old(showAddForm)
      ensures loading == old(loading) && notification == old(notification)
    {
      form := WithField(form, key, value);
    }

    /** handleCancel: four empty fields, no trustee being edited, the form hidden. */
    method HandleCancel()
      modifies this
      ensures form == EmptyForm && editingId == "" && !showAddForm
      ensures trustees == old(trustees) && loading == old(loading) && notification == old(notification)
    {
      form := EmptyForm;
      showAddForm := false;
      editingId := "";
    }

    /** The "Add Trustee" button: disabled once `MaxTrustees` trustees are listed. */
    method ClickAdd()
      modifies this
      ensures showAddForm == (old(showAddForm) || |trustees| < MaxTrustees)
      ensures trustees == old(trustees) && form == old(form) && editingId == old(editingId)
      ensures loading == old(loading) && notification == old(notification)
    {
      if |trustees| < MaxTrustees {
        showAddForm := true;
      }
    }
  }
}
