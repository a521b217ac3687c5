/**
 * A category screen (CategoryPage.jsx): the form fields of each category,
 * the entries shown (the category's pages that decrypt, each merged with its
 * page id and timestamp), and the save, edit, delete and cancel handlers.
 * Encryption is outside the model: decryption is a parameter that may fail,
 * and a save is handed the ciphertext and IV of the form.
 */
module CategoryPage {
  import opened Wrappers
  import opened Records
  import opened Storage

  datatype FieldType = Text | Password | EmailInput | Tel | TextArea

  /** One input of a category's form. */
  datatype Field = Field(key: string, caption: string, kind: FieldType)

  /** `CATEGORY_FIELDS[categoryId] || []`: the four known categories, no fields for any other id. */
  function CategoryFields(categoryId: string): (fs: seq<Field>)
    ensures categoryId !in {"digital-accounts", "financial-assets", "key-contacts", "end-of-life-wishes"} ==> fs == []
  {
    match categoryId
    case "digital-accounts" => [
      Field("service", "Service/Platform Name", Text),
      Field("username", "Username or Email", Text),
      Field("password", "Password", Password),
      Field("recoveryEmail", "Recovery Email (if different)", Text),
      Field("twoFactor", "Two-Factor Authentication Info", Text),
      Field("notes", "Additional Notes", TextArea)]
    case "financial-assets" => [
      Field("institution", "Financial Institution", Text),
      Field("accountType", "Account Type", Text),
      Field("accountNumber", "Account/Policy Number", Text),
      Field("contactInfo", "Institution Contact", Text),
      Field("beneficiary", "Beneficiary Information", Text),
      Field("notes", "Additional Notes", TextArea)]
    case "key-contacts" => [
      Field("name", "Full Name", Text),
      Field("relationship", "Relationship/Role", Text),
      Field("email", "Email Address", EmailInput),
      Field("phone", "Phone Number", Tel),
      Field("alternatePhone", "Alternate Phone (Optional)", Tel),
      Field("address", "Business Address", TextArea),
      Field("notes", "Additional Notes", TextArea)]
    case "end-of-life-wishes" => [
      Field("title", "Title/Subject", Text),
      Field("description", "Description/Details", TextArea),
      Field("location", "Document Location", Text),
      Field("accessInfo", "How to Access", Text),
      Field("notes", "Additional Notes", TextArea)]
    case _ => []
  }

  /**
   * `{id: page.id, ...decrypted, lastModified: page.lastModified}`: the id
   * first, then the decrypted fields (which may replace it), and the stored
   * timestamp last, replacing any decrypted one.
   */
  function EntryOf(page: Page, decrypted: Entry): (e: Entry)
    ensures e != [] && e[0].0 == "id"
    ensures Get(e, "lastModified") == Num(page.lastModified)
    ensures DistinctKeys(decrypted) ==> DistinctKeys(e)
  {
    Set(Assign([("id", Str(page.id))], decrypted), "lastModified", Num(page.lastModified))
  }

  /** Every other field of an entry reads as decrypted, and the id as stored unless the decrypted record has its own. */
  lemma EntryFields(page: Page, decrypted: Entry, k: string)
    requires DistinctKeys(decrypted)
    requires k != "lastModified"
    ensures Get(EntryOf(page, decrypted), k)
      == if HasKey(decrypted, k) then Get(decrypted, k) else if k == "id" then Str(page.id) else Null
  {
    var base: Entry := [("id", Str(page.id))];
    AssignGet(base, decrypted, k);
    if k != "id" {
      assert !HasKey(base, k);
    }
  }

  /**
   * An entry keeps its page's id when the decrypted record holds no id or
   * the same one, so editing it saves over the same page.
   */
  lemma EntryIdIsPageId(page: Page, decrypted: Entry)
    requires DistinctKeys(decrypted)
    requires !HasKey(decrypted, "id") || Get(decrypted, "id") == Str(page.id)
    ensures Get(EntryOf(page, decrypted), "id") == Str(page.id)
  {
    EntryFields(page, decrypted, "id");
  }

  /** What one page contributes to the list: its entry, or nothing when it is of another category or does not decrypt. */
  function LoadedOne(p: Page, categoryId: string, decrypt: Page -> Option<Entry>): seq<Entry>
  {
    if p.category == categoryId && decrypt(p).Some? then [EntryOf(p, decrypt(p).value)] else []
  }

  /** loadEntries' list: the pages of the category, in order, that decrypt. */
  function Loaded(ps: seq<Page>, categoryId: string, decrypt: Page -> Option<Entry>): (es: seq<Entry>)
    ensures |es| <= |ps|
  {
    if ps == [] then [] else LoadedOne(ps[0], categoryId, decrypt) + Loaded(ps[1..], categoryId, decrypt)
  }

  lemma {:induction false} LoadedAppend(a: seq<Page>, b: seq<Page>, categoryId: string, decrypt: Page -> Option<Entry>)
    ensures Loaded(a + b, categoryId, decrypt) == Loaded(a, categoryId, decrypt) + Loaded(b, categoryId, decrypt)
  {
    if a == [] {
      assert a + b == b;
    } else {
      assert (a + b)[1..] == a[1..] + b;
      LoadedAppend(a[1..], b, categoryId, decrypt);
    }
  }

  /** A page that does not decrypt is dropped and the others are still shown. */
  lemma BadPageIsSkipped(a: seq<Page>, p: Page, b: seq<Page>, categoryId: string, decrypt: Page -> Option<Entry>)
    requires decrypt(p).None?
    ensures Loaded(a + [p] + b, categoryId, decrypt) == Loaded(a, categoryId, decrypt) + Loaded(b, categoryId, decrypt)
  {
    LoadedAppend(a + [p], b, categoryId, decrypt);
    LoadedAppend(a, [p], categoryId, decrypt);
    LoadedDropsFailure(p, categoryId, decrypt);
    assert Loaded(a, categoryId, decrypt) + [] == Loaded(a, categoryId, decrypt);
  }

  lemma LoadedDropsFailure(p: Page, categoryId: string, decrypt: Page -> Option<Entry>)
    requires decrypt(p).None?
    ensures Loaded([p], categoryId, decrypt) == []
  {
    assert [p][1..] == [];
  }

  /** Every entry shown comes from a page of the category that decrypts. */
  lemma {:induction false} LoadedIsSound(ps: seq<Page>, categoryId: string, decrypt: Page -> Option<Entry>)
    ensures forall e :: e in Loaded(ps, categoryId, decrypt) ==>
      exists i :: 0 <= i < |ps| && ps[i].category == categoryId && decrypt(ps[i]).Some? && e == EntryOf(ps[i], decrypt(ps[i]).value)
  {
    if ps != [] {
      LoadedIsSound(ps[1..], categoryId, decrypt);
      forall e | e in Loaded(ps, categoryId, decrypt)
        ensures exists i :: 0 <= i < |ps| && ps[i].category == categoryId && decrypt(ps[i]).Some? && e == EntryOf(ps[i], decrypt(ps[i]).value)
      {
        if e !in LoadedOne(ps[0], categoryId, decrypt) {
          assert e in Loaded(ps[1..], categoryId, decrypt);
          var j :| 0 <= j < |ps[1..]| && ps[1..][j].category == categoryId && decrypt(ps[1..][j]).Some?
            && e == EntryOf(ps[1..][j], decrypt(ps[1..][j]).value);
          assert ps[j + 1] == ps[1..][j];
        }
      }
    }
  }

  /** Every page of the category that decrypts is shown. */
  lemma {:induction false} LoadedIsComplete(ps: seq<Page>, categoryId: string, decrypt: Page -> Option<Entry>)
    ensures forall i :: 0 <= i < |ps| && ps[i].category == categoryId && decrypt(ps[i]).Some? ==>
      EntryOf(ps[i], decrypt(ps[i]).value) in Loaded(ps, categoryId, decrypt)
  {
    if ps != [] {
      LoadedIsComplete(ps[1..], categoryId, decrypt);
      forall i | 0 <= i < |ps| && ps[i].category == categoryId && decrypt(ps[i]).Some?
        ensures EntryOf(ps[i], decrypt(ps[i]).value) in Loaded(ps, categoryId, decrypt)
      {
        if i > 0 {
          assert ps[i] == ps[1..][i - 1];
        }
      }
    }
  }

  /** The fields a card shows: the category's fields, in order, whose value in the entry is truthy. */
  function Shown(fields: seq<Field>, entry: Entry): (r: seq<(Field, Value)>)
    ensures |r| <= |fields|
    ensures forall i :: 0 <= i < |r| ==> r[i].0 in fields && Truthy(r[i].1) && r[i].1 == Get(entry, r[i].0.key)
  {
    if fields == [] then []
    else
      var v := Get(entry, fields[0].key);
      (if Truthy(v) then [(fields[0], v)] else []) + Shown(fields[1..], entry)
  }

  /** No field with a truthy value is left off the card. */
  lemma {:induction false} ShownIsComplete(fields: seq<Field>, entry: Entry)
    ensures forall f :: f in fields && Truthy(Get(entry, f.key)) ==> (f, Get(entry, f.key)) in Shown(fields, entry)
  {
    if fields != [] {
      ShownIsComplete(fields[1..], entry);
      forall f | f in fields && Truthy(Get(entry, f.key))
        ensures (f, Get(entry, f.key)) in Shown(fields, entry)
      {
        if f != fields[0] {
          assert f in fields[1..];
        }
      }
    }
  }

  /** A category with no field table shows nothing of any entry. */
  lemma UnknownCategoryShowsNothing(categoryId: string, entry: Entry)
    requires categoryId !in {"digital-accounts", "financial-assets", "key-contacts", "end-of-life-wishes"}
    ensures Shown(CategoryFields(categoryId), entry) == []
  {
  }

  /** `entry.id` as the string handleEdit stores in `editingId` ("" when it is not a string). */
  function IdOf(entry: Entry): string
  {
    match Get(entry, "id")
    case Str(s) => s
    case _ => ""
  }

  class Screen {
    const store: Store
    const categoryId: string
    var entries: seq<Entry>
    var loading: bool
    var showAddForm: bool
    /** The id of the page being edited; "" while adding (`null`). */
    var editingId: string
    var formData: Entry
    var notification: string

    constructor (store: Store, categoryId: string)
      ensures this.store == store && this.categoryId == categoryId
      ensures entries == [] && loading && !showAddForm && editingId == "" && formData == [] && notification == ""
    {
      this.store := store;
      this.categoryId := categoryId;
      entries, loading, showAddForm, editingId, formData, notification := [], true, false, "", [], "";
    }

    /** loadEntries: the category's decryptable pages, as entries, in listing order. */
    method LoadEntries(decrypt: Page -> Option<Entry>) returns (ghost listed: seq<Page>, ghost keys: seq<string>)
      requires store.Valid()
      modifies this
      ensures Listing(listed, keys, store.pages)
      ensures entries == Loaded(listed, categoryId, decrypt)
      ensures !loading
      ensures showAddForm == old(showAddForm) && editingId == old(editingId) && formData == old(formData)
      ensures notification == old(notification)
    {
      loading := true;
      var allPages;
      allPages, keys := store.GetAllPages();
      listed := allPages;
      entries := Loaded(allPages, categoryId, decrypt);
      loading := false;
    }

    /**
     * handleSave: the form, encrypted to `cipherText` and `iv`, is saved under
     * the edited page's id or under `freshId`, stamped `now`; the form is
     * reset and the list reloaded.
     */
    method HandleSave(freshId: string, cipherText: string, iv: string, now: int, decrypt: Page -> Option<Entry>)
      returns (ghost listed: seq<Page>, ghost keys: seq<string>)
      requires store.Valid()
      modifies this, store
      ensures store.Valid()
      ensures var pageId := if old(editingId) != "" then old(editingId) else freshId;
        store.pages == old(store.pages)[pageId := Page(pageId, categoryId, cipherText, iv, now)]
      ensures old(editingId) != "" && old(editingId) in old(store.pages) ==> |store.pages| == |old(store.pages)|
      ensures store.settings == old(store.settings) && store.trustees == old(store.trustees)
      ensures store.conditions == old(store.conditions)
      ensures notification == "Data encrypted and saved locally"
      ensures formData == [] && !showAddForm && editingId == "" && !loading
      ensures Listing(listed, keys, store.pages) && entries == Loaded(listed, categoryId, decrypt)
    {
      var pageId := if editingId != "" then editingId else freshId;
      store.SavePage(pageId, categoryId, cipherText, iv, now);
      notification := "Data encrypted and saved locally";
      formData := [];
      showAddForm := false;
      editingId := "";
      listed, keys := LoadEntries(decrypt);
    }

    /** handleEdit: the form takes the whole entry and its id becomes the page edited. */
    method HandleEdit(entry: Entry)
      modifies this
      ensures formData == entry && editingId == IdOf(entry) && showAddForm
      ensures entries == old(entries) && loading == old(loading) && notification == old(notification)
    {
      formData := entry;
      editingId := IdOf(entry);
      showAddForm := true;
    }

    /** handleDelete: once confirmed, the page is removed and the list reloaded. */
    method HandleDelete(confirmed: bool, entryId: string, decrypt: Page -> Option<Entry>)
      returns (ghost listed: seq<Page>, ghost keys: seq<string>)
      requires store.Valid()
      modifies this, store
      ensures store.Valid()
      ensures !confirmed ==> store.pages == old(store.pages) && entries == old(entries)
      ensures !confirmed ==> notification == old(notification) && loading == old(loading)
      ensures confirmed ==> !loading
      ensures confirmed ==> store.pages == old(store.pages) - {entryId} && notification == "Entry deleted"
      ensures confirmed ==> Listing(listed, keys, store.pages) && entries == Loaded(listed, categoryId, decrypt)
      ensures store.settings == old(store.settings) && store.trustees == old(store.trustees)
      ensures store.conditions == old(store.conditions)
      ensures formData == old(formData) && editingId == old(editingId) && showAddForm == old(showAddForm)
    {
      listed, keys := [], [];
      if confirmed {
        store.DeletePage(entryId);
        notification := "Entry deleted";
        listed, keys := LoadEntries(decrypt);
      }
    }

    /** handleInputChange: the input's value replaces the field's, or becomes a new last field; every other field keeps its value. */
    method HandleInputChange(key: string, value: string)
      modifies this
      ensures Get(formData, key) == Str(value)
      ensures forall k :: k != key ==> Get(formData, k) == Get(old(formData), k)
      ensures HasKey(old(formData), key) ==> |formData| == |old(formData)|
      ensures !HasKey(old(formData), key) ==> formData == old(formData) + [(key, Str(value))]
      ensures DistinctKeys(old(formData)) ==> DistinctKeys(formData)
      ensures entries == old(entries) && editingId == old(editingId) && showAddForm == old(showAddForm)
      ensures loading == old(loading) && notification == old(notification)
    {
      formData := Set(formData, key, Str(value));
    }

    /** handleCancel: an empty form, no page being edited, the form hidden. */
    method HandleCancel()
      modifies this
      ensures formData == [] && editingId == "" && !showAddForm
      ensures entries == old(entries) && loading == old(loading) && notification == old(notification)
    {
      formData := [];
      showAddForm := false;
      editingId := "";
    }
  }
}
