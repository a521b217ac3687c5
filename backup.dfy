/**
 * Backup export and import (Backup.jsx). Export reads the four stores into
 * one document; import checks the document and then writes it record by
 * record, with no transaction: a write that throws leaves the earlier
 * writes in place, and nothing already stored is ever removed.
 */
module BackupFile {
  import opened Wrappers
  import opened Records
  import opened JsText
  import opened Storage

  /** The `trustees` property of a parsed document. */
  datatype TrusteesField =
    | Missing
    /** Present but not an array; `reportedLength` is what `.length` gives (0 when undefined). */
    | NotAnArray(reportedLength: int)
    | Listed(trustees: seq<Trustee>)

  /**
   * A parsed backup document. `pages` and `settings` are None when missing
   * or null; `releaseConditions` is None when missing or null.
   */
  datatype BackupDoc = BackupDoc(
    version: string,
    timestamp: int,
    pages: Option<seq<Page>>,
    settings: Option<Settings>,
    trustees: TrusteesField,
    releaseConditions: Option<Conditions>)

  /** handleExport's document: `trustees || []` is always the list read, `releaseConditions || null` the record or None. */
  function ExportDoc(timestamp: int, pages: seq<Page>, settings: Option<Settings>, trustees: seq<Trustee>,
                     conditions: Option<Conditions>): (d: BackupDoc)
    ensures d.version == "1.0" && d.pages == Some(pages) && d.trustees == Listed(trustees)
  {
    BackupDoc("1.0", timestamp, Some(pages), settings, Listed(trustees), conditions)
  }

  /** The format check: `pages` and `settings` must both be present. */
  predicate Importable(doc: BackupDoc) {
    doc.pages.Some? && doc.settings.Some?
  }

  /** One store write performed by an import. */
  datatype Write =
    | WriteSettings(settings: Settings)
    | WritePage(page: Page)
    | WriteTrustee(trustee: Trustee)
    | WriteConditions(conditions: Conditions)

  function Apply(s: StoreState, w: Write): StoreState
  {
    match w
    case WriteSettings(x) => s.(settings := Some(x))
    case WritePage(p) => s.(pages := s.pages[p.id := p])
    case WriteTrustee(t) => s.(trustees := s.trustees[t.id := t])
    case WriteConditions(c) => s.(conditions := Some(c))
  }

  /** The writes `ws`, first to last. */
  function ApplyAll(s: StoreState, ws: seq<Write>): StoreState
  {
    if ws == [] then s else Apply(ApplyAll(s, ws[..|ws| - 1]), ws[|ws| - 1])
  }

  lemma {:induction false} ApplyAllAppend(s: StoreState, a: seq<Write>, b: seq<Write>)
    ensures ApplyAll(s, a + b) == ApplyAll(ApplyAll(s, a), b)
    decreases |b|
  {
    if b == [] {
      assert a + b == a;
    } else {
      var ab := a + b;
      assert ab[..|ab| - 1] == a + b[..|b| - 1];
      ApplyAllAppend(s, a, b[..|b| - 1]);
    }
  }

  /** The page savePage receives: the same fields, with `lastModified || now`. */
  function Imported(p: Page, now: int): (q: Page)
    ensures q.id == p.id && q.category == p.category && q.encryptedBlob == p.encryptedBlob && q.iv == p.iv
    ensures q.lastModified == if p.lastModified != 0 then p.lastModified else now
  {
    Page(p.id, p.category, p.encryptedBlob, p.iv, OrDefault(p.lastModified, now))
  }

  function PageWrites(ps: seq<Page>, now: int): (ws: seq<Write>)
    ensures |ws| == |ps| && forall i :: 0 <= i < |ps| ==> ws[i] == WritePage(Imported(ps[i], now))
  {
    seq(|ps|, i requires 0 <= i < |ps| => WritePage(Imported(ps[i], now)))
  }

  /** Trustees are written only when the field is an array. */
  function TrusteeWrites(f: TrusteesField): (ws: seq<Write>)
    ensures !f.Listed? ==> ws == []
    ensures f.Listed? ==> |ws| == |f.trustees| && forall i :: 0 <= i < |ws| ==> ws[i] == WriteTrustee(f.trustees[i])
  {
    if f.Listed? then seq(|f.trustees|, i requires 0 <= i < |f.trustees| => WriteTrustee(f.trustees[i])) else []
  }

  /** The release conditions are written only when present. */
  function ConditionWrites(c: Option<Conditions>): (ws: seq<Write>)
    ensures c.None? ==> ws == []
    ensures c.Some? ==> ws == [WriteConditions(c.value)]
  {
    if c.Some? then [WriteConditions(c.value)] else []
  }

  /** The writes of an import, in the order handleImport performs them. */
  function ImportWrites(doc: BackupDoc, now: int): (ws: seq<Write>)
    requires Importable(doc)
    ensures |ws| == 1 + |doc.pages.value| + |TrusteeWrites(doc.trustees)| + |ConditionWrites(doc.releaseConditions)|
    ensures ws[0] == WriteSettings(doc.settings.value)
  {
    [WriteSettings(doc.settings.value)] + PageWrites(doc.pages.value, now)
      + TrusteeWrites(doc.trustees) + ConditionWrites(doc.releaseConditions)
  }

  /** Writes only ever add or replace: no page and no trustee disappears, whichever prefix of them ran. */
  lemma {:induction false} WritesNeverDelete(s: StoreState, ws: seq<Write>)
    ensures s.pages.Keys <= ApplyAll(s, ws).pages.Keys
    ensures s.trustees.Keys <= ApplyAll(s, ws).trustees.Keys
    ensures s.settings.Some? ==> ApplyAll(s, ws).settings.Some?
    ensures s.conditions.Some? ==> ApplyAll(s, ws).conditions.Some?
  {
    if ws != [] {
      WritesNeverDelete(s, ws[..|ws| - 1]);
    }
  }

  /**
   * Import never deletes, so the trustee limit of the trustee screen does
   * not hold after an import: two stored trustees plus one imported make three.
   */
  lemma ImportCanExceedTwoTrustees(a: Trustee, b: Trustee, c: Trustee, settings: Settings, now: int)
    requires a.id != b.id && a.id != c.id && b.id != c.id
    ensures var before := StoreState(map[], None, map[a.id := a, b.id := b], None);
      var doc := BackupDoc("1.0", now, Some([]), Some(settings), Listed([c]), None);
      |ApplyAll(before, ImportWrites(doc, now)).trustees| == 3
  {
    var before := StoreState(map[], None, map[a.id := a, b.id := b], None);
    var doc := BackupDoc("1.0", now, Some([]), Some(settings), Listed([c]), None);
    var ws := ImportWrites(doc, now);
    assert ws == [WriteSettings(settings), WriteTrustee(c)];
    var w1 := [WriteSettings(settings)];
    assert ws[..1] == w1;
    assert w1[..0] == [];
    assert ApplyAll(before, w1[..0]) == before;
    var mid := ApplyAll(before, w1);
    assert mid == before.(settings := Some(settings));
    assert ApplyAll(before, ws) == Apply(mid, WriteTrustee(c));
    assert ApplyAll(before, ws).trustees == map[a.id := a, b.id := b, c.id := c];
    assert map[a.id := a, b.id := b, c.id := c].Keys == {a.id, b.id, c.id};
  }

  /* ---------------- Export followed by import ---------------- */

  /** The map that inserting each record of `vs` under its key, in order, builds. */
  function Keyed<T>(vs: seq<T>, key: T -> string): map<string, T>
  {
    if vs == [] then map[] else Keyed(vs[..|vs| - 1], key)[key(vs[|vs| - 1]) := vs[|vs| - 1]]
  }

  /** With distinct keys, every record is found under its own key and nothing else is there. */
  lemma {:induction false} KeyedContents<T>(vs: seq<T>, key: T -> string)
    requires forall i, j :: 0 <= i < j < |vs| ==> key(vs[i]) != key(vs[j])
    ensures forall k :: k in Keyed(vs, key) <==> exists i :: 0 <= i < |vs| && key(vs[i]) == k
    ensures forall i :: 0 <= i < |vs| ==> key(vs[i]) in Keyed(vs, key) && Keyed(vs, key)[key(vs[i])] == vs[i]
  {
    if vs != [] {
      var init := vs[..|vs| - 1];
      KeyedContents(init, key);
      forall k | k in Keyed(vs, key)
        ensures exists i :: 0 <= i < |vs| && key(vs[i]) == k
      {
        if k != key(vs[|vs| - 1]) {
          assert k in Keyed(init, key);
          var i :| 0 <= i < |init| && key(init[i]) == k;
          assert key(vs[i]) == k;
        }
      }
    }
  }

  /** A listing of a keyed store, inserted again under the same keys, rebuilds the store. */
  lemma ListingRebuilds<T>(vs: seq<T>, ks: seq<string>, m: map<string, T>, key: T -> string)
    requires Listing(vs, ks, m)
    requires forall k :: k in m ==> key(m[k]) == k
    ensures Keyed(vs, key) == m
  {
    forall i, j | 0 <= i < j < |vs|
      ensures key(vs[i]) != key(vs[j])
    {
      assert key(vs[i]) == ks[i] && key(vs[j]) == ks[j];
    }
    KeyedContents(vs, key);
    var r := Keyed(vs, key);
    forall k | k in m
      ensures k in r && r[k] == m[k]
    {
      EnumerationCovers(ks, m.Keys, k);
      var i :| 0 <= i < |ks| && ks[i] == k;
      assert key(vs[i]) == k;
    }
    forall k | k in r
      ensures k in m
    {
      var i :| 0 <= i < |vs| && key(vs[i]) == k;
      assert key(vs[i]) == ks[i];
    }
  }

  function PageId(p: Page): string { p.id }

  function TrusteeId(t: Trustee): string { t.id }

  /** The pages savePage receives, in order. */
  function ImportedPages(ps: seq<Page>, now: int): (qs: seq<Page>)
    ensures |qs| == |ps| && forall i :: 0 <= i < |ps| ==> qs[i] == Imported(ps[i], now)
  {
    if ps == [] then [] else ImportedPages(ps[..|ps| - 1], now) + [Imported(ps[|ps| - 1], now)]
  }

  lemma MapUnionUpdate<V>(a: map<string, V>, b: map<string, V>, k: string, v: V)
    ensures (a + b)[k := v] == a + b[k := v]
  {
  }

  /** The page writes of `ps` put `Keyed` of the imported pages over what was stored. */
  lemma {:induction false} PageWritesEffect(s: StoreState, ps: seq<Page>, now: int)
    ensures ApplyAll(s, PageWrites(ps, now)) == s.(pages := s.pages + Keyed(ImportedPages(ps, now), PageId))
  {
    if ps != [] {
      var init := ps[..|ps| - 1];
      var q := Imported(ps[|ps| - 1], now);
      var ws := PageWrites(ps, now);
      assert ws[..|ws| - 1] == PageWrites(init, now);
      assert ws[|ws| - 1] == WritePage(q);
      PageWritesEffect(s, init, now);
      var qinit := ImportedPages(init, now);
      var qs := ImportedPages(ps, now);
      assert qs[..|qs| - 1] == qinit;
      assert Keyed(qs, PageId) == Keyed(qinit, PageId)[q.id := q];
      MapUnionUpdate(s.pages, Keyed(qinit, PageId), q.id, q);
    } else {
      assert s.(pages := s.pages + map[]) == s;
    }
  }

  lemma {:induction false} TrusteeWritesEffect(s: StoreState, ts: seq<Trustee>)
    ensures ApplyAll(s, TrusteeWrites(Listed(ts))) == s.(trustees := s.trustees + Keyed(ts, TrusteeId))
  {
    if ts != [] {
      var init := ts[..|ts| - 1];
      var t := ts[|ts| - 1];
      var ws := TrusteeWrites(Listed(ts));
      assert ws[..|ws| - 1] == TrusteeWrites(Listed(init));
      assert ws[|ws| - 1] == WriteTrustee(t);
      TrusteeWritesEffect(s, init);
      assert Keyed(ts, TrusteeId) == Keyed(init, TrusteeId)[t.id := t];
      MapUnionUpdate(s.trustees, Keyed(init, TrusteeId), t.id, t);
    } else {
      assert s.(trustees := s.trustees + map[]) == s;
    }
  }

  /** Importing the pages of a listing, all timestamped, puts the listed store back over what was there. */
  lemma PageWritesRestore(s: StoreState, ps: seq<Page>, pageKeys: seq<string>, m: map<string, Page>, now: int)
    requires forall k :: k in m ==> m[k].id == k && m[k].lastModified != 0
    requires Listing(ps, pageKeys, m)
    ensures ApplyAll(s, PageWrites(ps, now)) == s.(pages := s.pages + m)
  {
    PageWritesEffect(s, ps, now);
    assert ImportedPages(ps, now) == ps;
    ListingRebuilds(ps, pageKeys, m, PageId);
  }

  /** The same for the trustees. */
  lemma TrusteeWritesRestore(s: StoreState, ts: seq<Trustee>, trusteeKeys: seq<string>, m: map<string, Trustee>)
    requires forall k :: k in m ==> m[k].id == k
    requires Listing(ts, trusteeKeys, m)
    ensures ApplyAll(s, TrusteeWrites(Listed(ts))) == s.(trustees := s.trustees + m)
  {
    TrusteeWritesEffect(s, ts);
    ListingRebuilds(ts, trusteeKeys, m, TrusteeId);
  }

  /** The writes of a document, split at its four parts. */
  lemma ImportWritesInParts(s: StoreState, doc: BackupDoc, now: int)
    requires Importable(doc)
    ensures ApplyAll(s, ImportWrites(doc, now))
      == ApplyAll(ApplyAll(ApplyAll(s.(settings := doc.settings), PageWrites(doc.pages.value, now)),
                           TrusteeWrites(doc.trustees)),
                  ConditionWrites(doc.releaseConditions))
  {
    var w0 := [WriteSettings(doc.settings.value)];
    var pw := PageWrites(doc.pages.value, now);
    var tw := TrusteeWrites(doc.trustees);
    var cw := ConditionWrites(doc.releaseConditions);
    assert ImportWrites(doc, now) == ((w0 + pw) + tw) + cw;
    ApplyAllAppend(s, (w0 + pw) + tw, cw);
    ApplyAllAppend(s, w0 + pw, tw);
    ApplyAllAppend(s, w0, pw);
    assert w0[..0] == [];
  }

  /**
   * Export then import into an empty store restores the store exactly, when
   * every stored page carries a timestamp (as every page savePage wrote does)
   * and the settings record exists.
   */
  lemma ExportImportRestores(s: StoreState, ps: seq<Page>, pageKeys: seq<string>, ts: seq<Trustee>, trusteeKeys: seq<string>,
                             timestamp: int, now: int)
    requires forall k :: k in s.pages ==> s.pages[k].id == k && s.pages[k].lastModified != 0
    requires forall k :: k in s.trustees ==> s.trustees[k].id == k
    requires s.settings.Some?
    requires Listing(ps, pageKeys, s.pages) && Listing(ts, trusteeKeys, s.trustees)
    ensures var doc := ExportDoc(timestamp, ps, s.settings, ts, s.conditions);
      ApplyAll(StoreState(map[], None, map[], None), ImportWrites(doc, now)) == s
  {
    var doc := ExportDoc(timestamp, ps, s.settings, ts, s.conditions);
    var s1 := StoreState(map[], s.settings, map[], None);
    ImportWritesInParts(StoreState(map[], None, map[], None), doc, now);
    PageWritesRestore(s1, ps, pageKeys, s.pages, now);
    EmptyUnion(s.pages);
    var s2 := s1.(pages := s.pages);
    TrusteeWritesRestore(s2, ts, trusteeKeys, s.trustees);
    EmptyUnion(s.trustees);
    ConditionWritesStore(s2.(trustees := s.trustees), s.conditions);
  }

  lemma EmptyUnion<V>(m: map<string, V>)
    ensures map[] + m == m
  {
  }

  /** The conditions write, when there is one, stores the record. */
  lemma ConditionWritesStore(s: StoreState, c: Option<Conditions>)
    ensures ApplyAll(s, ConditionWrites(c)) == if c.Some? then s.(conditions := c) else s
  {
    if c.Some? {
      var cw := ConditionWrites(c);
      assert cw[..0] == [];
    }
  }

  /** Where each part of a document's writes sits in the whole. */
  lemma ImportLayout(doc: BackupDoc, now: int)
    requires Importable(doc)
    ensures var ws := ImportWrites(doc, now);
      var p := |doc.pages.value|;
      var t := |TrusteeWrites(doc.trustees)|;
      && ws[0..1] == [WriteSettings(doc.settings.value)]
      && ws[1..1 + p] == PageWrites(doc.pages.value, now)
      && ws[1 + p..1 + p + t] == TrusteeWrites(doc.trustees)
      && ws[1 + p + t..] == ConditionWrites(doc.releaseConditions)
  {
    var ws := ImportWrites(doc, now);
    var w0 := [WriteSettings(doc.settings.value)];
    var pw := PageWrites(doc.pages.value, now);
    var tw := TrusteeWrites(doc.trustees);
    var cw := ConditionWrites(doc.releaseConditions);
    assert ws == ((w0 + pw) + tw) + cw;
    assert ws[..1 + |pw| + |tw|] == (w0 + pw) + tw;
    assert ws[..1 + |pw|] == w0 + pw;
  }

  /** Running the first `k` writes and then `d` more of the part that starts at `k` is running the first `k + d`. */
  lemma Extend(s: StoreState, ws: seq<Write>, k: nat, part: seq<Write>, d: nat)
    requires k + |part| <= |ws| && ws[k..k + |part|] == part && d <= |part|
    ensures ApplyAll(ApplyAll(s, ws[..k]), part[..d]) == ApplyAll(s, ws[..k + d])
  {
    assert ws[..k + d] == ws[..k] + part[..d];
    ApplyAllAppend(s, ws[..k], part[..d]);
  }

  /** The first write of an import sets the settings. */
  lemma StepSettings(s: StoreState, doc: BackupDoc, now: int)
    requires Importable(doc)
    ensures ApplyAll(s, ImportWrites(doc, now)[..1]) == s.(settings := doc.settings)
  {
    var ws := ImportWrites(doc, now);
    assert ws[..1][..0] == [];
  }

  /** The next `d` writes after the settings are the first `d` page writes. */
  lemma StepPages(s: StoreState, doc: BackupDoc, now: int, d: nat)
    requires Importable(doc) && d <= |doc.pages.value|
    ensures var ws := ImportWrites(doc, now);
      ApplyAll(ApplyAll(s, ws[..1]), PageWrites(doc.pages.value, now)[..d]) == ApplyAll(s, ws[..1 + d])
  {
    ImportLayout(doc, now);
    Extend(s, ImportWrites(doc, now), 1, PageWrites(doc.pages.value, now), d);
  }

  /** The next `d` writes after the pages are the first `d` trustee writes. */
  lemma StepTrustees(s: StoreState, doc: BackupDoc, now: int, d: nat)
    requires Importable(doc) && d <= |TrusteeWrites(doc.trustees)|
    ensures var ws := ImportWrites(doc, now);
      var k := 1 + |doc.pages.value|;
      ApplyAll(ApplyAll(s, ws[..k]), TrusteeWrites(doc.trustees)[..d]) == ApplyAll(s, ws[..k + d])
  {
    ImportLayout(doc, now);
    Extend(s, ImportWrites(doc, now), 1 + |doc.pages.value|, TrusteeWrites(doc.trustees), d);
  }

  /** The last write, when the document holds release conditions, stores them. */
  lemma StepConditions(s: StoreState, doc: BackupDoc, now: int)
    requires Importable(doc) && doc.releaseConditions.Some?
    ensures var ws := ImportWrites(doc, now);
      var k := 1 + |doc.pages.value| + |TrusteeWrites(doc.trustees)|;
      ApplyAll(s, ws[..k]).(conditions := doc.releaseConditions) == ApplyAll(s, ws)
  {
    var ws := ImportWrites(doc, now);
    ImportLayout(doc, now);
    assert ws[..|ws|] == ws;
  }

  /* ---------------- The component ---------------- */

  const ImportError := "Error importing backup. Please check the file format."

  /** `Successfully imported N entries[, M trustee(s)]!`, where M is `trustees.length` when the field is truthy. */
  function ImportMessage(doc: BackupDoc): string
    requires Importable(doc)
  {
    var trusteeCount := match doc.trustees
      case Missing => 0
      case NotAnArray(n) => n
      case Listed(ts) => |ts|;
    "Successfully imported " + IntToString(|doc.pages.value|) + " entries"
      + (if trusteeCount > 0 then ", " + IntToString(trusteeCount) + " trustee" + (if trusteeCount > 1 then "s" else "") else "")
      + "!"
  }

  class BackupScreen {
    const store: Store
    var loading: bool
    var message: string

    constructor (store: Store)
      ensures this.store == store && !loading && message == ""
    {
      this.store := store;
      loading, message := false, "";
    }

    /** handleExport: the document of everything stored, with `timestamp = now`. */
    method HandleExport(now: int)
      returns (doc: BackupDoc, ghost pageKeys: seq<string>, ghost trusteeKeys: seq<string>)
      requires store.Valid()
      modifies this
      ensures doc.pages.Some? && Listing(doc.pages.value, pageKeys, store.pages)
      ensures doc.trustees.Listed? && Listing(doc.trustees.trustees, trusteeKeys, store.trustees)
      ensures doc == ExportDoc(now, doc.pages.value, store.settings, doc.trustees.trustees, store.conditions)
      ensures Importable(doc) <==> store.settings.Some?
      ensures !loading && message == "Backup exported successfully!"
    {
      loading := true;
      message := "";
      var pages;
      pages, pageKeys := store.GetAllPages();
      var settings := store.GetSettings();
      var trustees;
      trustees, trusteeKeys := store.GetTrustees();
      var releaseConditions := store.GetReleaseConditions();
      doc := BackupDoc("1.0", now, Some(pages), settings, Listed(trustees), releaseConditions);
      message := "Backup exported successfully!";
      loading := false;
    }

    /** The page loop of handleImport, given how many writes may still succeed; returns how many pages were written. */
    method ImportPages(pages: seq<Page>, now: int, budget: nat) returns (done: nat)
      requires store.Valid()
      modifies store
      ensures store.Valid()
      ensures done == if budget < |pages| then budget else |pages|
      ensures store.State() == ApplyAll(old(store.State()), PageWrites(pages, now)[..done])
    {
      ghost var ws := PageWrites(pages, now);
      done := 0;
      for i := 0 to |pages|
        invariant done == i && i <= budget
        invariant store.Valid()
        invariant store.State() == ApplyAll(old(store.State()), ws[..i])
      {
        if i == budget {
          return;
        }
        var page := pages[i];
        store.SavePage(page.id, page.category, page.encryptedBlob, page.iv, OrDefault(page.lastModified, now));
        assert ws[..i + 1][..i] == ws[..i];
        done := done + 1;
      }
    }

    /** The trustee loop of handleImport, in the same way. */
    method ImportTrustees(trustees: seq<Trustee>, budget: nat) returns (done: nat)
      requires store.Valid()
      modifies store
      ensures store.Valid()
      ensures done == if budget < |trustees| then budget else |trustees|
      ensures store.State() == ApplyAll(old(store.State()), TrusteeWrites(Listed(trustees))[..done])
    {
      ghost var ws := TrusteeWrites(Listed(trustees));
      done := 0;
      for j := 0 to |trustees|
        invariant done == j && j <= budget
        invariant store.Valid()
        invariant store.State() == ApplyAll(old(store.State()), ws[..j])
      {
        if j == budget {
          return;
        }
        store.SaveTrustee(trustees[j]);
        assert ws[..j + 1][..j] == ws[..j];
        done := done + 1;
      }
    }

    /** handleImport's settings write and page loop, until the write numbered `failAt` throws. */
    method WriteSettingsAndPages(backupData: BackupDoc, now: int, failAt: nat) returns (written: nat)
      requires store.Valid() && Importable(backupData)
      modifies store
      ensures store.Valid()
      ensures var ws := ImportWrites(backupData, now);
        var head := 1 + |backupData.pages.value|;
        && written == (if failAt < head then failAt else head)
        && store.State() == ApplyAll(old(store.State()), ws[..written])
    {
      ghost var s0 := store.State();
      written := 0;
      if failAt == 0 {
        assert ImportWrites(backupData, now)[..0] == [];
        return;
      }
      store.SaveSettings(backupData.settings.value);
      StepSettings(s0, backupData, now);
      written := 1;
      var donePages := ImportPages(backupData.pages.value, now, failAt - written);
      StepPages(s0, backupData, now, donePages);
      written := written + donePages;
    }

    /** handleImport's trustee loop and release-conditions write, once the pages are all written. */
    method WriteTrusteesAndConditions(backupData: BackupDoc, now: int, failAt: nat, ghost s0: StoreState, written0: nat) returns (written: nat)
      requires store.Valid() && Importable(backupData)
      requires written0 == 1 + |backupData.pages.value| <= failAt
      requires store.State() == ApplyAll(s0, ImportWrites(backupData, now)[..written0])
      modifies store
      ensures store.Valid()
      ensures var ws := ImportWrites(backupData, now);
        && written == (if failAt < |ws| then failAt else |ws|)
        && store.State() == ApplyAll(s0, ws[..written])
    {
      written := WriteTrustees(backupData, now, failAt, s0, written0);
      if written < written0 + |TrusteeWrites(backupData.trustees)| {
        return;
      }
      written := WriteConditions(backupData, now, failAt, s0, written);
    }

    /** handleImport's trustee loop, run only when the field is an array. */
    method WriteTrustees(backupData: BackupDoc, now: int, failAt: nat, ghost s0: StoreState, written0: nat) returns (written: nat)
      requires store.Valid() && Importable(backupData)
      requires written0 == 1 + |backupData.pages.value| <= failAt
      requires store.State() == ApplyAll(s0, ImportWrites(backupData, now)[..written0])
      modifies store
      ensures store.Valid()
      ensures var head := written0 + |TrusteeWrites(backupData.trustees)|;
        written == if failAt < head then failAt else head
      ensures store.State() == ApplyAll(s0, ImportWrites(backupData, now)[..written])
    {
      written := written0;
      if backupData.trustees.Listed? {
        var doneTrustees := ImportTrustees(backupData.trustees.trustees, failAt - written);
        StepTrustees(s0, backupData, now, doneTrustees);
        written := written + doneTrustees;
      }
    }

    /** handleImport's last write: the release conditions, when present. */
    method WriteConditions(backupData: BackupDoc, now: int, failAt: nat, ghost s0: StoreState, written0: nat) returns (written: nat)
      requires store.Valid() && Importable(backupData)
      requires written0 == 1 + |backupData.pages.value| + |TrusteeWrites(backupData.trustees)| <= failAt
      requires store.State() == ApplyAll(s0, ImportWrites(backupData, now)[..written0])
      modifies store
      ensures store.Valid()
      ensures var ws := ImportWrites(backupData, now);
        && written == (if failAt < |ws| then failAt else |ws|)
        && store.State() == ApplyAll(s0, ws[..written])
    {
      ghost var ws := ImportWrites(backupData, now);
      written := written0;
      if backupData.releaseConditions.Some? {
        if failAt == written {
          return;
        }
        store.SaveReleaseConditions(backupData.releaseConditions.value);
        StepConditions(s0, backupData, now);
        written := written + 1;
      }
      assert ws[..written] == ws;
    }

    /**
     * The writes of handleImport's try block, in order, until the one numbered
     * `failAt` throws; returns how many completed and whether all did.
     */
    method WriteDocument(backupData: BackupDoc, now: int, failAt: nat) returns (written: nat, completed: bool)
      requires store.Valid() && Importable(backupData)
      modifies store
      ensures store.Valid()
      ensures var ws := ImportWrites(backupData, now);
        && written == (if failAt < |ws| then failAt else |ws|)
        && (completed <==> written == |ws|)
        && store.State() == ApplyAll(old(store.State()), ws[..written])
    {
      ghost var s0 := store.State();
      written := WriteSettingsAndPages(backupData, now, failAt);
      if written < 1 + |backupData.pages.value| {
        return written, false;
      }
      written := WriteTrusteesAndConditions(backupData, now, failAt, s0, written);
      completed := written == 1 + |backupData.pages.value| + |TrusteeWrites(backupData.trustees)|
                             + |ConditionWrites(backupData.releaseConditions)|;
    }

    /**
     * handleImport. `file` is None when no file was chosen. The store write
     * numbered `failAt` (counting from 0) throws; a `failAt` past the last
     * write means none does. A document without pages or settings is
     * rejected before any write.
     */
    method HandleImport(file: Option<BackupDoc>, now: int, failAt: nat)
      requires store.Valid()
      modifies this, store
      ensures store.Valid()
      ensures file.None? ==> store.State() == old(store.State()) && loading == old(loading) && message == old(message)
      ensures file.Some? ==> !loading
      ensures file.Some? && !Importable(file.value) ==> store.State() == old(store.State()) && message == ImportError
      ensures file.Some? && Importable(file.value) ==>
        var ws := ImportWrites(file.value, now);
        && (failAt < |ws| ==> store.State() == ApplyAll(old(store.State()), ws[..failAt]) && message == ImportError)
        && (failAt >= |ws| ==> store.State() == ApplyAll(old(store.State()), ws) && message == ImportMessage(file.value))
    {
      if file.None? {
        return;
      }
      var backupData := file.value;
      loading := true;
      message := "";
      if backupData.pages.None? || backupData.settings.None? {
        message := ImportError;
        loading := false;
        return;
      }
      var written, completed := WriteDocument(backupData, now, failAt);
      if !completed {
        message := ImportError;
      } else {
        ghost var ws := ImportWrites(backupData, now);
        assert ws[..written] == ws;
        message := ImportMessage(backupData);
      }
      loading := false;
    }
  }
}
