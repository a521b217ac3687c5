/**
 * The four keyed stores of storage.js (pages, settings, trustees,
 * releaseConditions) as maps in one object, with the read and
 * read-modify-write helpers the components call.
 *
 * The settings and releaseConditions stores are only ever used under the
 * single keys "settings" and "conditions", so each is an Option here.
 */
module Storage {
  import opened Wrappers
  import opened Records

  /** The sender used when none is configured. */
  const DefaultFromEmail := "Legacy Organizer <onboarding@resend.dev>"

  /** The whole persisted state, as a value. */
  datatype StoreState = StoreState(
    pages: map<string, Page>,
    settings: Option<Settings>,
    trustees: map<string, Trustee>,
    conditions: Option<Conditions>)

  /** `ks` lists every key of `keys` exactly once. */
  predicate Enumerates(ks: seq<string>, keys: set<string>) {
    && |ks| == |keys|
    && (forall i :: 0 <= i < |ks| ==> ks[i] in keys)
    && (forall i, j :: 0 <= i < j < |ks| ==> ks[i] != ks[j])
  }

  /** `vs` are the values of `m`, in the order in which `ks` visits its keys. */
  predicate Listing<T(==)>(vs: seq<T>, ks: seq<string>, m: map<string, T>) {
    && Enumerates(ks, m.Keys)
    && |vs| == |ks|
    && forall i :: 0 <= i < |vs| ==> vs[i] == m[ks[i]]
  }

  lemma {:induction false} DistinctCardinality(ks: seq<string>)
    requires forall i, j :: 0 <= i < j < |ks| ==> ks[i] != ks[j]
    ensures |set k | k in ks| == |ks|
  {
    if ks != [] {
      var init := ks[..|ks| - 1];
      DistinctCardinality(init);
      assert (set k | k in ks) == (set k | k in init) + {ks[|ks| - 1]};
      assert ks[|ks| - 1] !in (set k | k in init);
    }
  }

  /** An enumeration misses no key: every stored key occurs in it. */
  lemma EnumerationCovers(ks: seq<string>, keys: set<string>, k: string)
    requires Enumerates(ks, keys)
    requires k in keys
    ensures k in ks
  {
    var listed := set x | x in ks;
    DistinctCardinality(ks);
    assert listed <= keys;
    var missing := keys - listed;
    assert keys == listed + missing && listed !! missing;
    assert |keys| == |listed| + |missing|;
    assert missing == {};
    assert k in listed;
  }

  /**
   * localForage's `iterate`: visits every stored value once, pushing it onto
   * the result. The order in which keys are visited is not modelled; `ks`
   * records the order that was taken.
   */
  method Iterate<T>(m: map<string, T>) returns (vs: seq<T>, ghost ks: seq<string>)
    ensures Enumerates(ks, m.Keys)
    ensures |vs| == |ks| && forall i :: 0 <= i < |vs| ==> vs[i] == m[ks[i]]
  {
    vs, ks := [], [];
    var rest := m.Keys;
    while rest != {}
      invariant rest <= m.Keys
      invariant forall i :: 0 <= i < |ks| ==> ks[i] in m.Keys && ks[i] !in rest
      invariant forall i, j :: 0 <= i < j < |ks| ==> ks[i] != ks[j]
      invariant |ks| + |rest| == |m.Keys|
      invariant |vs| == |ks| && forall i :: 0 <= i < |vs| ==> vs[i] == m[ks[i]]
      decreases rest
    {
      var k :| k in rest;
      vs, ks := vs + [m[k]], ks + [k];
      rest := rest - {k};
    }
  }

  /** `settings?.resendFromEmail || DefaultFromEmail`. */
  function ResendFromEmailOf(s: Option<Settings>): (r: string)
    ensures r != ""
    ensures s.Some? && s.value.resendFromEmail.Some? && s.value.resendFromEmail.value != "" ==> r == s.value.resendFromEmail.value
    ensures s.None? || s.value.resendFromEmail.None? || s.value.resendFromEmail.value == "" ==> r == DefaultFromEmail
  {
    if s.Some? && s.value.resendFromEmail.Some? && s.value.resendFromEmail.value != "" then s.value.resendFromEmail.value
    else DefaultFromEmail
  }

  /** `settings?.backupEmail || null`. */
  function BackupEmailOf(s: Option<Settings>): (r: Option<BackupEmail>)
    ensures s.None? ==> r.None?
    ensures s.Some? ==> r == s.value.backupEmail
  {
    if s.Some? then s.value.backupEmail else None
  }

  /** The record saveResendFromEmail writes: the stored one (or `{}`) with only `resendFromEmail` replaced. */
  function WithResendFrom(s: Option<Settings>, fromEmail: string): (r: Settings)
    ensures r.resendFromEmail == Some(fromEmail)
    ensures s.Some? ==> r.salt == s.value.salt && r.iterations == s.value.iterations && r.backupEmail == s.value.backupEmail
    ensures s.None? ==> r == Settings(None, 0, Some(fromEmail), None)
  {
    s.GetOr(EmptySettings).(resendFromEmail := Some(fromEmail))
  }

  /** The record saveBackupEmailSettings writes: the stored one (or `{}`) with only `backupEmail` replaced. */
  function WithBackupEmail(s: Option<Settings>, b: Option<BackupEmail>): (r: Settings)
    ensures r.backupEmail == b
    ensures s.Some? ==> r.salt == s.value.salt && r.iterations == s.value.iterations && r.resendFromEmail == s.value.resendFromEmail
    ensures s.None? ==> r == Settings(None, 0, None, b)
  {
    s.GetOr(EmptySettings).(backupEmail := b)
  }

  /** Reading back a saved sender gives it back, unless it is empty, in which case the default is read. */
  lemma ResendFromRoundTrip(s: Option<Settings>, fromEmail: string)
    ensures ResendFromEmailOf(Some(WithResendFrom(s, fromEmail))) == if fromEmail != "" then fromEmail else DefaultFromEmail
  {
  }

  /** The two settings writers touch different fields, so their order does not matter and neither undoes the other. */
  lemma SettingsWritersCommute(s: Option<Settings>, fromEmail: string, b: Option<BackupEmail>)
    ensures WithBackupEmail(Some(WithResendFrom(s, fromEmail)), b) == WithResendFrom(Some(WithBackupEmail(s, b)), fromEmail)
    ensures BackupEmailOf(Some(WithResendFrom(s, fromEmail))) == BackupEmailOf(s)
    ensures ResendFromEmailOf(Some(WithBackupEmail(s, b))) == ResendFromEmailOf(s)
  {
  }

  /** The record updateLastActivity writes: only `lastActivity` changes, and nothing is written when there is no record. */
  function Touched(c: Option<Conditions>, timestamp: int): (r: Option<Conditions>)
    ensures r.Some? <==> c.Some?
    ensures c.Some? ==> r.value.lastActivity == timestamp
    ensures c.Some? ==> r.value.inactivityDays == c.value.inactivityDays && r.value.requiredTrustees == c.value.requiredTrustees
    ensures c.Some? ==> r.value.released == c.value.released && r.value.releaseDate == c.value.releaseDate
  {
    if c.Some? then Some(c.value.(lastActivity := timestamp)) else None
  }

  class Store {
    var pages: map<string, Page>
    var settings: Option<Settings>
    var trustees: map<string, Trustee>
    var conditions: Option<Conditions>

    /** Every page and every trustee is stored under its own id. */
    ghost predicate Valid()
      reads this
    {
      && (forall k :: k in pages ==> pages[k].id == k)
      && (forall k :: k in trustees ==> trustees[k].id == k)
    }

    function State(): StoreState
      reads this
    {
      StoreState(pages, settings, trustees, conditions)
    }

    constructor ()
      ensures Valid()
      ensures State() == StoreState(map[], None, map[], None)
    {
      pages, settings, trustees, conditions := map[], None, map[], None;
    }

    /** savePage: stores exactly the five given fields under `pageId`, replacing any record there. */
    method SavePage(pageId: string, category: string, encryptedBlob: string, iv: string, lastModified: int)
      requires Valid()
      modifies this
      ensures Valid()
      ensures pages == old(pages)[pageId := Page(pageId, category, encryptedBlob, iv, lastModified)]
      ensures settings == old(settings) && trustees == old(trustees) && conditions == old(conditions)
    {
      pages := pages[pageId := Page(pageId, category, encryptedBlob, iv, lastModified)];
    }

    /** getAllPages: every stored page exactly once. */
    method GetAllPages() returns (r: seq<Page>, ghost ks: seq<string>)
      requires Valid()
      ensures Listing(r, ks, pages)
      ensures forall i :: 0 <= i < |r| ==> r[i].id == ks[i]
    {
      r, ks := Iterate(pages);
    }

    /** getPageById. */
    method GetPageById(pageId: string) returns (r: Option<Page>)
      ensures r.Some? <==> pageId in pages
      ensures r.Some? ==> r.value == pages[pageId]
    {
      r := if pageId in pages then Some(pages[pageId]) else None;
    }

    /** deletePage: no record with that key remains; every other record is unchanged. */
    method DeletePage(pageId: string)
      requires Valid()
      modifies this
      ensures Valid()
      ensures pageId !in pages && pages == old(pages) - {pageId}
      ensures settings == old(settings) && trustees == old(trustees) && conditions == old(conditions)
    {
      pages := pages - {pageId};
    }

    method GetSettings() returns (s: Option<Settings>)
      ensures s == settings
    {
      s := settings;
    }

    /** saveSettings: replaces the whole settings record. */
    method SaveSettings(s: Settings)
      requires Valid()
      modifies this
      ensures Valid()
      ensures settings == Some(s)
      ensures pages == old(pages) && trustees == old(trustees) && conditions == old(conditions)
    {
      settings := Some(s);
    }

    /** hasInitialized: true exactly when a settings record exists. */
    method HasInitialized() returns (b: bool)
      ensures b <==> settings.Some?
    {
      var s := GetSettings();
      b := s.Some?;
    }

    /** getTrustees: every stored trustee exactly once. */
    method GetTrustees() returns (r: seq<Trustee>, ghost ks: seq<string>)
      requires Valid()
      ensures Listing(r, ks, trustees)
      ensures forall i :: 0 <= i < |r| ==> r[i].id == ks[i]
    {
      r, ks := Iterate(trustees);
    }

    /** saveTrustee: an existing id is replaced (count unchanged), a new id is added (count up by one). */
    method SaveTrustee(t: Trustee)
      requires Valid()
      modifies this
      ensures Valid()
      ensures trustees == old(trustees)[t.id := t]
      ensures |trustees| == if t.id in old(trustees) then |old(trustees)| else |old(trustees)| + 1
      ensures pages == old(pages) && settings == old(settings) && conditions == old(conditions)
    {
      trustees := trustees[t.id := t];
    }

    method DeleteTrustee(trusteeId: string)
      requires Valid()
      modifies this
      ensures Valid()
      ensures trusteeId !in trustees && trustees == old(trustees) - {trusteeId}
      ensures pages == old(pages) && settings == old(settings) && conditions == old(conditions)
    {
      trustees := trustees - {trusteeId};
    }

    method GetReleaseConditions() returns (c: Option<Conditions>)
      ensures c == conditions
    {
      c := conditions;
    }

    /** saveReleaseConditions: replaces the whole conditions record. */
    method SaveReleaseConditions(c: Conditions)
      requires Valid()
      modifies this
      ensures Valid()
      ensures conditions == Some(c)
      ensures pages == old(pages) && settings == old(settings) && trustees == old(trustees)
    {
      conditions := Some(c);
    }

    /** updateLastActivity: sets `lastActivity` to the argument, keeps every other field, writes nothing without a record. */
    method UpdateLastActivity(timestamp: int)
      requires Valid()
      modifies this
      ensures Valid()
      ensures conditions == Touched(old(conditions), timestamp)
      ensures pages == old(pages) && settings == old(settings) && trustees == old(trustees)
    {
      var c := GetReleaseConditions();
      if c.Some? {
        SaveReleaseConditions(c.value.(lastActivity := timestamp));
      }
    }

    method GetResendFromEmail() returns (fromEmail: string)
      ensures fromEmail == ResendFromEmailOf(settings)
    {
      var s := GetSettings();
      fromEmail := if s.Some? && s.value.resendFromEmail.Some? && s.value.resendFromEmail.value != ""
        then s.value.resendFromEmail.value else DefaultFromEmail;
    }

    /** saveResendFromEmail: only the sender field of the settings record changes. */
    method SaveResendFromEmail(fromEmail: string)
      requires Valid()
      modifies this
      ensures Valid()
      ensures settings == Some(WithResendFrom(old(settings), fromEmail))
      ensures pages == old(pages) && trustees == old(trustees) && conditions == old(conditions)
    {
      var s := GetSettings();
      var record := s.GetOr(EmptySettings);
      record := record.(resendFromEmail := Some(fromEmail));
      SaveSettings(record);
    }

    method GetBackupEmailSettings() returns (b: Option<BackupEmail>)
      ensures b == BackupEmailOf(settings)
    {
      var s := GetSettings();
      b := if s.Some? then s.value.backupEmail else None;
    }

    /** saveBackupEmailSettings: only the backup field of the settings record changes. */
    method SaveBackupEmailSettings(b: Option<BackupEmail>)
      requires Valid()
      modifies this
      ensures Valid()
      ensures settings == Some(WithBackupEmail(old(settings), b))
      ensures pages == old(pages) && trustees == old(trustees) && conditions == old(conditions)
    {
      var s := GetSettings();
      var record := s.GetOr(EmptySettings);
      record := record.(backupEmail := b);
      SaveSettings(record);
    }
  }
}
