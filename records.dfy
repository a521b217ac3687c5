/**
 * The persisted entities and the JavaScript values they hold.
 *
 * Numeric fields use 0 for JavaScript's 0, null and a missing property alike:
 * every reader of these fields only tests them for truthiness (`x || default`,
 * `if (x)`), so the three are indistinguishable to the code modelled here.
 */
module Records {
  import opened Wrappers

  /** Milliseconds in a day: 1000 * 60 * 60 * 24. */
  const MsPerDay: int := 1000 * 60 * 60 * 24

  /** `x || d` on a number field. */
  function OrDefault(x: int, d: int): (r: int)
    ensures x != 0 ==> r == x
    ensures x == 0 ==> r == d
  {
    if x != 0 then x else d
  }

  /** A value of a decrypted record: strings from the form inputs, numbers (ids and timestamps carried over by an edit). */
  datatype Value = Str(s: string) | Num(n: int) | Null

  /** JavaScript truthiness of a value: '', 0 and null/undefined are falsy. */
  predicate Truthy(v: Value) {
    match v
    case Str(s) => s != ""
    case Num(n) => n != 0
    case Null => false
  }

  /** A plain JavaScript object: its own properties in insertion order. */
  type Entry = seq<(string, Value)>

  predicate HasKey(o: Entry, k: string) {
    exists i :: 0 <= i < |o| && o[i].0 == k
  }

  predicate DistinctKeys(o: Entry) {
    forall i, j :: 0 <= i < j < |o| ==> o[i].0 != o[j].0
  }

  /** `o[k]`, with undefined read as Null. */
  function Get(o: Entry, k: string): (v: Value)
    ensures !HasKey(o, k) ==> v == Null
  {
    if o == [] then Null else if o[0].0 == k then o[0].1 else Get(o[1..], k)
  }

  /** `o[k] = v`: an existing property keeps its position, a new one goes last. */
  function Set(o: Entry, k: string, v: Value): (r: Entry)
    ensures Get(r, k) == v
    ensures forall k' :: k' != k ==> Get(r, k') == Get(o, k')
    ensures HasKey(o, k) ==> |r| == |o| && forall i :: 0 <= i < |o| ==> r[i].0 == o[i].0
    ensures !HasKey(o, k) ==> r == o + [(k, v)]
    ensures DistinctKeys(o) ==> DistinctKeys(r)
  {
    if o == [] then [(k, v)]
    else if o[0].0 == k then [(k, v)] + o[1..]
    else
      var rest := Set(o[1..], k, v);
      assert HasKey(o, k) ==> HasKey(o[1..], k);
      assert !HasKey(o[1..], k) ==> forall i :: 1 <= i < |o| ==> o[i].0 != k;
      assert !HasKey(o, k) ==> [o[0]] + rest == o + [(k, v)] by {
        if !HasKey(o, k) {
          assert rest == o[1..] + [(k, v)];
          assert o == [o[0]] + o[1..];
        }
      }
      [o[0]] + rest
  }

  /** `{...o, ...src}`: each property of `src`, in order, assigned onto `o`. */
  function Assign(o: Entry, src: Entry): (r: Entry)
    ensures DistinctKeys(o) ==> DistinctKeys(r)
    ensures o != [] ==> r != [] && r[0].0 == o[0].0
    decreases |src|
  {
    if src == [] then o else Assign(Set(o, src[0].0, src[0].1), src[1..])
  }

  /** After a spread, a key of `src` reads as in `src` and any other key as in `o`. */
  lemma {:induction false} AssignGet(o: Entry, src: Entry, k: string)
    requires DistinctKeys(src)
    ensures Get(Assign(o, src), k) == if HasKey(src, k) then Get(src, k) else Get(o, k)
    decreases |src|
  {
    if src != [] {
      var o' := Set(o, src[0].0, src[0].1);
      AssignGet(o', src[1..], k);
      if src[0].0 == k {
        assert !HasKey(src[1..], k);
      } else {
        assert HasKey(src, k) <==> HasKey(src[1..], k);
      }
    }
  }

  /** An encrypted record: one user-entered item of one category (storage.js savePage). */
  datatype Page = Page(id: string, category: string, encryptedBlob: string, iv: string, lastModified: int)

  /** A trustee record; `addedDate` is a millisecond timestamp. */
  datatype Trustee = Trustee(id: string, name: string, email: string, phone: string, relationship: string, addedDate: int)

  /**
   * The release conditions record. `released` absent reads as false;
   * `releaseDate` is None when the property is absent.
   */
  datatype Conditions = Conditions(
    inactivityDays: int,
    requiredTrustees: int,
    lastActivity: int,
    released: bool,
    releaseDate: Option<int>)

  /** The backup e-mail settings; `lastSent` 0 stands for null. */
  datatype BackupEmail = BackupEmail(email: string, frequency: int, lastSent: int)

  /**
   * The settings record. First run writes only `salt` and `iterations`; the
   * e-mail screens add `resendFromEmail` and `backupEmail` to whatever is there.
   */
  datatype Settings = Settings(
    salt: Option<string>,
    iterations: int,
    resendFromEmail: Option<string>,
    backupEmail: Option<BackupEmail>)

  /** The empty object `{}`. */
  const EmptySettings := Settings(None, 0, None, None)

  /** What an e-mail send reports: `{success, error}`. */
  datatype SendResult = SendResult(success: bool, error: string)
}
