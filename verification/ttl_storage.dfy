/**
 * The persisted selection of the content script: `readStoredTtl` and `persistTtl` over
 * the page origin's `localStorage`.
 */
module TtlStorage {
  import opened Wrappers
  import opened NumberText

  const STORAGE_KEY: string := "tweb-view-once-helper:ttl"

  /**
   * How the storage behaves: usable, refused altogether (every call throws, as when
   * storage is disabled), or full (every `setItem` throws a quota error; reads and
   * removals still work).
   */
  datatype Access = Available | Blocked | QuotaExceeded

  /** The origin's `localStorage`. */
  class LocalStorage {
    var items: map<string, string>
    const access: Access

    constructor (items: map<string, string>, access: Access)
      ensures this.items == items && this.access == access
    {
      this.items := items;
      this.access := access;
    }

    /** `setItem(key, value)`; `threw` tells whether it threw instead. */
    method SetItem(key: string, value: string) returns (threw: bool)
      modifies this
      ensures threw == (access != Available)
      ensures items == if threw then old(items) else old(items)[key := value]
    {
      threw := access != Available;
      if !threw {
        items := items[key := value];
      }
    }

    /** `removeItem(key)`; `threw` tells whether it threw instead. */
    method RemoveItem(key: string) returns (threw: bool)
      modifies this
      ensures threw == (access == Blocked)
      ensures items == if threw then old(items) else old(items) - {key}
    {
      threw := access == Blocked;
      if !threw {
        items := items - {key};
      }
    }
  }

  /**
   * `readStoredTtl()` on a readable store: null when the key is absent, and when its
   * text does not parse to a number (`JSON.parse` throwing or yielding another kind of
   * value); otherwise the number.
   */
  function StoredTtl(items: map<string, string>): (ttl: Option<int>)
    ensures STORAGE_KEY !in items ==> ttl.None?
    ensures STORAGE_KEY in items && ParseIntText(items[STORAGE_KEY]).None? ==> ttl.None?
    ensures forall n :: STORAGE_KEY in items && items[STORAGE_KEY] == IntText(n) ==> ttl == Some(n)
    ensures STORAGE_KEY in items && items[STORAGE_KEY] == "-0" ==> ttl == Some(0)
    ensures ttl.Some? ==>
      STORAGE_KEY in items &&
      (IntText(ttl.value) == items[STORAGE_KEY] || (items[STORAGE_KEY] == "-0" && ttl.value == 0))
  {
    if STORAGE_KEY !in items then None
    else
      ParseIntTextOfAnyIntText(items[STORAGE_KEY]);
      ParseNegativeZero();
      var parsed := ParseIntText(items[STORAGE_KEY]);
      if parsed.Some? && items[STORAGE_KEY] != "-0" then
        IntTextOfParseIntText(items[STORAGE_KEY]);
        parsed
      else parsed
  }

  /** `readStoredTtl()`: a store that refuses access reads as null (the error is caught). */
  function ReadStoredTtl(store: LocalStorage): (ttl: Option<int>)
    reads store
    ensures store.access == Blocked ==> ttl.None?
    ensures store.access != Blocked ==> ttl == StoredTtl(store.items)
  {
    if store.access == Blocked then None else StoredTtl(store.items)
  }

  /**
   * The store's items after `persistTtl(value)`: null removes the key, a number is
   * written as its JSON text; a call that throws leaves the items as they were.
   */
  function PersistedItems(items: map<string, string>, access: Access, value: Option<int>): (after: map<string, string>)
    ensures forall k :: k != STORAGE_KEY ==> (k in after <==> k in items) && (k in after ==> after[k] == items[k])
    ensures value.None? && access != Blocked ==> STORAGE_KEY !in after
    ensures value.Some? && access == Available ==> STORAGE_KEY in after && after[STORAGE_KEY] == IntText(value.value)
    ensures access == Blocked || (value.Some? && access == QuotaExceeded) ==> after == items
  {
    if value.None? then
      if access == Blocked then items else items - {STORAGE_KEY}
    else
      if access == Available then items[STORAGE_KEY := IntText(value.value)] else items
  }

  /** `persistTtl(value)`: a storage failure is caught and never reaches the caller. */
  method PersistTtl(store: LocalStorage, value: Option<int>)
    modifies store
    ensures store.items == PersistedItems(old(store.items), store.access, value)
  {
    if value.None? {
      var _ := store.RemoveItem(STORAGE_KEY);
    } else {
      var _ := store.SetItem(STORAGE_KEY, IntText(value.value));
    }
  }

  /**
   * Reading back after persisting: on a usable store the value written is the value
   * read, and null leaves no key behind; a full store still honours null but keeps the
   * old value for a number; a refused store always reads null.
   */
  lemma PersistThenRead(items: map<string, string>, access: Access, value: Option<int>)
    ensures var after := PersistedItems(items, access, value);
      var read := if access == Blocked then None else StoredTtl(after);
      (access == Available ==> read == value) &&
      (access == QuotaExceeded && value.None? ==> read == None) &&
      (access == QuotaExceeded && value.Some? ==> read == StoredTtl(items)) &&
      (access == Blocked ==> read == None)
  {
  }
}
