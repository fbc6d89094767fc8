/**
 * The store provider: it creates the store once per mounted component
 * and, once mounted, restores a saved profile from local storage.
 */
module StoreProvider {
  import opened Wrappers
  import opened Profiles
  import opened UserSlice

  /**
   * `JSON.parse` of the saved text, as far as the model reads it: the text
   * `null` gives `null`, a profile's text gives the profile, and anything
   * else is taken as a parse error.
   */
  function ParseSaved(saved: string): (r: Option<Option<Profile>>)
    ensures r == Some(None) <==> saved == "null"
  {
    if saved == "null" then Some(None)
    else match Parse(saved)
      case None => None
      case Some(p) => Some(Some(p))
  }

  /**
   * What the load effect dispatches, if anything: nothing for a missing
   * or empty item (the `if (savedData)` test) or a parse error (caught
   * and logged).
   */
  function Restored(saved: Option<string>): (r: Option<Option<Profile>>)
    ensures saved.None? || saved == Some("") ==> r.None?
    ensures saved == Some("null") ==> r == Some(None)
    ensures forall p :: saved == Some(Serialize(p)) ==> r == Some(Some(p))
  {
    match saved
    case None => None
    case Some(text) =>
      if text == "" then None
      else
        assert forall p :: text == Serialize(p) ==> Parse(text) == Some(p) by {
          forall p | text == Serialize(p) { ParseSerialize(p); }
        }
        ParseSaved(text)
  }

  /** The item a saved profile leaves in storage is read back as that profile. */
  lemma ReloadRestores(items: map<string, string>, p: Profile)
    ensures var saved := Persist(items, Some(p));
      StorageKey in saved && Restored(Some(saved[StorageKey])) == Some(Some(p))
  {
    ParseSerialize(p);
  }

  /** Restoring a saved profile dispatches it again, and that write leaves storage as it was. */
  lemma ReloadKeepsStorage(items: map<string, string>, p: Profile)
    ensures var saved := Persist(items, Some(p));
      Persist(saved, Restored(Some(saved[StorageKey])).value) == saved
  {
    ReloadRestores(items, p);
  }

  /** The provider component: its `storeRef` and the storage the store writes to. */
  class Provider {
    var storeRef: Store?
    const storage: LocalStorage

    constructor (storage: LocalStorage)
      ensures storeRef == null && this.storage == storage
    {
      storeRef := null;
      this.storage := storage;
    }

    predicate Valid()
      reads this, storeRef
    {
      storeRef != null ==> storeRef.storage == storage
    }

    /** The render body: the store is made on the first render and reused afterwards. */
    method Render() returns (store: Store)
      requires Valid()
      modifies this
      ensures Valid() && storeRef == store && store.storage == storage
      ensures old(storeRef) != null ==> store == old(storeRef) && store.state == old(store.state)
      ensures old(storeRef) == null ==> fresh(store) && store.state == InitialState
    {
      if storeRef == null {
        storeRef := new Store(storage);
      }
      store := storeRef;
    }

    /**
     * The mount effect: without a store it does nothing; otherwise it
     * dispatches what it restores from the key, or leaves everything as
     * it was.
     */
    method LoadEffect()
      requires Valid()
      modifies storeRef, storage
      ensures storeRef == old(storeRef) && Valid()
      ensures storeRef == null ==> storage.items == old(storage.items)
      ensures storeRef != null ==>
        var restored := Restored(old(storage.GetItem(StorageKey)));
        (restored.None? ==> storeRef.state == old(storeRef.state) && storage.items == old(storage.items)) &&
        (restored.Some? ==>
          storeRef.state == UserState(restored.value) &&
          storage.items == Persist(old(storage.items), restored.value))
    {
      if storeRef == null {
        return;
      }
      var savedData := storage.GetItem(StorageKey);
      if savedData.Some? && savedData.value != "" {
        var parsed := ParseSaved(savedData.value);
        if parsed.Some? {
          storeRef.SetUserData(parsed.value);
        }
      }
    }
  }

  /**
   * A page load after a save: a fresh provider renders, its effect runs,
   * and the store holds the saved profile while storage keeps its text.
   */
  method ReloadAfterSave(storage: LocalStorage, p: Profile) returns (store: Store)
    requires StorageKey in storage.items && storage.items[StorageKey] == Serialize(p)
    modifies storage
    ensures store.state == UserState(Some(p))
    ensures storage.items == old(storage.items)
  {
    var provider := new Provider(storage);
    store := provider.Render();
    provider.LoadEffect();
    assert storage.items == Persist(old(storage.items), Some(p));
  }
}
