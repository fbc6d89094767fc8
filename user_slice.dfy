/**
 * The user slice of the store: one `userData` field holding the profile or
 * nothing, one `setUserData` reducer that replaces it wholesale and, for a
 * profile, mirrors it into the browser's local storage.
 */
module UserSlice {
  import opened Wrappers
  import opened Profiles

  /** The local-storage key the profile is kept under. */
  const StorageKey := "lifeVisualizerUserData"

  datatype UserState = UserState(userData: Option<Profile>)

  /** The store starts with no profile; storage is not read here. */
  const InitialState := UserState(None)

  /** Storage after `setUserData(payload)`: a profile is written under the key, `null` writes nothing. */
  function Persist(items: map<string, string>, payload: Option<Profile>): (r: map<string, string>)
    ensures payload.Some? ==> StorageKey in r && Parse(r[StorageKey]) == payload
    ensures payload.None? ==> r == items
    ensures forall k :: k != StorageKey ==> (k in r <==> k in items)
    ensures forall k :: k in items && k != StorageKey ==> r[k] == items[k]
  {
    match payload
    case None => items
    case Some(p) =>
      ParseSerialize(p);
      items[StorageKey := Serialize(p)]
  }

  /** Saving the same payload twice leaves what saving it once left. */
  lemma PersistIdempotent(items: map<string, string>, payload: Option<Profile>)
    ensures Persist(Persist(items, payload), payload) == Persist(items, payload)
  {
  }

  /** A later save overrides an earlier one: only the last profile stays in storage. */
  lemma LastSaveWins(items: map<string, string>, p: Profile, q: Profile)
    ensures Persist(Persist(items, Some(p)), Some(q)) == Persist(items, Some(q))
  {
  }

  /** The browser's local storage, a string-to-string dictionary updated in place. */
  class LocalStorage {
    var items: map<string, string>

    constructor (items: map<string, string>)
      ensures this.items == items
    {
      this.items := items;
    }

    /** `getItem`: the stored text, or nothing for a missing key. */
    function GetItem(key: string): (r: Option<string>)
      reads this
      ensures r.Some? <==> key in items
      ensures r.Some? ==> r.value == items[key]
    {
      if key in items then Some(items[key]) else None
    }

    method SetItem(key: string, value: string)
      modifies this
      ensures items == old(items)[key := value]
    {
      items := items[key := value];
    }
  }

  /** The store: the slice's state, and the storage its reducer writes to. */
  class Store {
    var state: UserState
    const storage: LocalStorage

    /** `makeStore`: a fresh store starts from the initial state. */
    constructor (storage: LocalStorage)
      ensures state == InitialState && this.storage == storage
    {
      state := InitialState;
      this.storage := storage;
    }

    /** `dispatch(setUserData(payload))`. */
    method SetUserData(payload: Option<Profile>)
      modifies this, storage
      ensures state == UserState(payload)
      ensures storage.items == Persist(old(storage.items), payload)
    {
      state := state.(userData := payload);
      if payload.Some? {
        storage.SetItem(StorageKey, Serialize(payload.value));
      }
    }
  }
}
