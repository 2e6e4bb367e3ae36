/** The local key-value store behind level progress and settings
    (`SaveDataManager` over `localStorage`). Values are kept in their parsed
    form; `JSON.stringify`/`JSON.parse` of the records stored here is taken to
    be the identity. */
module SaveData {
  import opened Wrappers

  /** One entry of the persisted `{ levels: [...] }` collection. */
  datatype ProgressRecord = ProgressRecord(id: int, stars: int, unlocked: bool, score: int)

  /** What a storage key can hold: the progress collection, the settings
      record, or text that `JSON.parse` rejects. */
  datatype Value =
    | Progress(levels: seq<ProgressRecord>)
    | Settings(soundOn: bool)
    | Unparsable

  /** Whether each storage call of one read-modify-write operation throws. */
  datatype StorageFaults = StorageFaults(loadFailed: bool, saveFailed: bool)

  const LevelProgressKey: string := "level-progress"
  const SettingsKey: string := "settings"

  /** The storage after `save(key, data)`; a storage exception is caught and
      leaves it as it was. */
  function Saved(st: map<string, Value>, key: string, data: Value, failed: bool): map<string, Value>
  {
    if failed then st else st[key := data]
  }

  /** The storage after `remove(key)`. */
  function Removed(st: map<string, Value>, key: string, failed: bool): map<string, Value>
  {
    if failed then st else st - {key}
  }

  /** What `load(key)` returns: nothing for a key never written, for text
      that does not parse, and when the storage call throws. */
  function Loaded(st: map<string, Value>, key: string, failed: bool): Option<Value>
  {
    if failed || key !in st || st[key].Unparsable? then None else Some(st[key])
  }

  /** Each manager finds its own kind of record under its own key. */
  ghost predicate WellTyped(st: map<string, Value>)
  {
    (LevelProgressKey in st ==> !st[LevelProgressKey].Settings?) &&
    (SettingsKey in st ==> !st[SettingsKey].Progress?)
  }

  lemma StorageKeysDistinct()
    ensures LevelProgressKey != SettingsKey
  {
    assert LevelProgressKey[0] != SettingsKey[0];
  }

  /** A successful save is read back unchanged and touches no other key. */
  lemma LoadAfterSave(st: map<string, Value>, key: string, data: Value, other: string)
    requires !data.Unparsable? && other != key
    ensures Loaded(Saved(st, key, data, false), key, false) == Some(data)
    ensures Loaded(Saved(st, key, data, false), other, false) == Loaded(st, other, false)
  {
  }

  /** After a successful remove the key reads as absent; other keys keep
      their values. */
  lemma LoadAfterRemove(st: map<string, Value>, key: string, other: string)
    requires other != key
    ensures Loaded(Removed(st, key, false), key, false) == None
    ensures Loaded(Removed(st, key, false), other, false) == Loaded(st, other, false)
  {
  }

  /** A settings write never changes what a progress read returns, and the
      other way round. */
  lemma KeysDoNotInterfere(st: map<string, Value>, p: Value, s: Value, failed: bool)
    ensures Loaded(Saved(st, SettingsKey, s, failed), LevelProgressKey, false) == Loaded(st, LevelProgressKey, false)
    ensures Loaded(Saved(st, LevelProgressKey, p, failed), SettingsKey, false) == Loaded(st, SettingsKey, false)
  {
    StorageKeysDistinct();
  }

  class SaveDataManager {
    var storage: map<string, Value>

    constructor(initial: map<string, Value>)
      ensures storage == initial
    {
      storage := initial;
    }

    /** `save({ key, data })`; `failed` is whether stringify or setItem threw. */
    method Save(key: string, data: Value, failed: bool)
      modifies this
      ensures storage == Saved(old(storage), key, data, failed)
      ensures failed ==> storage == old(storage)
      ensures !failed ==> key in storage && storage[key] == data &&
                          forall k :: k != key ==> (k in storage <==> k in old(storage))
    {
      if !failed {
        storage := storage[key := data];
      }
    }

    /** `load({ key })`; `failed` is whether getItem threw. */
    method Load(key: string, failed: bool) returns (r: Option<Value>)
      ensures r == Loaded(storage, key, failed)
      ensures r.Some? ==> key in storage && r.value == storage[key] && !r.value.Unparsable?
      ensures key !in storage ==> r.None?
    {
      if failed || key !in storage {
        return None;
      }
      var text := storage[key];
      if text.Unparsable? {
        return None;
      }
      return Some(text);
    }

    /** `remove({ key })`; `failed` is whether removeItem threw. */
    method Remove(key: string, failed: bool)
      modifies this
      ensures storage == Removed(old(storage), key, failed)
      ensures !failed ==> key !in storage
    {
      if !failed {
        storage := storage - {key};
      }
    }
  }
}
