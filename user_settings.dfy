/** `SettingsManager`: the single settings record `{ soundOn }` kept in the
    save data under the settings key. */
module UserSettings {
  import opened Wrappers
  import opened SaveData

  /** The `soundOn` value `addSettings` writes: true when nothing is stored
      yet (whatever the argument), the argument otherwise. */
  function SoundToWrite(stored: Option<Value>, soundOn: bool): (r: bool)
    ensures stored.None? ==> r
    ensures stored.Some? ==> r == soundOn
  {
    if stored.None? then true else soundOn
  }

  /** The `soundOn` value `getSettings` returns: the stored one, false when
      nothing is stored. */
  function SoundRead(stored: Option<Value>): (r: bool)
    requires stored.Some? ==> stored.value.Settings?
    ensures stored.None? ==> !r
    ensures stored.Some? ==> r == stored.value.soundOn
  {
    if stored.None? then false else stored.value.soundOn
  }

  /** The first write quirk: on an empty store the first `addSettings(false)`
      still turns the sound on, and only a second call stores false. */
  lemma FirstWriteTurnsSoundOn(st: map<string, Value>)
    requires SettingsKey !in st
    ensures var once := Saved(st, SettingsKey, Settings(SoundToWrite(Loaded(st, SettingsKey, false), false)), false);
            SoundRead(Loaded(once, SettingsKey, false)) &&
            var twice := Saved(once, SettingsKey, Settings(SoundToWrite(Loaded(once, SettingsKey, false), false)), false);
            !SoundRead(Loaded(twice, SettingsKey, false))
  {
  }

  class SettingsManager {
    const saveData: SaveDataManager

    constructor(saveData: SaveDataManager)
      ensures this.saveData == saveData
    {
      this.saveData := saveData;
    }

    /** `addSettings`: overwrite the settings record, which reads back as
        `SoundToWrite`; nothing under any other key changes. */
    method AddSettings(soundOn: bool, faults: StorageFaults)
      requires WellTyped(saveData.storage)
      modifies saveData
      ensures WellTyped(saveData.storage)
      ensures saveData.storage == Saved(old(saveData.storage), SettingsKey,
        Settings(SoundToWrite(Loaded(old(saveData.storage), SettingsKey, faults.loadFailed), soundOn)), faults.saveFailed)
      ensures forall k :: k != SettingsKey ==>
        (k in saveData.storage <==> k in old(saveData.storage)) &&
        (k in saveData.storage ==> saveData.storage[k] == old(saveData.storage)[k])
    {
      StorageKeysDistinct();
      var data := saveData.Load(SettingsKey, faults.loadFailed);
      var written: bool;
      if data.None? {
        written := true;
      } else {
        written := soundOn;
      }
      saveData.Save(SettingsKey, Settings(written), faults.saveFailed);
    }

    /** `getSettings`: read only. */
    method GetSettings(loadFailed: bool) returns (soundOn: bool)
      requires WellTyped(saveData.storage)
      ensures soundOn == SoundRead(Loaded(saveData.storage, SettingsKey, loadFailed))
      ensures Loaded(saveData.storage, SettingsKey, loadFailed).None? ==> !soundOn
    {
      var data := saveData.Load(SettingsKey, loadFailed);
      if data.None? {
        return false;
      }
      soundOn := data.value.soundOn;
    }
  }
}
