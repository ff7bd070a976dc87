/**
 * User preferences: a string-keyed record whose defaults are overlaid by what
 * is stored under `userPreferences`. The object spread `{ ...a, ...b }` is the
 * map override `a + b`.
 */
module Preferences {
  import opened Wrappers
  import opened Store

  const PREFERENCES_KEY := "userPreferences"

  type Prefs = map<string, PrefValue>

  const DefaultPreferences: Prefs := map[
    "theme" := PrefStr("light"),
    "notifications" := PrefBool(true),
    "language" := PrefStr("pt-BR"),
    "fontSize" := PrefStr("medium")]

  /** `await storage.get('userPreferences')` when it holds a preferences record. */
  function StoredPrefs(data: map<string, Value>): (r: Option<Prefs>)
    ensures r.Some? <==> PREFERENCES_KEY in data && data[PREFERENCES_KEY].PrefsValue?
    ensures r.Some? ==> r.value == data[PREFERENCES_KEY].prefs
  {
    if PREFERENCES_KEY in data && data[PREFERENCES_KEY].PrefsValue?
    then Some(data[PREFERENCES_KEY].prefs)
    else None
  }

  class PreferencesService {
    const storage: Storage
    /** The published preferences (`preferencesSubject.value`). */
    var preferences: Prefs

    /** Every default key always has a value. */
    ghost predicate Valid()
      reads this
    {
      DefaultPreferences.Keys <= preferences.Keys
    }

    /** Before any load the published preferences are the defaults. */
    constructor (storage: Storage)
      ensures this.storage == storage && preferences == DefaultPreferences && Valid()
    {
      this.storage := storage;
      preferences := DefaultPreferences;
    }

    /**
     * `loadPreferences`: a stored record is laid over the defaults; with nothing
     * stored the defaults are written and then published.
     */
    method LoadPreferences()
      requires Valid()
      modifies this, storage`data
      ensures Valid()
      ensures StoredPrefs(old(storage.data)).Some? ==>
                && preferences == DefaultPreferences + StoredPrefs(old(storage.data)).value
                && storage.data == old(storage.data)
      ensures StoredPrefs(old(storage.data)).Some? ==>
                forall k :: k in preferences <==> k in DefaultPreferences || k in StoredPrefs(old(storage.data)).value
      ensures StoredPrefs(old(storage.data)).None? && storage.writable ==>
                && preferences == DefaultPreferences
                && storage.data == old(storage.data)[PREFERENCES_KEY := PrefsValue(DefaultPreferences)]
      ensures StoredPrefs(old(storage.data)).None? && !storage.writable ==>
                preferences == old(preferences) && storage.data == old(storage.data)
    {
      var stored := StoredPrefs(storage.data);
      if stored.Some? {
        preferences := DefaultPreferences + stored.value;
      } else {
        var written := storage.Set(PREFERENCES_KEY, PrefsValue(DefaultPreferences));
        if written {
          preferences := DefaultPreferences;
        }
      }
    }

    /** `updatePreferences`: patch keys take the patch's values, the rest stay; written before published. */
    method UpdatePreferences(patch: Prefs) returns (ok: bool)
      requires Valid()
      modifies this, storage`data
      ensures Valid()
      ensures ok == storage.writable
      ensures ok ==> && preferences == old(preferences) + patch
                     && (forall k :: k in patch ==> preferences[k] == patch[k])
                     && (forall k :: k !in patch ==> (k in preferences <==> k in old(preferences)))
                     && (forall k :: k !in patch && k in old(preferences) ==> preferences[k] == old(preferences)[k])
                     && storage.data == old(storage.data)[PREFERENCES_KEY := PrefsValue(preferences)]
      ensures !ok ==> preferences == old(preferences) && storage.data == old(storage.data)
    {
      var updated := preferences + patch;
      ok := storage.Set(PREFERENCES_KEY, PrefsValue(updated));
      if ok {
        preferences := updated;
      }
    }

    /** `resetPreferences`: stored and published preferences become the defaults, whatever they were. */
    method ResetPreferences() returns (ok: bool)
      requires Valid()
      modifies this, storage`data
      ensures Valid()
      ensures ok == storage.writable
      ensures ok ==> preferences == DefaultPreferences && StoredPrefs(storage.data) == Some(DefaultPreferences)
      ensures ok ==> storage.data == old(storage.data)[PREFERENCES_KEY := PrefsValue(DefaultPreferences)]
      ensures !ok ==> preferences == old(preferences) && storage.data == old(storage.data)
    {
      ok := storage.Set(PREFERENCES_KEY, PrefsValue(DefaultPreferences));
      if ok {
        preferences := DefaultPreferences;
      }
    }

    /** `getCurrentPreferences`. */
    function GetCurrentPreferences(): (p: Prefs)
      requires Valid()
      reads this
      ensures p == preferences
      ensures DefaultPreferences.Keys <= p.Keys
    {
      preferences
    }

    /**
     * `getPreference`: read from the store, not from the published record. When a
     * record is stored its entry is returned even if the key is missing there
     * (`undefined`); only when nothing is stored does the default answer.
     */
    function GetPreference(key: string): (r: Option<PrefValue>)
      reads this, storage
      ensures StoredPrefs(storage.data).Some? ==>
                (r.Some? <==> key in StoredPrefs(storage.data).value)
      ensures StoredPrefs(storage.data).Some? && r.Some? ==> r.value == StoredPrefs(storage.data).value[key]
      ensures StoredPrefs(storage.data).None? ==>
                (r.Some? <==> key in DefaultPreferences) && (r.Some? ==> r.value == DefaultPreferences[key])
    {
      match StoredPrefs(storage.data)
      case Some(stored) => if key in stored then Some(stored[key]) else None
      case None => if key in DefaultPreferences then Some(DefaultPreferences[key]) else None
    }

    /** `setPreference`: only `key` changes. */
    method SetPreference(key: string, value: PrefValue) returns (ok: bool)
      requires Valid()
      modifies this, storage`data
      ensures Valid()
      ensures ok == storage.writable
      ensures ok ==> && preferences == old(preferences)[key := value]
                     && (forall k :: k != key ==> (k in preferences <==> k in old(preferences)))
                     && (forall k :: k != key && k in old(preferences) ==> preferences[k] == old(preferences)[k])
                     && storage.data == old(storage.data)[PREFERENCES_KEY := PrefsValue(preferences)]
      ensures !ok ==> preferences == old(preferences) && storage.data == old(storage.data)
    {
      var updated := preferences[key := value];
      ok := storage.Set(PREFERENCES_KEY, PrefsValue(updated));
      if ok {
        preferences := updated;
      }
    }
  }

  /** `setPreference(key, v)` publishes what `updatePreferences({ [key]: v })` would. */
  lemma SetIsSingleKeyUpdate(current: Prefs, key: string, value: PrefValue)
    ensures current[key := value] == current + map[key := value]
  {
  }
}
