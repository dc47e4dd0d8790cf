/**
 * The preference store: an in-memory settings record and the persisted
 * copy under the `user_settings` key. A record is a map from field name to
 * value, so that a JavaScript object spread `{...a, ...b}` is the map union
 * `a + b`, in which the fields of `b` win.
 */
module Settings {

  type Fields = map<string, string>

  const LanguageKey := "language"
  const StorageKey := "user_settings"

  /** `DEFAULT_SETTINGS`. */
  const DefaultSettings: Fields := map[LanguageKey := "pt"]

  /** `{...base, ...over}`: every field of either, the value from `over` where both have it. */
  function Merge(base: Fields, over: Fields): (r: Fields)
    ensures r.Keys == base.Keys + over.Keys
    ensures forall k :: k in over ==> r[k] == over[k]
    ensures forall k :: k in base && k !in over ==> r[k] == base[k]
  {
    base + over
  }

  /**
   * What the storage slot yields once read and parsed: nothing (absent or
   * the empty string), text that is not JSON, or a parsed record.
   */
  datatype StoredSlot = Empty | Unparseable(text: string) | Record(fields: Fields)

  /** The settings after the load effect: stored fields over the defaults, else the prior value. */
  function Loaded(prior: Fields, slot: StoredSlot): (r: Fields)
    ensures slot.Record? ==> r.Keys == DefaultSettings.Keys + slot.fields.Keys
    ensures slot.Record? ==> forall k :: k in slot.fields ==> r[k] == slot.fields[k]
    ensures slot.Record? && LanguageKey !in slot.fields ==> r[LanguageKey] == DefaultSettings[LanguageKey]
    ensures !slot.Record? ==> r == prior
  {
    if slot.Record? then Merge(DefaultSettings, slot.fields) else prior
  }

  /** A complete record always carries the language field. */
  predicate Complete(s: Fields) {
    LanguageKey in s
  }

  /**
   * Whatever is stored, loading over a complete record gives a complete one:
   * older or partial persisted data never loses the language field.
   */
  lemma LoadedIsComplete(prior: Fields, slot: StoredSlot)
    requires Complete(prior)
    ensures Complete(Loaded(prior, slot))
  {
  }

  /**
   * Persisting a complete record and loading it back gives that record:
   * the defaults fill nothing in, because every default field is present.
   */
  lemma {:induction false} PersistLoadRoundTrip(saved: Fields, prior: Fields)
    requires DefaultSettings.Keys <= saved.Keys
    ensures Loaded(prior, Record(saved)) == saved
  {
    var r := Loaded(prior, Record(saved));
    assert r.Keys == saved.Keys;
    forall k | k in r ensures r[k] == saved[k] {
    }
  }

  class PreferenceStore {
    var settings: Fields
    var stored: StoredSlot

    /** The in-memory record is always complete. */
    ghost predicate Valid()
      reads this
    {
      Complete(settings)
    }

    /** The first render: the defaults in memory, whatever the slot holds. */
    constructor (slot: StoredSlot)
      ensures Valid()
      ensures settings == DefaultSettings && stored == slot
    {
      settings := DefaultSettings;
      stored := slot;
    }

    /** The mount effect: read the slot and merge what it holds over the defaults. */
    method Load()
      requires Valid()
      modifies this
      ensures Valid()
      ensures settings == Loaded(old(settings), stored)
      ensures stored == old(stored)
    {
      if stored.Record? {
        settings := Merge(DefaultSettings, stored.fields);
      }
      LoadedIsComplete(old(settings), stored);
    }

    /** `updateSettings`: merge the updates over the current record and persist the result. */
    method UpdateSettings(updates: Fields)
      requires Valid()
      modifies this
      ensures Valid()
      ensures settings == Merge(old(settings), updates)
      ensures forall k :: k in old(settings) && k !in updates ==> settings[k] == old(settings)[k]
      ensures stored == Record(settings)
      ensures forall prior :: Loaded(prior, stored) == settings
    {
      settings := Merge(settings, updates);
      stored := Record(settings);
      forall prior ensures Loaded(prior, stored) == settings {
        PersistLoadRoundTrip(settings, prior);
      }
    }
  }
}
