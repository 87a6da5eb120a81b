/**
 * The settings page: six general settings and seven message templates, edited
 * on the page and saved to the store as one record per key. Saving replaces
 * every stored record; loading lays the stored values over the page's current
 * values, keeping a field's current value where the stored one is empty.
 *
 * The page's two records (general settings and templates) are kept as one map
 * from the stored key to the field's value, which is the mapping a save writes.
 * The default template wordings are represented by placeholders.
 */
module SettingsPage {
  import opened Seqs
  import opened Records
  import opened Gateway

  const GeneralKeys: seq<string> :=
    ["business_hours_start", "business_hours_end", "slot_duration",
     "reminder_day_before", "reminder_morning", "google_review_link"]

  const TemplateNames: seq<string> :=
    ["welcome", "quote", "confirmation", "reminder", "reschedule", "review", "followup"]

  const TemplatePrefix := "template_"

  /** The stored key of a template. */
  function TemplateKey(name: string): string {
    TemplatePrefix + name
  }

  /**
   * The keys of a save, in the order their records are created (`Object.entries`
   * of the general settings followed by the templates).
   */
  const SavedKeys: seq<string> :=
    ["business_hours_start", "business_hours_end", "slot_duration",
     "reminder_day_before", "reminder_morning", "google_review_link",
     "template_welcome", "template_quote", "template_confirmation", "template_reminder",
     "template_reschedule", "template_review", "template_followup"]

  /** `setting_type`: template for a key starting with `template_`, config otherwise. */
  function Kind(key: string): (kind: string)
    ensures kind == "template" <==> TemplatePrefix <= key
    ensures kind == "config" <==> !(TemplatePrefix <= key)
  {
    if TemplatePrefix <= key then "template" else "config"
  }

  /** A save writes thirteen distinct keys. */
  lemma SavedKeysDistinct()
    ensures |SavedKeys| == 13 && NoDuplicates(SavedKeys)
  {
  }

  /** The keys are the six general keys, then `template_` followed by each of the seven template names. */
  lemma SavedKeysLayout()
    ensures SavedKeys[..6] == GeneralKeys
    ensures forall i :: 0 <= i < 7 ==> SavedKeys[6 + i] == TemplateKey(TemplateNames[i])
  {
  }

  /** Exactly the seven template keys are typed as templates. */
  lemma SavedKeysKinds()
    ensures forall i :: 0 <= i < 6 ==> Kind(SavedKeys[i]) == "config"
    ensures forall i :: 6 <= i < 13 ==> Kind(SavedKeys[i]) == "template"
  {
    forall i | 0 <= i < 6
      ensures !(TemplatePrefix <= SavedKeys[i])
    {
      assert SavedKeys[i][0] != 't';
    }
  }

  /** The values a fresh page starts from. */
  function Defaults(): (m: map<string, string>)
    ensures m.Keys == set k | k in SavedKeys
  {
    map["business_hours_start" := "08:00", "business_hours_end" := "18:00", "slot_duration" := "2",
        "reminder_day_before" := "18:00", "reminder_morning" := "07:00", "google_review_link" := "",
        "template_welcome" := "[default welcome]", "template_quote" := "[default quote]",
        "template_confirmation" := "[default confirmation]", "template_reminder" := "[default reminder]",
        "template_reschedule" := "[default reschedule]", "template_review" := "[default review]",
        "template_followup" := "[default followup]"]
  }

  /** The key-to-value map of the stored records: a later record of a key overrides an earlier one. */
  function StoredMap(settings: seq<Setting>): (m: map<string, string>)
    ensures m.Keys == set s | s in settings :: s.key
    decreases |settings|
  {
    if settings == [] then map[]
    else
      var last := settings[|settings| - 1];
      StoredMap(settings[..|settings| - 1])[last.key := last.value]
  }

  /** The value of a key is the one of its last record. */
  lemma {:induction false} StoredMapLastWins(settings: seq<Setting>, i: nat)
    requires i < |settings|
    requires forall j :: i < j < |settings| ==> settings[j].key != settings[i].key
    ensures StoredMap(settings)[settings[i].key] == settings[i].value
    decreases |settings|
  {
    if i < |settings| - 1 {
      StoredMapLastWins(settings[..|settings| - 1], i);
    }
  }

  /** The load effect's `forEach`: fills the key-to-value map record by record. */
  method BuildMap(settings: seq<Setting>) returns (m: map<string, string>)
    ensures m == StoredMap(settings)
  {
    m := map[];
    var i := 0;
    while i < |settings|
      invariant 0 <= i <= |settings|
      invariant m == StoredMap(settings[..i])
    {
      PrefixStep(settings, i);
      assert settings[..i + 1][..i] == settings[..i];
      m := m[settings[i].key := settings[i].value];
      i := i + 1;
    }
    assert settings[..i] == settings;
  }

  /** `stored.k || prev.k` for every field: a stored value that is not empty replaces the field's value. */
  function Merge(prev: map<string, string>, stored: map<string, string>): (r: map<string, string>)
    ensures r.Keys == prev.Keys
    ensures forall k :: k in prev && k in stored && stored[k] != "" ==> r[k] == stored[k]
    ensures forall k :: k in prev && (k !in stored || stored[k] == "") ==> r[k] == prev[k]
  {
    map k | k in prev :: if k in stored && stored[k] != "" then stored[k] else prev[k]
  }

  /** The mapping a save writes (`Object.entries` of it): each key with its page value, in key order. */
  function Entries(values: map<string, string>): (r: seq<(string, string)>)
    requires forall k :: k in SavedKeys ==> k in values
    ensures |r| == 13
    ensures forall i :: 0 <= i < 13 ==> r[i] == (SavedKeys[i], values[SavedKeys[i]])
  {
    var ks := SavedKeys;
    seq(13, i requires 0 <= i < 13 => (ks[i], values[ks[i]]))
  }

  /** The records the store holds once `entries` are created in order, the first one with id `firstId`. */
  function Created(entries: seq<(string, string)>, firstId: Id): (r: seq<Setting>)
    ensures |r| == |entries|
    ensures forall i :: 0 <= i < |entries| ==>
      r[i] == Setting(firstId + i, entries[i].0, entries[i].1, Kind(entries[i].0))
  {
    seq(|entries|, i requires 0 <= i < |entries| => Setting(firstId + i, entries[i].0, entries[i].1, Kind(entries[i].0)))
  }

  /** The records a save leaves in the store for the page values `values`. */
  function SavedRecords(values: map<string, string>, firstId: Id): (r: seq<Setting>)
    requires forall k :: k in SavedKeys ==> k in values
    ensures |r| == 13
    ensures forall i :: 0 <= i < 13 ==>
      r[i] == Setting(firstId + i, SavedKeys[i], values[SavedKeys[i]], Kind(SavedKeys[i]))
  {
    Created(Entries(values), firstId)
  }

  /** The first loop of a save: deletes each listed record by its id, leaving no record. */
  method DeleteAll(store: Store)
    requires store.Valid()
    modifies store`settings
    ensures store.Valid()
    ensures store.settings == []
  {
    var existing := store.settings;
    var i := 0;
    while i < |existing|
      invariant 0 <= i <= |existing|
      invariant store.Valid()
      invariant store.settings == existing[i..]
    {
      DeleteIdAt(existing[i..], SettingIdOf, store.nextId, 0);
      assert RemoveAt(existing[i..], 0) == existing[i + 1..];
      var o := store.DeleteSetting(existing[i].id);
      i := i + 1;
    }
  }

  /** The second loop of a save: creates one record per entry, in order, typed by its key. */
  method CreateAll(store: Store, entries: seq<(string, string)>)
    requires store.Valid()
    modifies store`settings, store`nextId
    ensures store.Valid()
    ensures store.settings == old(store.settings) + Created(entries, old(store.nextId))
    ensures store.nextId == old(store.nextId) + |entries|
  {
    ghost var before := store.settings;
    ghost var records := Created(entries, store.nextId);
    var j := 0;
    while j < |entries|
      invariant 0 <= j <= |entries|
      invariant store.Valid()
      invariant store.settings == before + records[..j]
      invariant store.nextId == old(store.nextId) + j
    {
      PrefixStep(records, j);
      var s := store.CreateSetting(entries[j].0, entries[j].1, Kind(entries[j].0));
      j := j + 1;
    }
    assert records[..j] == records;
  }

  /** The records of a save carry every page value under its own key. */
  lemma StoredMapOfSaved(values: map<string, string>, firstId: Id)
    requires forall k :: k in SavedKeys ==> k in values
    ensures forall k :: k in SavedKeys ==>
      k in StoredMap(SavedRecords(values, firstId)) && StoredMap(SavedRecords(values, firstId))[k] == values[k]
  {
    var r := SavedRecords(values, firstId);
    SavedKeysDistinct();
    forall k | k in SavedKeys
      ensures k in StoredMap(r) && StoredMap(r)[k] == values[k]
    {
      var i :| 0 <= i < 13 && SavedKeys[i] == k;
      assert r[i] in r;
      StoredMapLastWins(r, i);
    }
  }

  /**
   * Saving and then loading restores every value that is not empty; an empty value
   * leaves the loading page's field as it was.
   */
  lemma SaveLoadRoundTrip(values: map<string, string>, prev: map<string, string>, firstId: Id)
    requires forall k :: k in SavedKeys ==> k in values
    ensures var loaded := Merge(prev, StoredMap(SavedRecords(values, firstId)));
      forall k :: k in SavedKeys && k in prev ==> loaded[k] == if values[k] != "" then values[k] else prev[k]
  {
    StoredMapOfSaved(values, firstId);
  }

  /** Loaded into the page that saved them, the saved records change nothing. */
  lemma SaveLoadIdentity(values: map<string, string>, firstId: Id)
    requires values.Keys == set k | k in SavedKeys
    ensures Merge(values, StoredMap(SavedRecords(values, firstId))) == values
  {
    StoredMapOfSaved(values, firstId);
  }

  /** The state of the page: the field values and the "saved" indicator. */
  class SettingsPage {
    var values: map<string, string>
    var saved: bool

    ghost predicate Valid()
      reads this
    {
      values.Keys == set k | k in SavedKeys
    }

    constructor ()
      ensures Valid()
      ensures values == Defaults() && !saved
    {
      values, saved := Defaults(), false;
    }

    /** Editing a field replaces its value. */
    method SetField(key: string, value: string)
      requires Valid() && key in values
      modifies this`values
      ensures Valid()
      ensures values == old(values)[key := value]
    {
      values := values[key := value];
    }

    /** The load effect: the listed records are laid over the fields, but only when there is at least one. */
    method Load(settings: seq<Setting>)
      requires Valid()
      modifies this`values
      ensures Valid()
      ensures settings == [] ==> values == old(values)
      ensures settings != [] ==> values == Merge(old(values), StoredMap(settings))
    {
      if |settings| > 0 {
        var stored := BuildMap(settings);
        values := Merge(values, stored);
      }
    }

    /**
     * Saves the page: every stored record is deleted, then one record is created
     * per key, in key order, typed by its key.
     */
    method Save(store: Store)
      requires Valid() && store.Valid()
      modifies store`settings, store`nextId, this`saved
      ensures store.Valid()
      ensures store.settings == SavedRecords(values, old(store.nextId))
      ensures store.nextId == old(store.nextId) + 13
      ensures saved
    {
      DeleteAll(store);
      CreateAll(store, Entries(values));
      saved := true;
    }
  }
}
