/** The OpenRouter settings kept in the browser's local storage: an API key and a model id,
    held in two storage entries and mirrored in two state cells, with a pair of draft cells
    that the settings dialog edits. */
module Settings {
  import opened JsString
  import opened Optional

  const KeyEntry: string := "kmn_openrouter_key"
  const ModelEntry: string := "kmn_openrouter_model"
  const DefaultModel: string := "openai/gpt-4o-mini"

  /** The notice shown in the settings dialog after saving or clearing. */
  datatype Notice = SavedNotice | ClearedNotice

  /** The text of each notice, as the dialog shows it. */
  function NoticeText(n: Notice): (t: string)
    ensures t != ""
  {
    match n
    case SavedNotice => "သိမ်းပြီးပါပြီ ✅"
    case ClearedNotice => "Key ဖျက်ပြီးပါပြီ"
  }

  /** The key and model the application works with. */
  datatype Preference = Preference(key: string, model: string)

  /** What loading yields from the storage: each stored entry, or `""` for a missing key and
      the default model for a missing model. */
  function Loaded(storage: map<string, string>): Preference {
    Preference(
      if KeyEntry in storage then storage[KeyEntry] else "",
      if ModelEntry in storage then storage[ModelEntry] else DefaultModel)
  }

  /** `model.trim() || 'openai/gpt-4o-mini'`, the model id both saving and AI generation use:
      the trimmed model, or the default when that is empty. */
  function ModelChoice(model: string): (r: string)
    ensures Trimmed(r) && r != ""
    ensures Trim(model) != "" ==> r == Trim(model)
    ensures Trim(model) == "" ==> r == DefaultModel
  {
    DefaultModelIsTrimmed();
    Or(Trim(model), DefaultModel)
  }

  /** What saving makes of the two drafts: the trimmed key, and the trimmed model or the
      default when that is empty. */
  function SavedPreference(draftKey: string, draftModel: string): (p: Preference)
    ensures p.key == Trim(draftKey)
    ensures Trimmed(p.model) && p.model != ""
    ensures p.model == (if Trim(draftModel) == "" then DefaultModel else Trim(draftModel))
  {
    Preference(Trim(draftKey), ModelChoice(draftModel))
  }

  lemma DefaultModelIsTrimmed()
    ensures Trimmed(DefaultModel) && DefaultModel != ""
  {
    assert DefaultModel[0] == 'o' && DefaultModel[|DefaultModel| - 1] == 'i';
  }

  /** The storage after saving `p`: the key entry holds a non-empty key and is removed for an
      empty one; the model entry is always written. */
  function Saved(storage: map<string, string>, p: Preference): (r: map<string, string>)
    ensures ModelEntry in r && r[ModelEntry] == p.model
    ensures KeyEntry in r <==> p.key != ""
    ensures p.key != "" ==> r[KeyEntry] == p.key
  {
    KeyEntryIsNotModelEntry();
    (if p.key != "" then storage[KeyEntry := p.key] else storage - {KeyEntry})[ModelEntry := p.model]
  }

  /** The storage after clearing the key: the key entry is removed. */
  function Cleared(storage: map<string, string>): (r: map<string, string>)
    ensures KeyEntry !in r
    ensures forall e :: e in storage && e != KeyEntry ==> e in r && r[e] == storage[e]
  {
    storage - {KeyEntry}
  }

  /** The storage as saving leaves it: a key entry, if any, holds a non-empty trimmed key, and
      the model entry holds a non-empty trimmed model. */
  ghost predicate WellFormed(storage: map<string, string>) {
    (KeyEntry in storage ==> storage[KeyEntry] != "" && Trimmed(storage[KeyEntry])) &&
    ModelEntry in storage && storage[ModelEntry] != "" && Trimmed(storage[ModelEntry])
  }

  /** `aiReady`: whether the header shows the AI status as ready and the main screen shows the
      model in use. Both the key and the model must be non-blank. The AI Generate button does
      not depend on it. */
  predicate AiReady(p: Preference) {
    Trim(p.key) != "" && Trim(p.model) != ""
  }

  lemma KeyEntryIsNotModelEntry()
    ensures KeyEntry != ModelEntry
  {
    assert |KeyEntry| == 18 && |ModelEntry| == 20;
  }

  /** Saving and then loading gives back what was saved: the trimmed key (`""` when it is
      blank) and the trimmed model (the default when it is blank). */
  lemma SaveThenLoad(storage: map<string, string>, draftKey: string, draftModel: string)
    ensures Loaded(Saved(storage, SavedPreference(draftKey, draftModel))) == SavedPreference(draftKey, draftModel)
  {
    KeyEntryIsNotModelEntry();
  }

  /** Saving always leaves a model entry, leaves a key entry exactly when the trimmed draft key
      is non-empty, and leaves both trimmed and non-empty. */
  lemma SavedIsWellFormed(storage: map<string, string>, draftKey: string, draftModel: string)
    ensures WellFormed(Saved(storage, SavedPreference(draftKey, draftModel)))
    ensures KeyEntry in Saved(storage, SavedPreference(draftKey, draftModel)) <==> Trim(draftKey) != ""
  {
    KeyEntryIsNotModelEntry();
    var p := SavedPreference(draftKey, draftModel);
    var s := Saved(storage, p);
    assert s[ModelEntry] == p.model;
    if p.key != "" {
      assert s[KeyEntry] == p.key;
    }
  }

  /** Saving writes no entry but the two settings entries. */
  lemma SaveKeepsOtherEntries(storage: map<string, string>, p: Preference, e: string)
    requires e != KeyEntry && e != ModelEntry
    ensures e in Saved(storage, p) <==> e in storage
    ensures e in storage ==> Saved(storage, p)[e] == storage[e]
  {
  }

  /** Opening the dialog and saving it unchanged leaves storage that saving produced as it is. */
  lemma ResaveIsIdentity(storage: map<string, string>)
    requires WellFormed(storage)
    ensures var p := Loaded(storage); Saved(storage, SavedPreference(p.key, p.model)) == storage
  {
    KeyEntryIsNotModelEntry();
    var p := Loaded(storage);
    TrimmedIsFixed(p.model);
    TrimmedIsFixed(p.key);
    assert SavedPreference(p.key, p.model) == p;
    var s := Saved(storage, p);
    forall e | e in storage || e in s
      ensures e in s && e in storage && s[e] == storage[e]
    {
      if e != KeyEntry && e != ModelEntry {
        SaveKeepsOtherEntries(storage, p, e);
      }
    }
  }

  /** After a save, the AI status shows ready exactly when the trimmed draft key is non-empty. */
  lemma SaveReadiness(draftKey: string, draftModel: string)
    ensures AiReady(SavedPreference(draftKey, draftModel)) <==> Trim(draftKey) != ""
  {
    var p := SavedPreference(draftKey, draftModel);
    TrimIdempotent(draftKey);
    TrimmedIsFixed(p.model);
  }

  /** Clearing the key forgets the key and nothing else: loading afterwards gives `""` and the
      model as before, and every other entry is kept. */
  lemma ClearKeyKeepsModel(storage: map<string, string>)
    ensures Loaded(Cleared(storage)) == Loaded(storage).(key := "")
    ensures forall e :: e != KeyEntry ==>
      (e in Cleared(storage) <==> e in storage) && (e in storage ==> Cleared(storage)[e] == storage[e])
  {
    KeyEntryIsNotModelEntry();
  }

  /** The settings state of the application: the storage, the two state cells the application
      reads (`openRouterKey`, `openRouterModel`), the two dialog drafts and the transient
      notice shown in the dialog. */
  class SettingsStore {
    var storage: map<string, string>
    var key: string
    var model: string
    var draftKey: string
    var draftModel: string
    var notice: Option<Notice>

    /** The state cells agree with what loading the storage gives. */
    ghost predicate InSync()
      reads this
    {
      Loaded(storage) == Preference(key, model)
    }

    /** The initial state, before the load effect runs, over whatever the browser has stored. */
    constructor (stored: map<string, string>)
      ensures storage == stored
      ensures key == "" && model == DefaultModel
      ensures draftKey == "" && draftModel == DefaultModel && notice == None
    {
      storage := stored;
      key := "";
      model := DefaultModel;
      draftKey := "";
      draftModel := DefaultModel;
      notice := None;
    }

    /** The load effect: copies the stored entries, or their defaults, into the state cells. */
    method Load()
      modifies this
      ensures InSync()
      ensures key == (if KeyEntry in storage then storage[KeyEntry] else "")
      ensures model == (if ModelEntry in storage then storage[ModelEntry] else DefaultModel)
      ensures storage == old(storage) && draftKey == old(draftKey) && draftModel == old(draftModel)
      ensures notice == old(notice)
    {
      var k := if KeyEntry in storage then storage[KeyEntry] else "";
      var m := if ModelEntry in storage then storage[ModelEntry] else DefaultModel;
      key := k;
      model := m;
    }

    /** `openSettings`: the drafts start from the current key and model, the notice is cleared. */
    method OpenSettings()
      modifies this
      ensures draftKey == key && draftModel == model && notice == None
      ensures key == old(key) && model == old(model) && storage == old(storage)
    {
      notice := None;
      draftKey := key;
      draftModel := model;
    }

    /** `saveSettings`: trims the drafts, updates the state cells, writes or removes the key
      entry, always writes the model entry, and shows the saved notice. */
    method Save()
      modifies this`key, this`model, this`storage, this`notice
      ensures Preference(key, model) == SavedPreference(draftKey, draftModel)
      ensures storage == Saved(old(storage), Preference(key, model))
      ensures InSync() && WellFormed(storage)
      ensures notice == Some(SavedNotice)
    {
      var saved := SavedPreference(draftKey, draftModel);
      SaveThenLoad(storage, draftKey, draftModel);
      SavedIsWellFormed(storage, draftKey, draftModel);
      key := saved.key;
      model := saved.model;
      Persist(saved);
      notice := Some(SavedNotice);
    }

    /** The storage writes of `saveSettings`: `setItem` of the key when it is non-empty and
        `removeItem` otherwise, then `setItem` of the model. */
    method Persist(p: Preference)
      modifies this`storage
      ensures storage == Saved(old(storage), p)
    {
      if p.key != "" {
        storage := storage[KeyEntry := p.key];
      } else {
        storage := storage - {KeyEntry};
      }
      storage := storage[ModelEntry := p.model];
    }

    /** `clearKey`: empties the draft and the key cell, removes the key entry and shows the
      cleared notice; the model is untouched. */
    method ClearKey()
      modifies this
      ensures draftKey == "" && key == ""
      ensures storage == Cleared(old(storage))
      ensures model == old(model) && draftModel == old(draftModel)
      ensures notice == Some(ClearedNotice)
      ensures old(InSync()) ==> InSync()
    {
      draftKey := "";
      key := "";
      storage := storage - {KeyEntry};
      notice := Some(ClearedNotice);
      ClearKeyKeepsModel(old(storage));
    }
  }
}
