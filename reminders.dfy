/**
 * The warranty-expiry reminder panel: choosing how long before the warranty
 * ends to be reminded (a preset or a custom date), saving the choice to
 * local storage, removing it, and restoring it when the panel loads.
 */
module Reminders {
  import opened Js
  import opened LocalStore

  /** Warranty status, computed elsewhere and passed in. */
  datatype WarrantyStatus = Active | Expiring | Expired

  datatype Preset = Preset(key: string, labelText: string, days: int)

  const Presets: seq<Preset> := [
    Preset("1month", "1ヶ月前", 30),
    Preset("3months", "3ヶ月前", 90),
    Preset("6months", "6ヶ月前", 180)
  ]

  const CustomKey: string := "custom"

  /** The keys the panel offers: the three presets and the custom date. */
  predicate IsChoiceKey(key: string) {
    key == CustomKey || exists i :: 0 <= i < |Presets| && Presets[i].key == key
  }

  /** The presets: three, with distinct keys, none of them "custom", 30/90/180 days. */
  lemma PresetsShape()
    ensures |Presets| == 3
    ensures forall i, j :: 0 <= i < j < |Presets| ==> Presets[i].key != Presets[j].key
    ensures forall i :: 0 <= i < |Presets| ==> Presets[i].key != CustomKey
    ensures Presets[0].days == 30 && Presets[1].days == 90 && Presets[2].days == 180
  {
  }

  /** `presets.find(p => p.key === key)?.label`. */
  function PresetLabel(key: string): (r: Option<string>)
    ensures r.None? <==> forall i :: 0 <= i < |Presets| ==> Presets[i].key != key
    ensures forall i :: 0 <= i < |Presets| && Presets[i].key == key ==> r == Some(Presets[i].labelText)
  {
    match FindIndex(Presets, key)
    case None => None
    case Some(i) => Some(Presets[i].labelText)
  }

  /** `find`: the first preset with the given key. */
  function FindIndex(ps: seq<Preset>, key: string): (r: Option<nat>)
    ensures r.Some? ==> r.value < |ps| && ps[r.value].key == key
    ensures r.Some? ==> forall j :: 0 <= j < r.value ==> ps[j].key != key
    ensures r.None? ==> forall j :: 0 <= j < |ps| ==> ps[j].key != key
  {
    if ps == [] then None
    else if ps[0].key == key then Some(0)
    else
      match FindIndex(ps[1..], key)
      case None => None
      case Some(k) => Some(k + 1)
  }

  /**
   * The panel's state fields other than whether it is expanded. `selected`
   * is `null` when nothing is chosen and a key string after a selection; a
   * loaded entry restores whatever JSON value its `type` property holds, and
   * `undefined` when it has none.
   */
  datatype ReminderState = ReminderState(selected: Value, customDate: string, saved: bool)

  const Initial: ReminderState := ReminderState(Null, "", false)

  /** `selected` as a JavaScript condition. */
  predicate HasSelection(st: ReminderState) {
    Truthy(st.selected)
  }

  /**
   * `canSave`: the selection is not `null` (so `undefined` passes), and a
   * custom choice has a date.
   */
  predicate CanSave(st: ReminderState) {
    st.selected != Null && (st.selected != Str(CustomKey) || st.customDate != "")
  }

  /** `presets.find(p => p.key === selected)?.label ?? ''`: only a string can match a key. */
  function KeyLabel(v: Value): (r: string)
    ensures v.Str? && PresetLabel(v.s).Some? ==> r == PresetLabel(v.s).value
    ensures !(v.Str? && PresetLabel(v.s).Some?) ==> r == ""
  {
    if v.Str? then PresetLabel(v.s).GetOr("") else ""
  }

  /**
   * `savedLabel`: shown only for a saved selection; the date for a custom
   * choice, otherwise the matching preset's label (or "" if none matches).
   */
  function SavedLabel(st: ReminderState): (r: Option<string>)
    ensures r.Some? <==> st.saved && HasSelection(st)
    ensures r.Some? && st.selected == Str(CustomKey) ==> r.value == st.customDate
    ensures r.Some? && st.selected != Str(CustomKey) ==> r.value == KeyLabel(st.selected)
  {
    if st.saved && HasSelection(st) then
      Some(if st.selected == Str(CustomKey) then st.customDate else KeyLabel(st.selected))
    else None
  }

  /** `handleSelect(key)`. */
  function Select(st: ReminderState, key: string): ReminderState {
    st.(selected := Str(key), saved := false)
  }

  /** Editing the custom date input. */
  function EditCustomDate(st: ReminderState, date: string): ReminderState {
    st.(customDate := date, saved := false)
  }

  /** What `handleSave` writes: the choice, and the date only for a custom choice. */
  function SavedEntry(st: ReminderState): Stored {
    ReminderJson(st.selected, if st.selected == Str(CustomKey) then Some(st.customDate) else None)
  }

  /** `handleSave`'s effect on the state. */
  function Save(st: ReminderState): ReminderState {
    st.(saved := true)
  }

  /** `handleRemove`'s effect on the state. */
  function Remove(st: ReminderState): ReminderState {
    Initial
  }

  /**
   * The load effect: a stored entry restores the choice, restores the date
   * when one is stored and non-empty, and marks the choice saved.
   */
  function Loaded(st: ReminderState, stored: Option<Stored>): ReminderState {
    match stored
    case Some(ReminderJson(kind, date)) =>
      ReminderState(kind, if TruthyString(date) then date.value else st.customDate, true)
    case _ => st
  }

  /**
   * Every edit takes the panel out of the saved state: after a selection, a
   * date edit or a removal there is no saved label and no remove button,
   * whatever was saved before.
   */
  lemma EditsHideSavedChoice(status: WarrantyStatus, isOpen: bool, st: ReminderState, key: string, date: string)
    requires status != Expired
    ensures SavedLabel(Select(st, key)).None? && SavedLabel(EditCustomDate(st, date)).None?
    ensures SavedLabel(Remove(st)).None?
    ensures View(status, isOpen, Select(st, key)).value.badge.None?
    ensures View(status, isOpen, EditCustomDate(st, date)).value.badge.None?
    ensures View(status, isOpen, Remove(st)) == Some(ReminderView(None, if isOpen then Some(Controls(false, false, false, false)) else None))
  {
  }

  /**
   * Switching to another option and back to "custom" keeps the custom date,
   * so the custom choice is savable again exactly when a date was entered.
   */
  lemma ReselectKeepsDate(st: ReminderState, key: string)
    ensures Select(Select(st, key), CustomKey).customDate == st.customDate
    ensures CanSave(Select(Select(st, key), CustomKey)) <==> st.customDate != ""
  {
  }

  /** Selecting a preset makes the state savable; selecting custom needs a date. */
  lemma SelectEnablesSave(st: ReminderState, key: string)
    requires IsChoiceKey(key)
    ensures CanSave(Select(st, key)) <==> key != CustomKey || st.customDate != ""
  {
  }

  /**
   * Save then reload into a fresh panel gives back the same choice, the same
   * custom date for a custom choice, and the same badge label.
   */
  lemma SaveThenLoad(st: ReminderState)
    ensures var r := Loaded(Initial, Some(SavedEntry(st)));
      && r.selected == st.selected
      && r.saved
      && (st.selected == Str(CustomKey) ==> r.customDate == st.customDate)
      && SavedLabel(r) == SavedLabel(Save(st))
  {
  }

  /** Loading without a stored entry changes nothing. */
  lemma LoadNothing(st: ReminderState)
    ensures Loaded(st, None) == st
  {
  }

  /** The expanded panel's controls. */
  datatype Controls = Controls(saveEnabled: bool, savedMark: bool, removeShown: bool, datePicker: bool)

  /** What the panel shows: the header badge, and the controls when expanded. */
  datatype ReminderView = ReminderView(badge: Option<string>, controls: Option<Controls>)

  /**
   * Rendering: nothing once the warranty has expired. The badge is the saved
   * label when that is a non-empty string; the controls appear only when
   * expanded, with save enabled by `canSave`, the remove button for a saved
   * selection, and the date picker for the custom choice.
   */
  function View(status: WarrantyStatus, isOpen: bool, st: ReminderState): (r: Option<ReminderView>)
    ensures r.None? <==> status == Expired
    ensures r.Some? ==> (r.value.badge.Some? <==> SavedLabel(st).Some? && SavedLabel(st).value != "")
    ensures r.Some? && r.value.badge.Some? ==> r.value.badge == SavedLabel(st)
    ensures r.Some? ==> (r.value.controls.Some? <==> isOpen)
    ensures r.Some? && r.value.controls.Some? ==>
      && (r.value.controls.value.saveEnabled <==> CanSave(st))
      && (r.value.controls.value.savedMark <==> st.saved)
      && (r.value.controls.value.removeShown <==> st.saved && HasSelection(st))
      && (r.value.controls.value.datePicker <==> st.selected == Str(CustomKey))
      && (r.value.badge.Some? ==> r.value.controls.value.removeShown)
  {
    if status == Expired then None
    else
      var shown := SavedLabel(st);
      Some(ReminderView(
        if shown.Some? && shown.value != "" then shown else None,
        if isOpen then Some(Controls(CanSave(st), st.saved, st.saved && HasSelection(st), st.selected == Str(CustomKey)))
        else None))
  }

  /**
   * Saving a savable choice that the panel offers shows a non-empty badge:
   * the preset's label or the custom date; expanded, the remove button shows.
   */
  lemma SaveShowsBadge(status: WarrantyStatus, isOpen: bool, st: ReminderState)
    requires status != Expired && CanSave(st) && st.selected.Str? && IsChoiceKey(st.selected.s)
    ensures var v := View(status, isOpen, Save(st)).value;
      && v.badge.Some? && v.badge.value != ""
      && (st.selected.s == CustomKey ==> v.badge.value == st.customDate)
      && (st.selected.s != CustomKey ==>
            exists i :: 0 <= i < |Presets| && Presets[i].key == st.selected.s && v.badge.value == Presets[i].labelText)
      && (isOpen ==> v.controls.value.removeShown)
  {
    var key := st.selected.s;
    if key != CustomKey {
      var i :| 0 <= i < |Presets| && Presets[i].key == key;
      assert PresetLabel(key) == Some(Presets[i].labelText);
    }
  }

  /**
   * A stored custom choice without a date (or a preset key the panel does
   * not know) loads as saved with an empty label: no badge, but expanded the
   * remove button still shows.
   */
  lemma EmptyLabelHidesBadge(status: WarrantyStatus)
    requires status != Expired
    ensures var st := Loaded(Initial, Some(ReminderJson(Str(CustomKey), None)));
      && SavedLabel(st) == Some("")
      && View(status, true, st) == Some(ReminderView(None, Some(Controls(false, true, true, true))))
    ensures var st := Loaded(Initial, Some(ReminderJson(Str("12months"), None)));
      && SavedLabel(st) == Some("")
      && View(status, true, st) == Some(ReminderView(None, Some(Controls(true, true, true, false))))
  {
    assert PresetLabel("12months").None?;
  }

  /**
   * A stored entry without a `type` loads as a saved `undefined` selection:
   * no label and no remove button, yet saving is enabled, since only `null`
   * disables it, and saving writes the same entry back.
   */
  lemma UntypedEntryLoads(status: WarrantyStatus, st: ReminderState, date: Option<string>)
    requires status != Expired
    ensures var r := Loaded(st, Some(ReminderJson(Undefined, date)));
      && r.selected == Undefined && r.saved
      && CanSave(r) && !HasSelection(r) && SavedLabel(r).None?
      && View(status, true, r) == Some(ReminderView(None, Some(Controls(true, true, false, false))))
      && SavedEntry(r) == ReminderJson(Undefined, None)
  {
  }

  /** The component; its store writes go to `reminder_<productId>`. */
  class ReminderSection {
    const productId: string
    const warrantyEnd: string
    const status: WarrantyStatus
    var isOpen: bool
    var selected: Value
    var customDate: string
    var saved: bool

    function State(): ReminderState
      reads this
    {
      ReminderState(selected, customDate, saved)
    }

    constructor (productId: string, warrantyEnd: string, status: WarrantyStatus)
      ensures this.productId == productId && this.warrantyEnd == warrantyEnd && this.status == status
      ensures !isOpen && State() == Initial
    {
      this.productId := productId;
      this.warrantyEnd := warrantyEnd;
      this.status := status;
      isOpen := false;
      selected := Null;
      customDate := "";
      saved := false;
    }

    method Load(store: LocalStorage)
      modifies this`selected, this`customDate, this`saved
      ensures State() == Loaded(old(State()), store.Get(ReminderKey(productId)))
    {
      var stored := store.Get(ReminderKey(productId));
      if stored.Some? && stored.value.ReminderJson? {
        selected := stored.value.kind;
        var date := stored.value.customDate;
        if date.Some? && date.value != "" {
          customDate := date.value;
        }
        saved := true;
      }
    }

    method HandleSelect(key: string)
      modifies this`selected, this`saved
      ensures State() == Select(old(State()), key)
    {
      selected := Str(key);
      saved := false;
    }

    method HandleCustomDate(date: string)
      modifies this`customDate, this`saved
      ensures State() == EditCustomDate(old(State()), date)
    {
      customDate := date;
      saved := false;
    }

    method HandleSave(store: LocalStorage)
      modifies this`saved, store
      ensures State() == Save(old(State()))
      ensures store.entries == old(store.entries)[ReminderKey(productId) := SavedEntry(old(State()))]
    {
      store.Set(ReminderKey(productId), SavedEntry(State()));
      saved := true;
    }

    method HandleRemove(store: LocalStorage)
      modifies this`selected, this`customDate, this`saved, store
      ensures State() == Remove(old(State()))
      ensures store.entries == old(store.entries) - {ReminderKey(productId)}
    {
      store.Remove(ReminderKey(productId));
      selected := Null;
      customDate := "";
      saved := false;
    }

    method Toggle()
      modifies this`isOpen
      ensures isOpen == !old(isOpen)
    {
      isOpen := !isOpen;
    }

    /** What the panel shows now. */
    function Render(): Option<ReminderView>
      reads this
    {
      View(status, isOpen, State())
    }
  }
}
