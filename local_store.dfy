/**
 * The browser's key-value storage (`localStorage`) shared by the appliance
 * detail components. A stored value is kept in the shape its writer gives it
 * rather than as serialised JSON text.
 */
module LocalStore {
  import opened Js

  /** A stored value, by the component that writes it. */
  datatype Stored =
    | DateMap(dates: map<string, int>)                           // consumable id -> day last replaced
    | ReminderJson(kind: Value, customDate: Option<string>)         // `{type, customDate}`; `Undefined` when `type` is absent
    | RawText(text: string)                                      // the memo, stored verbatim

  class LocalStorage {
    var entries: map<string, Stored>

    constructor ()
      ensures entries == map[]
    {
      entries := map[];
    }

    /** `localStorage.getItem(key)`. */
    function Get(key: string): Option<Stored>
      reads this
    {
      if key in entries then Some(entries[key]) else None
    }

    /** `localStorage.setItem(key, value)`. */
    method Set(key: string, value: Stored)
      modifies this
      ensures entries == old(entries)[key := value]
    {
      entries := entries[key := value];
    }

    /** `localStorage.removeItem(key)`. */
    method Remove(key: string)
      modifies this
      ensures entries == old(entries) - {key}
    {
      entries := entries - {key};
    }
  }

  function ConsumablesKey(productId: string): string {
    "consumables_" + productId
  }

  function ReminderKey(productId: string): string {
    "reminder_" + productId
  }

  function MemoKey(productId: string): string {
    "memo_" + productId
  }

  /**
   * The three components' keys never collide, whatever the product ids, so a
   * write by one component never changes what another one loads.
   */
  lemma KeysDisjoint(p: string, q: string)
    ensures ConsumablesKey(p) != ReminderKey(q)
    ensures ConsumablesKey(p) != MemoKey(q)
    ensures ReminderKey(p) != MemoKey(q)
  {
    assert ConsumablesKey(p)[0] == 'c';
    assert ReminderKey(q)[0] == 'r';
    assert MemoKey(q)[0] == 'm';
    assert ReminderKey(p)[0] == 'r';
  }

  /** Each component's key determines the product it belongs to. */
  lemma KeysInjective(p: string, q: string)
    ensures ConsumablesKey(p) == ConsumablesKey(q) ==> p == q
    ensures ReminderKey(p) == ReminderKey(q) ==> p == q
    ensures MemoKey(p) == MemoKey(q) ==> p == q
  {
    if ConsumablesKey(p) == ConsumablesKey(q) {
      assert p == ConsumablesKey(p)[12..] == ConsumablesKey(q)[12..] == q;
    }
    if ReminderKey(p) == ReminderKey(q) {
      assert p == ReminderKey(p)[9..] == ReminderKey(q)[9..] == q;
    }
    if MemoKey(p) == MemoKey(q) {
      assert p == MemoKey(p)[5..] == MemoKey(q)[5..] == q;
    }
  }
}
