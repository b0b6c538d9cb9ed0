/**
 * The consumable-replacement panel of an appliance: when each consumable is
 * next due, how urgent it is, how many items need attention, and the
 * "replaced today" action that records a date per item. Dates are day
 * numbers (whole days since a fixed epoch, one calendar convention).
 */
module Consumables {
  import opened Js
  import opened LocalStore

  /** A consumable part and how often it is replaced. */
  datatype Consumable = Consumable(id: string, name: string, intervalDays: int, intervalLabel: string)

  datatype State = Unknown | Overdue | Soon | Ok

  /** `getStatus`'s result, without the display label of the next date. */
  datatype Status = Status(next: Option<int>, daysUntil: Option<int>, state: State)

  /** Urgency of a dated item: due or past due, within a week, or later. */
  function StateFor(daysUntil: int): State {
    if daysUntil <= 0 then Overdue
    else if daysUntil <= 7 then Soon
    else Ok
  }

  /** `getStatus(id, intervalDays)` with the recorded dates and today's day number. */
  function GetStatus(lastDates: map<string, int>, id: string, intervalDays: int, today: int): Status {
    if id !in lastDates then Status(None, None, Unknown)
    else
      var next := lastDates[id] + intervalDays;
      var daysUntil := next - today;
      Status(Some(next), Some(daysUntil), StateFor(daysUntil))
  }

  /**
   * The status in terms of the calendar: an undated item is unknown; a dated
   * one is due `interval` days after its last date, is overdue exactly from
   * that day on, and needs attention exactly from seven days before it.
   */
  lemma DueWindows(lastDates: map<string, int>, id: string, intervalDays: int, today: int)
    ensures var s := GetStatus(lastDates, id, intervalDays, today);
      && (s.state == Unknown <==> id !in lastDates)
      && (s.state == Unknown ==> s.next.None? && s.daysUntil.None?)
      && (id in lastDates ==> s.next == Some(lastDates[id] + intervalDays) && s.daysUntil == Some(s.next.value - today))
      && (s.state == Overdue <==> id in lastDates && today >= lastDates[id] + intervalDays)
      && (s.state == Overdue || s.state == Soon <==> id in lastDates && today >= lastDates[id] + intervalDays - 7)
  {
  }

  /** Ordering of the dated states by urgency. */
  function Urgency(s: State): nat {
    match s
    case Unknown => 0
    case Ok => 1
    case Soon => 2
    case Overdue => 3
  }

  /**
   * With no new replacement, a later day leaves the item closer to its date by
   * the elapsed days and never less urgent: ok -> soon -> overdue only.
   */
  lemma StatusMonotone(lastDates: map<string, int>, id: string, intervalDays: int, today: int, later: int)
    requires today <= later
    ensures var s := GetStatus(lastDates, id, intervalDays, today);
      var t := GetStatus(lastDates, id, intervalDays, later);
      && (s.daysUntil.Some? ==> t.daysUntil == Some(s.daysUntil.value - (later - today)))
      && Urgency(s.state) <= Urgency(t.state)
      && (s.state == Unknown <==> t.state == Unknown)
  {
  }

  /** An item needs attention when it is overdue or due within a week. */
  predicate NeedsAttention(lastDates: map<string, int>, c: Consumable, today: int) {
    var s := GetStatus(lastDates, c.id, c.intervalDays, today);
    s.state == Overdue || s.state == Soon
  }

  /** `consumables.filter(needs attention)`: the items to flag, in list order. */
  function Attention(consumables: seq<Consumable>, lastDates: map<string, int>, today: int): (r: seq<Consumable>)
    ensures |r| <= |consumables|
    ensures forall c :: c in r <==> c in consumables && NeedsAttention(lastDates, c, today)
  {
    if consumables == [] then []
    else
      var rest := Attention(consumables[1..], lastDates, today);
      if NeedsAttention(lastDates, consumables[0], today) then [consumables[0]] + rest else rest
  }

  /** The filter keeps a single item exactly when it needs attention. */
  lemma AttentionSingle(c: Consumable, lastDates: map<string, int>, today: int)
    ensures Attention([c], lastDates, today) == if NeedsAttention(lastDates, c, today) then [c] else []
  {
    assert [c][1..] == [];
  }

  /**
   * Filtering a concatenation filters each part in turn: with the single-item
   * case, the result is the items needing attention, in list order, repeats kept.
   */
  lemma {:induction false} AttentionAppend(a: seq<Consumable>, b: seq<Consumable>, lastDates: map<string, int>, today: int)
    ensures Attention(a + b, lastDates, today) == Attention(a, lastDates, today) + Attention(b, lastDates, today)
  {
    if a == [] {
      assert a + b == b;
    } else {
      assert (a + b)[1..] == a[1..] + b;
      AttentionAppend(a[1..], b, lastDates, today);
    }
  }

  /** `overdueCount`: the number of items needing attention. */
  function OverdueCount(consumables: seq<Consumable>, lastDates: map<string, int>, today: int): nat {
    |Attention(consumables, lastDates, today)|
  }

  /** The count is zero exactly when no item needs attention. */
  lemma OverdueCountZeroIff(consumables: seq<Consumable>, lastDates: map<string, int>, today: int)
    ensures OverdueCount(consumables, lastDates, today) == 0
        <==> forall i :: 0 <= i < |consumables| ==> !NeedsAttention(lastDates, consumables[i], today)
  {
    var r := Attention(consumables, lastDates, today);
    if r != [] {
      assert r[0] in r;
    } else {
      forall i | 0 <= i < |consumables| ensures !NeedsAttention(lastDates, consumables[i], today) {
        assert consumables[i] in consumables;
      }
    }
  }

  /** Counting splits over concatenated lists. */
  lemma OverdueCountAppend(a: seq<Consumable>, b: seq<Consumable>, lastDates: map<string, int>, today: int)
    ensures OverdueCount(a + b, lastDates, today) == OverdueCount(a, lastDates, today) + OverdueCount(b, lastDates, today)
  {
    AttentionAppend(a, b, lastDates, today);
  }

  /** As days pass with no replacement, the count of flagged items never falls. */
  lemma {:induction false} OverdueCountMonotone(consumables: seq<Consumable>, lastDates: map<string, int>, today: int, later: int)
    requires today <= later
    ensures OverdueCount(consumables, lastDates, today) <= OverdueCount(consumables, lastDates, later)
  {
    if consumables != [] {
      var c := consumables[0];
      StatusMonotone(lastDates, c.id, c.intervalDays, today, later);
      OverdueCountMonotone(consumables[1..], lastDates, today, later);
    }
  }

  /** `{ ...lastDates, [id]: today }`: only that item's entry changes. */
  function Replaced(lastDates: map<string, int>, id: string, today: int): (r: map<string, int>)
    ensures id in r && r[id] == today
    ensures r.Keys == lastDates.Keys + {id}
    ensures forall k :: k in lastDates && k != id ==> r[k] == lastDates[k]
  {
    lastDates[id := today]
  }

  /**
   * Right after a replacement the item is a full interval away, and every
   * other item's status is what it was.
   */
  lemma ReplacedResetsClock(lastDates: map<string, int>, id: string, intervalDays: int, today: int, other: string, otherInterval: int)
    requires other != id
    ensures GetStatus(Replaced(lastDates, id, today), id, intervalDays, today)
         == Status(Some(today + intervalDays), Some(intervalDays), StateFor(intervalDays))
    ensures GetStatus(Replaced(lastDates, id, today), other, otherInterval, today)
         == GetStatus(lastDates, other, otherInterval, today)
  {
  }

  /** The panel's visible content. */
  datatype Panel = Panel(badge: Option<nat>, rows: Option<seq<Status>>)

  /**
   * Rendering: nothing for an empty list; otherwise the collapsed header
   * carries the count badge when it is non-zero, and the open panel lists the
   * status of every item in order.
   */
  function Render(consumables: seq<Consumable>, lastDates: map<string, int>, isOpen: bool, today: int): (r: Option<Panel>)
    ensures r.None? <==> |consumables| == 0
    ensures r.Some? ==> (r.value.badge.Some? <==> !isOpen && OverdueCount(consumables, lastDates, today) > 0)
    ensures r.Some? && r.value.badge.Some? ==> 0 < r.value.badge.value <= |consumables|
    ensures r.Some? ==> (r.value.rows.Some? <==> isOpen)
    ensures r.Some? && r.value.rows.Some? ==>
      && |r.value.rows.value| == |consumables|
      && forall i :: 0 <= i < |consumables| ==>
           r.value.rows.value[i] == GetStatus(lastDates, consumables[i].id, consumables[i].intervalDays, today)
  {
    var count := OverdueCount(consumables, lastDates, today);
    if |consumables| == 0 then None
    else
      Some(Panel(
        if !isOpen && count > 0 then Some(count) else None,
        if isOpen then Some(seq(|consumables|, i requires 0 <= i < |consumables| =>
                                  GetStatus(lastDates, consumables[i].id, consumables[i].intervalDays, today)))
        else None))
  }

  /** The component's state: its props, whether it is expanded, and the recorded dates. */
  class ConsumableSection {
    const productId: string
    const consumables: seq<Consumable>
    var isOpen: bool
    var lastDates: map<string, int>

    constructor (productId: string, consumables: seq<Consumable>)
      ensures this.productId == productId && this.consumables == consumables
      ensures !isOpen && lastDates == map[]
    {
      this.productId := productId;
      this.consumables := consumables;
      isOpen := false;
      lastDates := map[];
    }

    /** The load effect: a stored date map under this product's key replaces the dates. */
    method Load(store: LocalStorage)
      modifies this`lastDates
      ensures match store.Get(ConsumablesKey(productId))
              case Some(DateMap(dates)) => lastDates == dates
              case _ => lastDates == old(lastDates)
    {
      var stored := store.Get(ConsumablesKey(productId));
      if stored.Some? && stored.value.DateMap? {
        lastDates := stored.value.dates;
      }
    }

    /** `markReplaced(id)`: records today for that item and persists the whole map. */
    method MarkReplaced(store: LocalStorage, id: string, today: int)
      modifies this`lastDates, store
      ensures lastDates == Replaced(old(lastDates), id, today)
      ensures store.entries == old(store.entries)[ConsumablesKey(productId) := DateMap(lastDates)]
    {
      lastDates := lastDates[id := today];
      store.Set(ConsumablesKey(productId), DateMap(lastDates));
    }

    /** Tapping the header. */
    method Toggle()
      modifies this`isOpen
      ensures isOpen == !old(isOpen)
    {
      isOpen := !isOpen;
    }

    function View(today: int): Option<Panel>
      reads this
    {
      Render(consumables, lastDates, isOpen, today)
    }
  }
}
