/** The modal in which an owner sets a vehicle's pickup and return windows
    (components/modal/TimePickerModal.tsx): four wheels over the same 48
    half-hour slots, each scrolled to its current value and read back by
    offset when scrolling stops; the values shown are the first five
    characters of the initial ones and are handed back with ":00" appended. */
module TimePicker {
  import opened Common
  import opened CarDetails

  const ItemHeight: int := 50
  const VisibleItems: int := 3

  /** `paddingHeight`: the space above the first and below the last slot. */
  function PaddingHeight(): (p: int)
    ensures p + ItemHeight + p == ItemHeight * VisibleItems
  {
    (VisibleItems - 1) / 2 * ItemHeight
  }

  // ---------------------------------------------------------------------
  // The slots

  /** Slot `i`: hour `i / 2` zero-padded, then ":00" or ":30". */
  function Slot(i: nat): string {
    Pad2(i / 2) + ":" + (if i % 2 == 0 then "00" else "30")
  }

  function TimeSlots(): (slots: seq<string>)
    ensures |slots| == 48 && forall i :: 0 <= i < 48 ==> slots[i] == Slot(i)
  {
    seq(48, i requires 0 <= i < 48 => Slot(i))
  }

  /** The time slot `i` stands for. */
  function SlotTime(i: nat): ClockTime {
    ClockTime(i / 2, if i % 2 == 0 then 0 else 30)
  }

  lemma SlotIsFormatted(i: nat)
    ensures Slot(i) == FormatClock(SlotTime(i))
  {
    assert Pad2(0) == "00" by {
      assert NatToString(0) == [DigitChar(0)];
    }
    assert Pad2(30) == "30" by {
      assert NatToString(30) == NatToString(3) + [DigitChar(0)];
    }
  }

  /** Every slot parses, to hour `i / 2` and minute 0 or 30, and the slots are
      strictly increasing, so no two are equal (each serves as a list key). */
  lemma TimeSlotsOrdered()
    ensures forall i :: 0 <= i < 48 ==> ParseTime(TimeSlots()[i]) == Some(SlotTime(i))
    ensures forall i :: 0 <= i < 48 ==> SlotTime(i).hours < 24 && SlotTime(i).minutes < 60
    ensures forall i, j :: 0 <= i < j < 48 ==> Earlier(SlotTime(i), SlotTime(j))
    ensures forall i, j :: 0 <= i < j < 48 ==> TimeSlots()[i] != TimeSlots()[j]
  {
    forall i | 0 <= i < 48
      ensures ParseTime(TimeSlots()[i]) == Some(SlotTime(i))
    {
      SlotIsFormatted(i);
      ParseFormat(SlotTime(i));
    }
    forall i, j | 0 <= i < j < 48
      ensures TimeSlots()[i] != TimeSlots()[j]
    {
      assert Earlier(SlotTime(i), SlotTime(j));
    }
  }

  // ---------------------------------------------------------------------
  // Scrolling

  /** `data.findIndex(item => item === v)`: the first match, or -1. */
  function FindIndex(data: seq<string>, v: string): (r: int)
    ensures -1 <= r < |data|
    ensures r == -1 <==> v !in data
    ensures r >= 0 ==> data[r] == v && forall j :: 0 <= j < r ==> data[j] != v
    decreases |data|
  {
    if data == [] then -1
    else if data[0] == v then 0
    else
      var k := FindIndex(data[1..], v);
      if k == -1 then -1 else k + 1
  }

  /** The offset the wheel is scrolled to; nothing when the value is not a
      slot. */
  function ScrollTarget(data: seq<string>, selected: string): (y: Option<int>)
    ensures y.None? <==> selected !in data
  {
    var index := FindIndex(data, selected);
    if index > -1 then Some(index * ItemHeight) else None
  }

  /** `Math.round(y / ITEM_HEIGHT)` for a whole-pixel offset: halves round
      up. */
  function IndexAt(y: int): (i: int)
    ensures (i - 1) * ItemHeight + ItemHeight / 2 <= y < i * ItemHeight + ItemHeight / 2
  {
    (y + ItemHeight / 2) / ItemHeight
  }

  /** `handleMomentumScrollEnd`: the slot under the offset, only when the
      index is inside the list. */
  function SelectAt(data: seq<string>, y: int): (v: Option<string>)
    ensures v.Some? <==> 0 <= IndexAt(y) < |data|
    ensures v.Some? ==> v.value == data[IndexAt(y)]
  {
    var index := IndexAt(y);
    if index >= 0 && index < |data| then Some(data[index]) else None
  }

  /** Scrolling to a value and reading the wheel back selects that value, and
      so does stopping anywhere within half an item of it. */
  lemma ScrollRoundTrip(data: seq<string>, selected: string, drift: int)
    requires selected in data
    requires -ItemHeight / 2 <= drift < ItemHeight / 2
    ensures SelectAt(data, ScrollTarget(data, selected).value + drift) == Some(selected)
  {
    var y := ScrollTarget(data, selected).value + drift;
    var index := FindIndex(data, selected);
    assert y == index * ItemHeight + drift;
    assert IndexAt(y) == index;
  }

  // ---------------------------------------------------------------------
  // The four values

  datatype Times = Times(pickupStart: string, pickupEnd: string, returnStart: string, returnEnd: string)

  /** `substring(0, 5)`. */
  function Truncate(s: string): (r: string)
    ensures |r| == if |s| < 5 then |s| else 5
    ensures r == s[..|r|]
  {
    if |s| < 5 then s else s[..5]
  }

  function TruncateAll(t: Times): Times {
    Times(Truncate(t.pickupStart), Truncate(t.pickupEnd), Truncate(t.returnStart), Truncate(t.returnEnd))
  }

  /** What `handleConfirm` passes on: each value with ":00" appended. */
  function WithSeconds(t: Times): (r: Times)
    ensures r.pickupStart == t.pickupStart + ":00" && r.pickupEnd == t.pickupEnd + ":00"
    ensures r.returnStart == t.returnStart + ":00" && r.returnEnd == t.returnEnd + ":00"
  {
    Times(t.pickupStart + ":00", t.pickupEnd + ":00", t.returnStart + ":00", t.returnEnd + ":00")
  }

  predicate FiveChars(t: Times) {
    |t.pickupStart| == 5 && |t.pickupEnd| == 5 && |t.returnStart| == 5 && |t.returnEnd| == 5
  }

  /** Confirming and reopening the modal on the confirmed values shows the
      same four times; truncating is idempotent. */
  lemma ConfirmThenReopen(t: Times)
    requires FiveChars(t)
    ensures TruncateAll(WithSeconds(t)) == t
    ensures TruncateAll(TruncateAll(t)) == TruncateAll(t)
  {
    assert (t.pickupStart + ":00")[..5] == t.pickupStart;
    assert (t.pickupEnd + ":00")[..5] == t.pickupEnd;
    assert (t.returnStart + ":00")[..5] == t.returnStart;
    assert (t.returnEnd + ":00")[..5] == t.returnEnd;
  }

  /** The confirmed value of a slot still parses to the slot's time. */
  lemma ConfirmedSlotParses(i: nat)
    requires i < 48
    ensures ParseTime(TimeSlots()[i] + ":00") == Some(SlotTime(i))
  {
    SlotIsFormatted(i);
    ParseFormatWithSeconds(SlotTime(i));
  }

  datatype Wheel = PickupStartWheel | PickupEndWheel | ReturnStartWheel | ReturnEndWheel

  /** The modal's internal state. */
  class TimePickerModal {
    var pickupStart: string
    var pickupEnd: string
    var returnStart: string
    var returnEnd: string

    function Current(): Times
      reads this
    {
      Times(pickupStart, pickupEnd, returnStart, returnEnd)
    }

    constructor ()
      ensures Current() == Times("09:00", "17:00", "09:00", "17:00")
    {
      pickupStart := "09:00";
      pickupEnd := "17:00";
      returnStart := "09:00";
      returnEnd := "17:00";
    }

    /** The effect run when the modal becomes visible. */
    method Open(initial: Times)
      modifies this
      ensures Current() == TruncateAll(initial)
    {
      pickupStart := Truncate(initial.pickupStart);
      pickupEnd := Truncate(initial.pickupEnd);
      returnStart := Truncate(initial.returnStart);
      returnEnd := Truncate(initial.returnEnd);
    }

    /** Scrolling one wheel to rest at offset `y`; an offset outside the list
        changes nothing. */
    method ScrollEnd(wheel: Wheel, y: int)
      modifies this
      ensures var v := SelectAt(TimeSlots(), y);
              Current() == if v.None? then old(Current()) else match wheel
                case PickupStartWheel => old(Current()).(pickupStart := v.value)
                case PickupEndWheel => old(Current()).(pickupEnd := v.value)
                case ReturnStartWheel => old(Current()).(returnStart := v.value)
                case ReturnEndWheel => old(Current()).(returnEnd := v.value)
    {
      var data := TimeSlots();
      var index := IndexAt(y);
      if index >= 0 && index < |data| {
        match wheel
        case PickupStartWheel => pickupStart := data[index];
        case PickupEndWheel => pickupEnd := data[index];
        case ReturnStartWheel => returnStart := data[index];
        case ReturnEndWheel => returnEnd := data[index];
      }
    }

    /** `handleConfirm`: the values handed to `onConfirm`. */
    method Confirm() returns (confirmed: Times)
      ensures confirmed == WithSeconds(Current())
    {
      confirmed := Times(pickupStart + ":00", pickupEnd + ":00", returnStart + ":00", returnEnd + ":00");
    }
  }
}
