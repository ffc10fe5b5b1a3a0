/** The render-slot ring: eight render slots of the "Render Result" image,
    an occupancy string with one '0'/'1' per slot, an optional advance to
    the next slot after every render, and a row of slot buttons. */
module RenderSlot {
  import opened Common

  /** The number of render slots the add-on handles. */
  const SlotCount := 8

  /** The host state the add-on reads and writes: the image's active slot
      index, the scene's occupancy string and its auto-advance flag.
      `saves(i)` says whether saving slot i's render succeeds. */
  class SlotState {
    var activeIndex: int
    var occupied: string
    var autoAdvance: bool

    /** register(): the occupancy string starts as eight '0's; the active
        slot is whatever the image has. */
    constructor(active: int)
      ensures activeIndex == active && occupied == "00000000" && !autoAdvance
    {
      activeIndex := active;
      occupied := "00000000";
      autoAdvance := false;
    }

    /** KTX_RenderSlot.execute: selecting slot `number` makes it active. */
    method Select(number: int)
      modifies this
      ensures activeIndex == number
      ensures occupied == old(occupied) && autoAdvance == old(autoAdvance)
    {
      activeIndex := number;
    }

    /** checkslots: try saving every slot, record which succeeded, then
        return to the slot that was active, or to the next one. */
    method CheckSlots(saves: nat -> bool)
      modifies this
      ensures occupied == Occupancy(saves, SlotCount)
      ensures activeIndex == (if autoAdvance then NextSlot(old(activeIndex)) else old(activeIndex))
      ensures autoAdvance == old(autoAdvance)
    {
      var active := activeIndex;
      var slots := "";
      for i := 0 to SlotCount
        invariant slots == Occupancy(saves, i)
        invariant autoAdvance == old(autoAdvance)
      {
        activeIndex := i;
        slots := slots + (if saves(i) then "1" else "0");
      }
      occupied := slots;
      if autoAdvance {
        active := active + 1;
        if active == SlotCount {
          active := 0;
        }
      }
      activeIndex := active;
    }
  }

  /** The occupancy text for slots 0 .. n-1. */
  function Occupancy(saves: nat -> bool, n: nat): string
  {
    if n == 0 then "" else Occupancy(saves, n - 1) + (if saves(n - 1) then "1" else "0")
  }

  /** The text has one character per slot, '1' exactly for the slots whose
      render could be saved. */
  lemma {:induction false} OccupancySpec(saves: nat -> bool, n: nat)
    ensures |Occupancy(saves, n)| == n
    ensures forall i :: 0 <= i < n ==> (Occupancy(saves, n)[i] == '1' <==> saves(i))
    ensures forall i :: 0 <= i < n ==> Occupancy(saves, n)[i] in "01"
  {
    if n > 0 {
      OccupancySpec(saves, n - 1);
    }
  }

  /** The slot after `active`, wrapping from the last slot to the first. */
  function NextSlot(active: int): int
  {
    if active + 1 == SlotCount then 0 else active + 1
  }

  /** On a valid slot the advance is a step around the ring of eight, so
      eight advances come back to the start. */
  lemma NextSlotRing(active: int)
    requires 0 <= active < SlotCount
    ensures NextSlot(active) == (active + 1) % SlotCount
    ensures 0 <= NextSlot(active) < SlotCount
    ensures NextSlot(NextSlot(NextSlot(NextSlot(NextSlot(NextSlot(NextSlot(NextSlot(active)))))))) == active
  {
  }

  // ---------------------------------------------------------------------
  // The panel row

  datatype Icon = LayerActive | Blank1 | Info

  datatype Item =
    | AutoAdvanceToggle
    | SlotButton(text: string, icon: Icon, number: int)
    | Label(text: string, icon: Icon)

  const NoSlotsText := "No Render Slots available yet"

  /** Slot i's button: its 1-based number, bracketed when it is the active
      slot; a filled icon when its occupancy character is '1'. */
  function SlotButtonOf(i: nat, active: int, occupiedChar: char): Item
  {
    var n := NatToString(i + 1);
    SlotButton(if i == active then "[" + n + "]" else n, if occupiedChar == '1' then LayerActive else Blank1, i)
  }

  /** The buttons of slots 0 .. n-1. */
  function SlotButtons(n: nat, active: int, occupied: string): (r: seq<Item>)
    requires n <= |occupied|
    ensures |r| == n
    ensures forall i :: 0 <= i < n ==> r[i] == SlotButtonOf(i, active, occupied[i])
  {
    if n == 0 then [] else SlotButtons(n - 1, active, occupied) + [SlotButtonOf(n - 1, active, occupied[n - 1])]
  }

  /** What ui draws: without a "Render Result" image, only the notice; an
      occupancy string shorter than eight stops the loop with IndexError after
      the buttons already drawn, and the notice follows them. */
  function PanelSpec(hasRenderResult: bool, active: int, occupied: string): seq<Item>
  {
    if !hasRenderResult then [Label(NoSlotsText, Info)]
    else if |occupied| < SlotCount then
      [AutoAdvanceToggle] + SlotButtons(|occupied|, active, occupied) + [Label(NoSlotsText, Info)]
    else [AutoAdvanceToggle] + SlotButtons(SlotCount, active, occupied)
  }

  /** ui: the loop over the eight slots. */
  method Panel(hasRenderResult: bool, active: int, occupied: string) returns (items: seq<Item>)
    ensures items == PanelSpec(hasRenderResult, active, occupied)
  {
    if !hasRenderResult {
      return [Label(NoSlotsText, Info)];
    }
    items := [AutoAdvanceToggle];
    for i := 0 to SlotCount
      invariant i <= |occupied| ==> items == [AutoAdvanceToggle] + SlotButtons(i, active, occupied)
      invariant i > |occupied| ==> false
    {
      if i >= |occupied| {
        return items + [Label(NoSlotsText, Info)];
      }
      items := items + [SlotButtonOf(i, active, occupied[i])];
    }
  }

  /** With a full occupancy string the row has the toggle and eight
      buttons numbered 1..8; exactly the active slot's label is bracketed and
      exactly the occupied slots have the filled icon. */
  lemma PanelButtons(active: int, occupied: string, i: nat)
    requires |occupied| >= SlotCount && i < SlotCount
    ensures |PanelSpec(true, active, occupied)| == SlotCount + 1
    ensures PanelSpec(true, active, occupied)[i + 1].SlotButton?
    ensures PanelSpec(true, active, occupied)[i + 1].number == i
    ensures PanelSpec(true, active, occupied)[i + 1].text == "[" + [DigitChar(i + 1)] + "]" <==> i == active
    ensures PanelSpec(true, active, occupied)[i + 1].text == [DigitChar(i + 1)] <==> i != active
    ensures PanelSpec(true, active, occupied)[i + 1].icon == LayerActive <==> occupied[i] == '1'
  {
    var items := PanelSpec(true, active, occupied);
    assert items[i + 1] == SlotButtons(SlotCount, active, occupied)[i];
    assert NatToString(i + 1) == [DigitChar(i + 1)];
    if i != active {
      assert items[i + 1].text != "[" + [DigitChar(i + 1)] + "]" by {
        assert |items[i + 1].text| == 1;
      }
    } else {
      assert items[i + 1].text != [DigitChar(i + 1)] by {
        assert |items[i + 1].text| == 3;
      }
    }
  }

  /** After a render the buttons show exactly the slots whose render could
      be saved. */
  lemma RenderThenPanel(saves: nat -> bool, active: int, i: nat)
    requires i < SlotCount
    ensures PanelSpec(true, active, Occupancy(saves, SlotCount))[i + 1].icon == LayerActive <==> saves(i)
  {
    OccupancySpec(saves, SlotCount);
    PanelButtons(active, Occupancy(saves, SlotCount), i);
  }
}
