/** The enum-property widgets of the tool options bar: a combo box and an
    icon popup button. Both set the bound enum property to the range entry at
    an activated index, after checking that the index is inside the range. */
module EnumControls {

  /** The text of the first combo entry that enables the "back and forth"
      toggle of the activation shortcut. */
  const NormalItem: string := "Normal"

  /** Index of the first entry equal to `text`, or -1 when there is none
      (QComboBox::findText with an exact, case-sensitive match). */
  function FindText(items: seq<string>, text: string): (r: int)
    ensures -1 <= r < |items|
    ensures r == -1 <==> text !in items
    ensures r >= 0 ==> items[r] == text && forall j :: 0 <= j < r ==> items[j] != text
  {
    if |items| == 0 then -1
    else if items[0] == text then 0
    else
      var k := FindText(items[1..], text);
      if k < 0 then -1 else k + 1
  }

  /** In a range without repeated entries, an entry is found at its own index. */
  lemma FindTextDistinct(items: seq<string>, i: int)
    requires forall a, b :: 0 <= a < b < |items| ==> items[a] != items[b]
    requires 0 <= i < |items|
    ensures FindText(items, items[i]) == i
  {
  }

  /** The text of entry `i`, or the empty text for an index with no entry. */
  function ItemText(items: seq<string>, i: int): (t: string)
    ensures 0 <= i < |items| ==> t == items[i]
    ensures !(0 <= i < |items|) ==> t == ""
  {
    if 0 <= i < |items| then items[i] else ""
  }

  /** The current index a combo with `count` entries ends up with after being
      asked to select row `i`: that row, or -1 (no selection) when there is no
      such row. */
  function SelectRow(count: nat, i: int): (r: int)
    ensures -1 <= r < count
    ensures r == i || (r == -1 && !(0 <= i < count))
  {
    if 0 <= i < count then i else -1
  }

  /** A combo box bound to an enum property. */
  class Combo {
    var range: seq<string>   // the entries of the enum property
    var items: seq<string>   // the entries the combo lists
    var currentIndex: int    // the selected row, -1 for none
    var property: string     // the value of the bound enum property
    var hasToolHandle: bool  // the combo was built with a tool handle
    var isActiveTool: bool   // no tool handle, or the handle's current tool is this one
    var isVisible: bool      // the widget sits in a visible viewer
    var notifications: nat   // how many times the tool was told its property changed
    var toolChanges: nat     // "tool changed" notifications sent through the handle
    var cursorChanges: nat   // "cursor type changed" notifications sent through the handle

    /** The combo lists the property's range and selects one of its rows or none. */
    ghost predicate Valid()
      reads this
    {
      items == range && -1 <= currentIndex < |items|
    }

    predicate StepEnabled()
      reads this
    {
      isActiveTool && isVisible
    }

    /** Construction: list the range entries, then select the property value. */
    constructor (range: seq<string>, propertyValue: string, hasToolHandle: bool, isActiveTool: bool, isVisible: bool)
      ensures Valid()
      ensures this.range == range && property == propertyValue
      ensures propertyValue in range ==> currentIndex == FindText(range, propertyValue)
      ensures propertyValue !in range ==> currentIndex == (if |range| > 0 then 0 else -1)
      ensures this.hasToolHandle == hasToolHandle
      ensures this.isActiveTool == isActiveTool && this.isVisible == isVisible
      ensures notifications == 0 && toolChanges == 0 && cursorChanges == 0
    {
      this.range := range;
      property := propertyValue;
      this.hasToolHandle := hasToolHandle;
      this.isActiveTool, this.isVisible := isActiveTool, isVisible;
      notifications, toolChanges, cursorChanges := 0, 0, 0;
      items := range;
      // the first entry added to an empty combo becomes the current one
      currentIndex := if |range| > 0 then 0 else -1;
      new;
      UpdateStatus();
    }

    /** Select the row that shows the property value, if there is one. */
    method UpdateStatus()
      modifies this`currentIndex
      ensures property in items ==> 0 <= currentIndex < |items| && items[currentIndex] == property
      ensures property in items ==> currentIndex == FindText(items, property)
      ensures property !in items ==> currentIndex == old(currentIndex)
      ensures old(Valid()) ==> Valid()
    {
      var index := FindText(items, property);
      if index >= 0 && index != currentIndex {
        currentIndex := SelectRow(|items|, index);
      }
    }

    /** Row `index` was activated: set the property to that range entry,
        unless the index lies outside the range. */
    method OnActivated(index: int)
      modifies this`property, this`notifications
      ensures 0 <= index < |range| ==>
        property == range[index] && notifications == old(notifications) + 1
      ensures !(0 <= index < |range|) ==>
        property == old(property) && notifications == old(notifications)
    {
      if index < 0 || index >= |range| {
        return;
      }
      var item := range[index];
      property := item;
      notifications := notifications + 1;
    }

    /** The activation shortcut. With "Normal" as the first entry, activating
        the row already selected goes back to row 0 and the handle is told the
        cursor changed; otherwise the row is selected and the handle is told
        the tool changed. Both notifications go through the tool handle, which
        must therefore exist. */
    method DoOnActivated(index: int)
      requires hasToolHandle
      modifies this`property, this`notifications, this`currentIndex, this`toolChanges, this`cursorChanges
      ensures !old(StepEnabled()) ==>
        property == old(property) && notifications == old(notifications) &&
        currentIndex == old(currentIndex) &&
        toolChanges == old(toolChanges) && cursorChanges == old(cursorChanges)
      ensures old(StepEnabled()) && ItemText(items, 0) != NormalItem ==>
        toolChanges == old(toolChanges) + 1 && cursorChanges == old(cursorChanges)
      ensures old(StepEnabled()) && ItemText(items, 0) == NormalItem ==>
        toolChanges == old(toolChanges) && cursorChanges == old(cursorChanges) + 1
      ensures old(StepEnabled()) && ItemText(items, 0) == NormalItem && old(currentIndex) == index ==>
        currentIndex == SelectRow(|items|, 0) &&
        (|range| > 0 ==> property == range[0] && notifications == old(notifications) + 1) &&
        (|range| == 0 ==> property == old(property) && notifications == old(notifications))
      ensures old(StepEnabled()) && !(ItemText(items, 0) == NormalItem && old(currentIndex) == index) ==>
        currentIndex == SelectRow(|items|, index) &&
        (0 <= index < |range| ==> property == range[index] && notifications == old(notifications) + 1) &&
        (!(0 <= index < |range|) ==> property == old(property) && notifications == old(notifications))
      ensures old(Valid()) ==> Valid()
    {
      if !isActiveTool {
        return;
      }
      if !isVisible {
        return;
      }
      if ItemText(items, 0) != NormalItem {
        OnActivated(index);
        currentIndex := SelectRow(|items|, index);
        toolChanges := toolChanges + 1;
        return;
      }
      if currentIndex == index {
        OnActivated(0);
        currentIndex := SelectRow(|items|, 0);
      } else {
        OnActivated(index);
        currentIndex := SelectRow(|items|, index);
      }
      cursorChanges := cursorChanges + 1;
    }
  }

  /** On a "Normal" combo, pressing the activation shortcut of a non-first row
      selects that row, and pressing it again goes back to row 0, "Normal". */
  method ToggleTwice(c: Combo, k: int)
    requires c.Valid() && c.StepEnabled() && c.hasToolHandle
    requires ItemText(c.items, 0) == NormalItem && 0 < k < |c.items| && c.currentIndex != k
    modifies c`property, c`notifications, c`currentIndex, c`toolChanges, c`cursorChanges
    ensures c.Valid()
    ensures c.currentIndex == 0 && c.property == c.range[0] && c.property == NormalItem
    ensures c.notifications == old(c.notifications) + 2
    ensures c.cursorChanges == old(c.cursorChanges) + 2 && c.toolChanges == old(c.toolChanges)
  {
    c.DoOnActivated(k);
    c.DoOnActivated(k);
  }

  /** The toggle keeps alternating: a third press selects the row again. */
  method ToggleBackAndForth(c: Combo, k: int)
    requires c.Valid() && c.StepEnabled() && c.hasToolHandle
    requires ItemText(c.items, 0) == NormalItem && 0 < k < |c.items| && c.currentIndex != k
    modifies c`property, c`notifications, c`currentIndex, c`toolChanges, c`cursorChanges
    ensures c.Valid()
    ensures c.currentIndex == k && c.property == c.range[k]
    ensures c.notifications == old(c.notifications) + 3
    ensures c.cursorChanges == old(c.cursorChanges) + 3 && c.toolChanges == old(c.toolChanges)
  {
    ToggleTwice(c, k);
    c.DoOnActivated(k);
  }

  /** An icon popup button bound to an enum property. */
  class PopupButton {
    var range: seq<string>   // the entries of the enum property, one icon each
    var currentIndex: int    // the icon shown
    var property: string     // the value of the bound enum property
    var isVisible: bool
    var notifications: nat

    /** The property's own index: that of its value in the range, -1 if absent. */
    function PropertyIndex(): (i: int)
      reads this
      ensures -1 <= i < |range|
      ensures 0 <= i ==> range[i] == property
    {
      FindText(range, property)
    }

    /** Construction: one icon per range entry, show the first, then the
        property value. */
    constructor (range: seq<string>, propertyValue: string, isVisible: bool)
      ensures this.range == range && property == propertyValue && this.isVisible == isVisible
      ensures propertyValue in range ==> currentIndex == FindText(range, propertyValue)
      ensures propertyValue !in range ==> currentIndex == 0
      ensures notifications == 0
    {
      this.range := range;
      property := propertyValue;
      this.isVisible := isVisible;
      notifications := 0;
      currentIndex := 0;
      new;
      UpdateStatus();
    }

    /** Show the property's index, when it has one. */
    method UpdateStatus()
      modifies this`currentIndex
      ensures PropertyIndex() >= 0 ==> currentIndex == PropertyIndex() && range[currentIndex] == property
      ensures PropertyIndex() < 0 ==> currentIndex == old(currentIndex)
    {
      var index := PropertyIndex();
      if index >= 0 && index != currentIndex {
        currentIndex := index;
      }
    }

    /** Icon `index` was chosen: set the property to that range entry, unless
        the index lies outside the range. */
    method OnActivated(index: int)
      modifies this`property, this`notifications
      ensures 0 <= index < |range| ==>
        property == range[index] && notifications == old(notifications) + 1
      ensures !(0 <= index < |range|) ==>
        property == old(property) && notifications == old(notifications)
    {
      if index < 0 || index >= |range| {
        return;
      }
      var item := range[index];
      property := item;
      notifications := notifications + 1;
    }

    /** The activation shortcut: works only while the button is visible. */
    method DoOnActivated(index: int)
      modifies this`property, this`notifications
      ensures old(isVisible) && 0 <= index < |range| ==>
        property == range[index] && notifications == old(notifications) + 1
      ensures !old(isVisible) || !(0 <= index < |range|) ==>
        property == old(property) && notifications == old(notifications)
    {
      if isVisible {
        OnActivated(index);
      }
    }

    /** The shortcut that shows icon `index`: works only while visible. */
    method DoSetCurrentIndex(index: int)
      modifies this`currentIndex
      ensures currentIndex == if old(isVisible) then index else old(currentIndex)
    {
      if isVisible {
        currentIndex := index;
      }
    }
  }

  /** Choosing an icon and then syncing from the property shows that icon,
      when the range has no repeated entries. */
  method ActivateThenSync(b: PopupButton, i: int)
    requires forall x, y :: 0 <= x < y < |b.range| ==> b.range[x] != b.range[y]
    requires 0 <= i < |b.range|
    modifies b
    ensures b.range == old(b.range)
    ensures b.property == b.range[i] && b.currentIndex == i
  {
    b.OnActivated(i);
    b.UpdateStatus();
    FindTextDistinct(b.range, i);
  }
}
