/** The menu button that lists several boolean properties as checkable
    actions; checking or unchecking an action writes its property. */
module PropertyMenu {

  class PropertyMenuButton {
    var names: seq<string>      // the property names
    var properties: seq<bool>   // the values of the bound boolean properties
    var checked: seq<bool>      // the check state of each menu action
    var notifications: nat      // how many times the tool was told a property changed
    var emitted: seq<string>    // names sent with the "property changed" signal, oldest first

    /** One action per property. */
    ghost predicate Valid()
      reads this
    {
      |checked| == |properties| == |names|
    }

    /** Construction: one checkable action per property, checked as the
        property is. */
    constructor (names: seq<string>, values: seq<bool>)
      requires |names| == |values|
      ensures Valid()
      ensures this.names == names && properties == values && checked == values
      ensures notifications == 0 && emitted == []
    {
      this.names := names;
      properties := values;
      checked := values;
      notifications := 0;
      emitted := [];
    }

    /** Bring every action's check state in line with its property. */
    method UpdateStatus()
      requires Valid()
      modifies this`checked
      ensures Valid()
      ensures checked == properties
    {
      var i := 0;
      while i < |properties|
        invariant 0 <= i <= |properties| && |checked| == |properties|
        invariant checked[..i] == properties[..i]
        invariant checked[i..] == old(checked)[i..]
      {
        var isPropertyLocked := properties[i];
        if checked[i] != isPropertyLocked {
          checked := checked[i := isPropertyLocked];
        }
        i := i + 1;
      }
    }

    /** The user toggled action `i` (the action flips its check state, then
        reports the trigger). */
    method ToggleAction(i: int)
      requires Valid() && 0 <= i < |checked|
      modifies this`checked, this`properties, this`notifications, this`emitted
      ensures Valid()
      ensures checked == old(checked)[i := !old(checked[i])]
      ensures properties == old(properties)[i := checked[i]]
    {
      checked := checked[i := !checked[i]];
      OnActionTriggered(i);
    }

    /** Action `i` was triggered: copy its check state into property `i`,
        unless the property already holds it. */
    method OnActionTriggered(i: int)
      requires Valid() && 0 <= i < |properties|
      modifies this`properties, this`notifications, this`emitted
      ensures Valid()
      ensures old(checked[i] == properties[i]) ==>
        properties == old(properties) && notifications == old(notifications) && emitted == old(emitted)
      ensures old(checked[i] != properties[i]) ==>
        properties == old(properties)[i := checked[i]] &&
        notifications == old(notifications) + 1 && emitted == old(emitted) + [names[i]]
      ensures properties[i] == checked[i]
    {
      var currentPropertyIndex := i;
      var isChecked := checked[currentPropertyIndex];
      if isChecked == properties[currentPropertyIndex] {
        return;
      }
      properties := properties[currentPropertyIndex := isChecked];
      notifications := notifications + 1;
      emitted := emitted + [names[currentPropertyIndex]];
    }
  }
}
