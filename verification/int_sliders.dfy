/** The integer brush-size sliders of the tool options bar: a single-value
    slider bound to an integer property and a two-ended (min/max) slider bound
    to an integer-pair property. The shortcut steps go through the rules of
    module Stepping. */
module IntSliders {
  import opened Stepping

  /** A single-value integer slider bound to an integer property. */
  class IntSlider {
    var value: int          // the number the widget shows
    var minValue: int       // the widget range, taken from the property
    var maxValue: int
    var property: int       // the value of the bound property
    var pencilMode: bool    // whether the owning tool is in pencil mode
    var isActiveTool: bool  // no tool handle, or the handle's current tool is this one
    var isVisible: bool     // the widget sits in a visible viewer
    var notifications: nat  // how many times the tool was told its property changed

    /** The widget value lies inside the widget range. */
    ghost predicate Valid()
      reads this
    {
      minValue <= value <= maxValue
    }

    /** The guard every shortcut step checks first. */
    predicate StepEnabled()
      reads this
    {
      isActiveTool && isVisible
    }

    /** Construction: take the range from the property, then show its value. */
    constructor (propertyValue: int, minValue: int, maxValue: int, pencilMode: bool, isActiveTool: bool, isVisible: bool)
      ensures this.minValue == minValue && this.maxValue == maxValue
      ensures property == propertyValue && value == propertyValue
      ensures minValue <= propertyValue <= maxValue ==> Valid()
      ensures this.pencilMode == pencilMode && this.isActiveTool == isActiveTool && this.isVisible == isVisible
      ensures notifications == 0
    {
      this.minValue, this.maxValue := minValue, maxValue;
      this.pencilMode, this.isActiveTool, this.isVisible := pencilMode, isActiveTool, isVisible;
      property := propertyValue;
      value := propertyValue;
      notifications := 0;
    }

    /** Pull the property value into the widget. */
    method UpdateStatus()
      modifies this`value
      ensures value == property
    {
      var v := property;
      if value == v {
        return;
      }
      value := v;
    }

    /** The widget was edited: push its value into the property. */
    method OnValueChanged()
      modifies this`property, this`notifications
      ensures property == value && notifications == old(notifications) + 1
    {
      property := value;
      notifications := notifications + 1;
    }

    /** The increase shortcut. */
    method Increase()
      modifies this`value, this`property, this`notifications
      ensures !old(StepEnabled()) ==>
        value == old(value) && property == old(property) && notifications == old(notifications)
      ensures old(StepEnabled()) ==>
        value == IncreaseInt(old(value), maxValue, pencilMode) && property == value &&
        notifications == old(notifications) + 1
      ensures value <= maxValue || !old(StepEnabled())
      ensures old(Valid()) ==> Valid()
    {
      if !isActiveTool {
        return;
      }
      if !isVisible {
        return;
      }
      var v := value;
      v := v + 1;
      if v == CrossSize && pencilMode {
        v := v + 1;
      }
      if v > maxValue {
        v := maxValue;
      }
      value := v;
      property := value;
      notifications := notifications + 1;
    }

    /** The decrease shortcut. */
    method Decrease()
      modifies this`value, this`property, this`notifications
      ensures !old(StepEnabled()) ==>
        value == old(value) && property == old(property) && notifications == old(notifications)
      ensures old(StepEnabled()) ==>
        value == DecreaseInt(old(value), minValue, pencilMode) && property == value &&
        notifications == old(notifications) + 1
      ensures value >= minValue || !old(StepEnabled())
      ensures old(Valid()) ==> Valid()
    {
      if !isActiveTool {
        return;
      }
      if !isVisible {
        return;
      }
      var v := value;
      v := v - 1;
      if v == CrossSize && pencilMode {
        v := v - 1;
      }
      if v < minValue {
        v := minValue;
      }
      value := v;
      property := value;
      notifications := notifications + 1;
    }
  }

  /** A two-ended (min/max) integer slider bound to an integer-pair property. */
  class IntPairSlider {
    var values: IntPair     // the two ends the widget shows
    var minValue: int       // the widget range, taken from the property
    var maxValue: int
    var property: IntPair   // the value of the bound property
    var pencilMode: bool
    var isActiveTool: bool
    var isVisible: bool
    var notifications: nat

    /** Both ends lie inside the range, in order. */
    ghost predicate Valid()
      reads this
    {
      PairInRange(values, minValue, maxValue)
    }

    /** The guard every shortcut step checks first. */
    predicate StepEnabled()
      reads this
    {
      isActiveTool && isVisible
    }

    /** Construction: take the range from the property, then show its value. */
    constructor (propertyValue: IntPair, minValue: int, maxValue: int, pencilMode: bool, isActiveTool: bool, isVisible: bool)
      ensures this.minValue == minValue && this.maxValue == maxValue
      ensures property == propertyValue && values == propertyValue
      ensures minValue <= propertyValue.first <= propertyValue.second <= maxValue ==> Valid()
      ensures this.pencilMode == pencilMode && this.isActiveTool == isActiveTool && this.isVisible == isVisible
      ensures notifications == 0
    {
      this.minValue, this.maxValue := minValue, maxValue;
      this.pencilMode, this.isActiveTool, this.isVisible := pencilMode, isActiveTool, isVisible;
      property := propertyValue;
      values := propertyValue;
      notifications := 0;
    }

    /** Pull the property value into the widget. */
    method UpdateStatus()
      modifies this`values
      ensures values == property
    {
      values := property;
    }

    /** The widget was edited: push its values into the property. */
    method OnValuesChanged()
      modifies this`property, this`notifications
      ensures property == values && notifications == old(notifications) + 1
    {
      property := values;
      notifications := notifications + 1;
    }

    /** The shortcut that raises the max end. */
    method IncreaseMaxValue()
      modifies this`values, this`property, this`notifications
      ensures !old(StepEnabled()) ==>
        values == old(values) && property == old(property) && notifications == old(notifications)
      ensures old(StepEnabled()) ==>
        values == IncreaseMax(old(values), maxValue, pencilMode) && property == values &&
        notifications == old(notifications) + 1
      ensures values.first == old(values.first)
      ensures old(Valid()) ==> Valid()
    {
      if !isActiveTool {
        return;
      }
      if !isVisible {
        return;
      }
      var v := values;
      v := v.(second := v.second + 1);
      if v.second == CrossSize && pencilMode {
        v := v.(second := v.second + 1);
      }
      if v.second > maxValue {
        v := v.(second := maxValue);
      }
      values := v;
      property := values;
      notifications := notifications + 1;
    }

    /** The shortcut that lowers the max end; it stops at the min end. */
    method DecreaseMaxValue()
      modifies this`values, this`property, this`notifications
      ensures !old(StepEnabled()) ==>
        values == old(values) && property == old(property) && notifications == old(notifications)
      ensures old(StepEnabled()) ==>
        values == DecreaseMax(old(values), pencilMode) && property == values &&
        notifications == old(notifications) + 1
      ensures values.first == old(values.first)
      ensures old(Valid()) ==> Valid()
    {
      if !isActiveTool {
        return;
      }
      if !isVisible {
        return;
      }
      var v := values;
      v := v.(second := v.second - 1);
      if v.second == CrossSize && pencilMode {
        v := v.(second := v.second - 1);
      }
      if v.second < v.first {
        v := v.(second := v.first);
      }
      values := v;
      property := values;
      notifications := notifications + 1;
    }

    /** The shortcut that raises the min end; it stops at the max end. */
    method IncreaseMinValue()
      modifies this`values, this`property, this`notifications
      ensures !old(StepEnabled()) ==>
        values == old(values) && property == old(property) && notifications == old(notifications)
      ensures old(StepEnabled()) ==>
        values == IncreaseMin(old(values)) && property == values &&
        notifications == old(notifications) + 1
      ensures values.second == old(values.second)
      ensures old(Valid()) ==> Valid()
    {
      if !isActiveTool {
        return;
      }
      if !isVisible {
        return;
      }
      var v := values;
      v := v.(first := v.first + 1);
      if v.first > v.second {
        v := v.(first := v.second);
      }
      values := v;
      property := values;
      notifications := notifications + 1;
    }

    /** The shortcut that lowers the min end; it stops at the range minimum. */
    method DecreaseMinValue()
      modifies this`values, this`property, this`notifications
      ensures !old(StepEnabled()) ==>
        values == old(values) && property == old(property) && notifications == old(notifications)
      ensures old(StepEnabled()) ==>
        values == DecreaseMin(old(values), minValue) && property == values &&
        notifications == old(notifications) + 1
      ensures values.second == old(values.second)
      ensures old(Valid()) ==> Valid()
    {
      if !isActiveTool {
        return;
      }
      if !isVisible {
        return;
      }
      var v := values;
      v := v.(first := v.first - 1);
      if v.first < minValue {
        v := v.(first := minValue);
      }
      values := v;
      property := values;
      notifications := notifications + 1;
    }
  }
}
