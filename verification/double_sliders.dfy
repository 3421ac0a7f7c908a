/** The real-valued sliders of the tool options bar: a single-value slider
    bound to a double property and a two-ended slider bound to a double-pair
    property. Same clamp shape as the integer sliders, without the pencil-mode
    skip; arithmetic is exact. */
module DoubleSliders {
  import opened Stepping

  /** The (first, second) value of a two-ended real slider. */
  datatype RealPair = RealPair(first: real, second: real)

  /** A single-value real slider bound to a double property. */
  class DoubleSlider {
    var value: real
    var minValue: real
    var maxValue: real
    var property: real
    var isActiveTool: bool  // no tool handle, or the handle's current tool is this one
    var isVisible: bool     // the widget sits in a visible viewer
    var notifications: nat

    ghost predicate Valid()
      reads this
    {
      minValue <= value <= maxValue
    }

    predicate StepEnabled()
      reads this
    {
      isActiveTool && isVisible
    }

    constructor (propertyValue: real, minValue: real, maxValue: real, isActiveTool: bool, isVisible: bool)
      ensures this.minValue == minValue && this.maxValue == maxValue
      ensures property == propertyValue && value == propertyValue
      ensures minValue <= propertyValue <= maxValue ==> Valid()
      ensures this.isActiveTool == isActiveTool && this.isVisible == isVisible
      ensures notifications == 0
    {
      this.minValue, this.maxValue := minValue, maxValue;
      this.isActiveTool, this.isVisible := isActiveTool, isVisible;
      property := propertyValue;
      value := propertyValue;
      notifications := 0;
    }

    /** Pull the property value into the widget. */
    method UpdateStatus()
      modifies this`value
      ensures value == property
    {
      var v := property;
      if value == v {
        return;
      }
      value := v;
    }

    /** The widget was edited: push its value into the property. */
    method OnValueChanged()
      modifies this`property, this`notifications
      ensures property == value && notifications == old(notifications) + 1
    {
      property := value;
      notifications := notifications + 1;
    }

    /** The increase shortcut. */
    method Increase()
      modifies this`value, this`property, this`notifications
      ensures !old(StepEnabled()) ==>
        value == old(value) && property == old(property) && notifications == old(notifications)
      ensures old(StepEnabled()) ==>
        value == IncreaseReal(old(value), maxValue) && property == value &&
        notifications == old(notifications) + 1
      ensures old(Valid()) ==> Valid()
    {
      if !isActiveTool {
        return;
      }
      if !isVisible {
        return;
      }
      var v := value;
      v := v + 1.0;
      if v > maxValue {
        v := maxValue;
      }
      value := v;
      property := value;
      notifications := notifications + 1;
    }

    /** The decrease shortcut. */
    method Decrease()
      modifies this`value, this`property, this`notifications
      ensures !old(StepEnabled()) ==>
        value == old(value) && property == old(property) && notifications == old(notifications)
      ensures old(StepEnabled()) ==>
        value == DecreaseReal(old(value), minValue) && property == value &&
        notifications == old(notifications) + 1
      ensures old(Valid()) ==> Valid()
    {
      if !isActiveTool {
        return;
      }
      if !isVisible {
        return;
      }
      var v := value;
      v := v - 1.0;
      if v < minValue {
        v := minValue;
      }
      value := v;
      property := value;
      notifications := notifications + 1;
    }
  }

  /** A two-ended real slider bound to a double-pair property. */
  class DoublePairSlider {
    var values: RealPair
    var minValue: real
    var maxValue: real
    var property: RealPair
    var isActiveTool: bool
    var isVisible: bool
    var notifications: nat

    ghost predicate Valid()
      reads this
    {
      minValue <= values.first <= values.second <= maxValue
    }

    predicate StepEnabled()
      reads this
    {
      isActiveTool && isVisible
    }

    constructor (propertyValue: RealPair, minValue: real, maxValue: real, isActiveTool: bool, isVisible: bool)
      ensures this.minValue == minValue && this.maxValue == maxValue
      ensures property == propertyValue && values == propertyValue
      ensures minValue <= propertyValue.first <= propertyValue.second <= maxValue ==> Valid()
      ensures this.isActiveTool == isActiveTool && this.isVisible == isVisible
      ensures notifications == 0
    {
      this.minValue, this.maxValue := minValue, maxValue;
      this.isActiveTool, this.isVisible := isActiveTool, isVisible;
      property := propertyValue;
      values := propertyValue;
      notifications := 0;
    }

    /** Pull the property value into the widget. */
    method UpdateStatus()
      modifies this`values
      ensures values == property
    {
      values := property;
    }

    /** The widget was edited: push its values into the property. */
    method OnValuesChanged()
      modifies this`property, this`notifications
      ensures property == values && notifications == old(notifications) + 1
    {
      property := values;
      notifications := notifications + 1;
    }

    /** The shortcut that raises the max end, capped at the range maximum. */
    method IncreaseMaxValue()
      modifies this`values, this`property, this`notifications
      ensures !old(StepEnabled()) ==>
        values == old(values) && property == old(property) && notifications == old(notifications)
      ensures old(StepEnabled()) ==>
        values == old(values).(second := IncreaseReal(old(values.second), maxValue)) &&
        property == values && notifications == old(notifications) + 1
      ensures old(Valid()) ==> Valid()
    {
      if !isActiveTool {
        return;
      }
      if !isVisible {
        return;
      }
      var v := values;
      v := v.(second := v.second + 1.0);
      if v.second > maxValue {
        v := v.(second := maxValue);
      }
      values := v;
      property := values;
      notifications := notifications + 1;
    }

    /** The shortcut that lowers the max end; it stops at the min end. */
    method DecreaseMaxValue()
      modifies this`values, this`property, this`notifications
      ensures !old(StepEnabled()) ==>
        values == old(values) && property == old(property) && notifications == old(notifications)
      ensures old(StepEnabled()) ==>
        values == old(values).(second := DecreaseReal(old(values.second), old(values.first))) &&
        property == values && notifications == old(notifications) + 1
      ensures values.first <= values.second || !old(StepEnabled())
      ensures old(Valid()) ==> Valid()
    {
      if !isActiveTool {
        return;
      }
      if !isVisible {
        return;
      }
      var v := values;
      v := v.(second := v.second - 1.0);
      if v.second < v.first {
        v := v.(second := v.first);
      }
      values := v;
      property := values;
      notifications := notifications + 1;
    }

    /** The shortcut that raises the min end; it stops at the max end. */
    method IncreaseMinValue()
      modifies this`values, this`property, this`notifications
      ensures !old(StepEnabled()) ==>
        values == old(values) && property == old(property) && notifications == old(notifications)
      ensures old(StepEnabled()) ==>
        values == old(values).(first := IncreaseReal(old(values.first), old(values.second))) &&
        property == values && notifications == old(notifications) + 1
      ensures values.first <= values.second || !old(StepEnabled())
      ensures old(Valid()) ==> Valid()
    {
      if !isActiveTool {
        return;
      }
      if !isVisible {
        return;
      }
      var v := values;
      v := v.(first := v.first + 1.0);
      if v.first > v.second {
        v := v.(first := v.second);
      }
      values := v;
      property := values;
      notifications := notifications + 1;
    }

    /** The shortcut that lowers the min end; it stops at the range minimum. */
    method DecreaseMinValue()
      modifies this`values, this`property, this`notifications
      ensures !old(StepEnabled()) ==>
        values == old(values) && property == old(property) && notifications == old(notifications)
      ensures old(StepEnabled()) ==>
        values == old(values).(first := DecreaseReal(old(values.first), minValue)) &&
        property == values && notifications == old(notifications) + 1
      ensures old(Valid()) ==> Valid()
    {
      if !isActiveTool {
        return;
      }
      if !isVisible {
        return;
      }
      var v := values;
      v := v.(first := v.first - 1.0);
      if v.first < minValue {
        v := v.(first := minValue);
      }
      values := v;
      property := values;
      notifications := notifications + 1;
    }
  }
}
