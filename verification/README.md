# Tool option controls: step, clamp and selection rules

This project models the integer and selection logic inside the tool options
bar widgets of OpenToonz (`toonz/sources/tnztools/tooloptionscontrols.cpp`).
Each widget is bound to a tool property. It pushes edits into the property and
pulls property changes back into the widget. The keyboard shortcuts step a
slider up or down, or activate a combo entry. The model covers:

- the brush-size sliders. The single-value `ToolOptionIntSlider` and the
  two-ended `ToolOptionIntPairSlider` step by one, skip size 3 (the
  "cross-like shape") in pencil mode and clamp to the range or to the other
  end. Their real-valued twins `ToolOptionSlider` and `ToolOptionPairSlider`
  have the same clamp without the skip. The rules are pure functions in module
  `Stepping`. The widgets are classes in `IntSliders` and `DoubleSliders`
  whose methods mirror the source's step-by-step updates.
- the guard shared by every shortcut. Nothing happens unless this widget's
  tool is the active one and the widget sits in a visible viewer. Both facts
  are boolean fields (`isActiveTool`, `isVisible`). For the sliders
  `isActiveTool` is also true when the widget has no tool handle, as the
  source's test `m_toolHandle && getTool() != m_tool` lets that case through.
  The combo's activation shortcut is different: after the guard it calls the
  tool handle without testing it, so the model gives the combo a
  `hasToolHandle` field and requires it there.
- the enum widgets `ToolOptionCombo` and `ToolOptionPopupButton`
  (`EnumControls`). Both check the index before setting the property. The
  combo has the "Normal" back-and-forth toggle and selects the row of the
  property value.
- `PropertyMenuButton` (`PropertyMenu`). A triggered action writes its check
  state into its boolean property unless the property already holds it.
- `StyleIndexFieldAndChip::onValueChanged` (`StyleIndex`). Any piece of the
  word "current" gives the empty style. Any other text is parsed as an index.
  As written, the index is clamped to the last style only when it is strictly
  greater than the style count. So typing the style count itself passes
  unclamped (see "Findings"). A negative index is never clamped and is stored
  as typed. The model keeps the as-written rule (`StyleForAsWritten`) and
  uses a corrected rule (`StyleFor`, which tests `>=`). The corrected rule
  also stores a negative index as typed. Qt's decimal parsing and formatting
  are modelled in `Decimal`.

`notifyTool()` is modelled as a counter `notifications`, so contracts can say
when the tool is told and when it is not. The combo's calls to the tool
handle are counted the same way (`toolChanges`, `cursorChanges`). Arithmetic
is on unbounded `int` and exact `real`. The source's `int` wraps at the
32-bit bounds; see "Left out".

## Model

| member | source | states |
|---|---|---|
| Stepping.IncreaseInt | toonz/sources/tnztools/tooloptionscontrols.cpp:515-524 | the stepped size never exceeds the maximum; below the maximum it strictly grows; it is the least allowed size above the old one (only the cross size 3 in pencil mode is skipped), unless the maximum caps it |
| Stepping.DecreaseInt | toonz/sources/tnztools/tooloptionscontrols.cpp:543-553 | the stepped size is never below the minimum; above the minimum it strictly shrinks; it is the greatest allowed size below the old one, unless the minimum floors it, so 3 appears in pencil mode only when the minimum is 3 |
| Stepping.DecreaseUndoesIncrease | toonz/sources/tnztools/tooloptionscontrols.cpp:507-560 | for an allowed size inside the range and below the maximum, a decrease undoes an increase |
| Stepping.IncreaseUndoesDecrease | toonz/sources/tnztools/tooloptionscontrols.cpp:507-560 | for an allowed size inside the range and above the minimum, an increase undoes a decrease |
| Stepping.IncreaseTimesReachesMax | toonz/sources/tnztools/tooloptionscontrols.cpp:507-531 | from any size at or below the maximum, max - v presses of increase (or more) end exactly at the maximum |
| Stepping.DecreaseTimesReachesMin | toonz/sources/tnztools/tooloptionscontrols.cpp:535-560 | from any size at or above the minimum, v - min presses of decrease (or more) end exactly at the minimum |
| Stepping.IncreaseTimesAvoidsCross | toonz/sources/tnztools/tooloptionscontrols.cpp:519-524 | in pencil mode, any run of increases from an allowed size never stops on 3 unless the maximum is 3 |
| Stepping.DecreaseTimesAvoidsCross | toonz/sources/tnztools/tooloptionscontrols.cpp:547-553 | in pencil mode, any run of decreases from an allowed size never stops on 3 unless the minimum is 3 |
| Stepping.IncreaseMax | toonz/sources/tnztools/tooloptionscontrols.cpp:393-400 | raising the max end keeps the min end, never exceeds the range maximum, grows below it and skips 3 in pencil mode |
| Stepping.DecreaseMax | toonz/sources/tnztools/tooloptionscontrols.cpp:419-426 | lowering the max end keeps the min end and never goes below it (the range minimum is not consulted), shrinks when above it and skips 3 in pencil mode |
| Stepping.IncreaseMin | toonz/sources/tnztools/tooloptionscontrols.cpp:445-447 | raising the min end keeps the max end and never passes it; below it the min end grows by exactly one |
| Stepping.DecreaseMin | toonz/sources/tnztools/tooloptionscontrols.cpp:466-470 | lowering the min end keeps the max end and never goes below the range minimum; above it the min end shrinks by exactly one |
| Stepping.PairStepsPreserveRange | toonz/sources/tnztools/tooloptionscontrols.cpp:382-476 | each of the four pair steps maps an ordered pair inside the range to an ordered pair inside the range |
| Stepping.IncreaseReal | toonz/sources/tnztools/tooloptionscontrols.cpp:180-186 | the real step up is exactly min(v + 1, maximum): the old value + 1 whenever that is within the maximum, the maximum otherwise; never below an in-range old value |
| Stepping.DecreaseReal | toonz/sources/tnztools/tooloptionscontrols.cpp:205-211 | the real step down is exactly max(v - 1, minimum): the old value - 1 whenever that is within the minimum, the minimum otherwise; never above an in-range old value |
| Stepping.RealStepsInverse | toonz/sources/tnztools/tooloptionscontrols.cpp:172-218 | away from the bounds, real steps up and down undo each other |
| IntSliders.IntSlider.constructor | toonz/sources/tnztools/tooloptionscontrols.cpp:480-492 | the widget takes the property's range and shows the property value, which is in range when the property value is |
| IntSliders.IntSlider.UpdateStatus | toonz/sources/tnztools/tooloptionscontrols.cpp:496-503 | the widget ends showing the property value |
| IntSliders.IntSlider.OnValueChanged | toonz/sources/tnztools/tooloptionscontrols.cpp:564-568 | the property takes the widget value and the tool is notified |
| IntSliders.IntSlider.Increase | toonz/sources/tnztools/tooloptionscontrols.cpp:507-531 | when the guard fails nothing changes; otherwise the widget value becomes IncreaseInt of the old one, the property equals it, the tool is notified once, and an in-range value stays in range |
| IntSliders.IntSlider.Decrease | toonz/sources/tnztools/tooloptionscontrols.cpp:535-560 | when the guard fails nothing changes; otherwise the widget value becomes DecreaseInt of the old one, the property equals it, the tool is notified once, and an in-range value stays in range |
| IntSliders.IntPairSlider.constructor | toonz/sources/tnztools/tooloptionscontrols.cpp:346-359 | the widget takes the property's range and shows the property pair, which is ordered and in range when the property pair is |
| IntSliders.IntPairSlider.UpdateStatus | toonz/sources/tnztools/tooloptionscontrols.cpp:363-367 | the widget ends showing the property pair |
| IntSliders.IntPairSlider.OnValuesChanged | toonz/sources/tnztools/tooloptionscontrols.cpp:371-378 | the property takes the widget pair and the tool is notified |
| IntSliders.IntPairSlider.IncreaseMaxValue | toonz/sources/tnztools/tooloptionscontrols.cpp:382-406 | guard as above; otherwise the pair becomes IncreaseMax of the old one and is written to the property; the min end never changes; an ordered in-range pair stays so |
| IntSliders.IntPairSlider.DecreaseMaxValue | toonz/sources/tnztools/tooloptionscontrols.cpp:410-432 | guard as above; otherwise the pair becomes DecreaseMax of the old one and is written to the property; the min end never changes; an ordered in-range pair stays so |
| IntSliders.IntPairSlider.IncreaseMinValue | toonz/sources/tnztools/tooloptionscontrols.cpp:436-453 | guard as above; otherwise the pair becomes IncreaseMin of the old one and is written to the property; the max end never changes; an ordered in-range pair stays so |
| IntSliders.IntPairSlider.DecreaseMinValue | toonz/sources/tnztools/tooloptionscontrols.cpp:457-476 | guard as above; otherwise the pair becomes DecreaseMin of the old one and is written to the property; the max end never changes; an ordered in-range pair stays so |
| DoubleSliders.DoubleSlider.constructor | toonz/sources/tnztools/tooloptionscontrols.cpp:138-149 | the widget takes the property's range and shows the property value, which is in range when the property value is |
| DoubleSliders.DoubleSlider.UpdateStatus | toonz/sources/tnztools/tooloptionscontrols.cpp:153-160 | the widget ends showing the property value |
| DoubleSliders.DoubleSlider.OnValueChanged | toonz/sources/tnztools/tooloptionscontrols.cpp:164-168 | the property takes the widget value and the tool is notified |
| DoubleSliders.DoubleSlider.Increase | toonz/sources/tnztools/tooloptionscontrols.cpp:172-193 | guard as above; otherwise the value becomes IncreaseReal of the old one, the property equals it and an in-range value stays in range |
| DoubleSliders.DoubleSlider.Decrease | toonz/sources/tnztools/tooloptionscontrols.cpp:197-218 | guard as above; otherwise the value becomes DecreaseReal of the old one, the property equals it and an in-range value stays in range |
| DoubleSliders.DoublePairSlider.constructor | toonz/sources/tnztools/tooloptionscontrols.cpp:222-235 | the widget takes the property's range and shows the property pair, which is ordered and in range when the property pair is |
| DoubleSliders.DoublePairSlider.UpdateStatus | toonz/sources/tnztools/tooloptionscontrols.cpp:239-243 | the widget ends showing the property pair |
| DoubleSliders.DoublePairSlider.OnValuesChanged | toonz/sources/tnztools/tooloptionscontrols.cpp:247-254 | the property takes the widget pair and the tool is notified |
| DoubleSliders.DoublePairSlider.IncreaseMaxValue | toonz/sources/tnztools/tooloptionscontrols.cpp:258-277 | guard as above; otherwise only the max end moves, by IncreaseReal against the range maximum; an ordered in-range pair stays so |
| DoubleSliders.DoublePairSlider.DecreaseMaxValue | toonz/sources/tnztools/tooloptionscontrols.cpp:281-298 | guard as above; otherwise only the max end moves, by DecreaseReal floored at the min end, which it never passes |
| DoubleSliders.DoublePairSlider.IncreaseMinValue | toonz/sources/tnztools/tooloptionscontrols.cpp:302-319 | guard as above; otherwise only the min end moves, by IncreaseReal capped at the max end, which it never passes |
| DoubleSliders.DoublePairSlider.DecreaseMinValue | toonz/sources/tnztools/tooloptionscontrols.cpp:323-342 | guard as above; otherwise only the min end moves, by DecreaseReal against the range minimum; an ordered in-range pair stays so |
| EnumControls.FindText | toonz/sources/tnztools/tooloptionscontrols.cpp:604 | the index found is -1 exactly when the text is not an entry; otherwise it holds the text and no earlier entry does |
| EnumControls.FindTextDistinct | toonz/sources/tnztools/tooloptionscontrols.cpp:601-607 | with no repeated entries, each entry is found at its own index |
| EnumControls.Combo.constructor | toonz/sources/tnztools/tooloptionscontrols.cpp:572-597 | the combo lists exactly the property's range and selects the property value's first row, or row 0 (or none) when the value is not listed |
| EnumControls.Combo.UpdateStatus | toonz/sources/tnztools/tooloptionscontrols.cpp:601-607 | when the property value is listed, the selected row shows it (its first row); otherwise the selection is unchanged |
| EnumControls.Combo.OnActivated | toonz/sources/tnztools/tooloptionscontrols.cpp:611-620 | an index outside the range changes nothing; an index inside sets the property to that range entry and notifies the tool |
| EnumControls.Combo.DoOnActivated | toonz/sources/tnztools/tooloptionscontrols.cpp:632-661 | needs a tool handle, which the source calls without a test; guard as above; with "Normal" first, activating the selected row selects row 0 and its entry; any other activation selects the given row (or none when out of range) and sets the property as OnActivated does; the handle is told "cursor changed" on a "Normal" combo and "tool changed" otherwise |
| EnumControls.ToggleTwice | toonz/sources/tnztools/tooloptionscontrols.cpp:649-657 | on a "Normal" combo, activating a non-first row twice ends on row 0 with the property "Normal", after two property notifications and two cursor notifications |
| EnumControls.ToggleBackAndForth | toonz/sources/tnztools/tooloptionscontrols.cpp:649-657 | a third activation of the same row selects that row and its entry again, so the presses alternate between that row and row 0 |
| EnumControls.PopupButton.PropertyIndex | toonz/sources/tnztools/tooloptionscontrols.cpp:686 | the property's index is -1 or a range position holding the property value |
| EnumControls.PopupButton.constructor | toonz/sources/tnztools/tooloptionscontrols.cpp:665-680 | shows icon 0, then the property's icon when it has one |
| EnumControls.PopupButton.UpdateStatus | toonz/sources/tnztools/tooloptionscontrols.cpp:684-689 | a non-negative property index becomes the shown icon; a negative one changes nothing |
| EnumControls.PopupButton.OnActivated | toonz/sources/tnztools/tooloptionscontrols.cpp:693-702 | an index outside the range changes nothing; an index inside sets the property to that range entry and notifies the tool |
| EnumControls.PopupButton.DoOnActivated | toonz/sources/tnztools/tooloptionscontrols.cpp:722-726 | activation works only while visible, with OnActivated's range check |
| EnumControls.PopupButton.DoSetCurrentIndex | toonz/sources/tnztools/tooloptionscontrols.cpp:714-718 | the shown icon changes only while visible |
| EnumControls.ActivateThenSync | toonz/sources/tnztools/tooloptionscontrols.cpp:684-702 | choosing an icon and syncing back from the property shows that icon, when the range has no repeats |
| PropertyMenu.PropertyMenuButton.constructor | toonz/sources/tnztools/tooloptionscontrols.cpp:1310-1342 | one action per property, checked as its property is |
| PropertyMenu.PropertyMenuButton.UpdateStatus | toonz/sources/tnztools/tooloptionscontrols.cpp:1346-1361 | afterwards every action's check state equals its property |
| PropertyMenu.PropertyMenuButton.OnActionTriggered | toonz/sources/tnztools/tooloptionscontrols.cpp:1365-1376 | when the check state already equals the property nothing changes and no one is notified; otherwise only that property changes, the tool is notified once and its name is emitted; either way the two agree afterwards |
| PropertyMenu.PropertyMenuButton.ToggleAction | toonz/sources/tnztools/tooloptionscontrols.cpp:1365-1376 | a user toggle flips one action and carries the new state into its property |
| Decimal.ToInt | toonz/sources/tnztools/tooloptionscontrols.cpp:796 | the parsed index is a 32-bit integer, and 0 for text that is not an optionally signed decimal number |
| Decimal.ToIntOfIntToString | toonz/sources/tnztools/tooloptionscontrols.cpp:796-800 | parsing the text of any 32-bit number gives the number back |
| StyleIndex.Contains | toonz/sources/tnztools/tooloptionscontrols.cpp:795 | true exactly when the typed text occurs as a contiguous piece of the word |
| StyleIndex.AsWrittenAdmitsStyleCount | toonz/sources/tnztools/tooloptionscontrols.cpp:799 | as written, typing the style count itself is stored unclamped, for every count |
| StyleIndex.AsWrittenFiveOfFive | toonz/sources/tnztools/tooloptionscontrols.cpp:799 | as written, with five styles the text "5" is stored as is |
| StyleIndex.AsWrittenBound | toonz/sources/tnztools/tooloptionscontrols.cpp:795-802 | as written, the stored index is at most the style count |
| StyleIndex.StyleForBound | toonz/sources/tnztools/tooloptionscontrols.cpp:791-804 | with the corrected clamp, the style is empty exactly for a piece of "current"; otherwise it names an index below the style count: an index below the count is kept as typed, and any other becomes exactly styleCount - 1 |
| StyleIndex.StyleIndexField.constructor | toonz/sources/tnztools/tooloptionscontrols.cpp:764-776 | the line edit shows the property value |
| StyleIndex.StyleIndexField.UpdateStatus | toonz/sources/tnztools/tooloptionscontrols.cpp:780-787 | the line edit ends showing the property value |
| StyleIndex.StyleIndexField.OnValueChanged | toonz/sources/tnztools/tooloptionscontrols.cpp:791-809 | the property becomes the corrected style for the typed text; the tool handle, if any, is notified |
| StyleIndex.StyleIndexField.EditText | toonz/sources/tnztools/tooloptionscontrols.cpp:791-809 | after an edit the text is the typed one, and a non-empty stored style names an index below the style count |

## Findings

| source | as written | input that shows it | evidently intended | confidence | as-written member | corrected member |
|---|---|---|---|---|---|---|
| toonz/sources/tnztools/tooloptionscontrols.cpp:799 | `index > indexCount` clamps only indices strictly greater than the style count | a palette of 5 styles (indices 0 to 4) and the typed text "5": the property stores "5", a style that does not exist | `index >= indexCount`, so every index past the last style becomes `indexCount - 1`, the value the clamp writes | medium, not executed | StyleIndex.AsWrittenAdmitsStyleCount | StyleIndex.StyleForBound |

`StyleIndex.StyleForAsWritten` is the rule as written. `StyleIndex.StyleFor`
is the corrected rule, and `StyleIndex.StyleIndexField.OnValueChanged` uses it.

## Left out

- Qt widget construction, painting, `repaint`, signal/slot wiring and the
  "tool changed" notifications sent to the tool handle by the sliders. These
  are toolkit plumbing. The combo's and the style field's tool-handle
  notifications are kept as counters.
- `isInVisibleViewer` walks the widget tree with `dynamic_cast`. It is the
  boolean field `isVisible`.
- Qt behaviour that the source relies on but does not show is modelled from
  Qt's documented behaviour. `QComboBox::setCurrentIndex` with a row that does
  not exist leaves no selection (-1). `itemText` of a missing row is empty.
  `findText` returns the first exact match. `QString::contains` is case
  sensitive. `QString::toInt` skips surrounding white space (only the ASCII
  white space characters are modelled), accepts one sign and returns 0 on
  failure or 32-bit overflow. `DVGui::PopupButton::setCurrentIndex` is not
  part of this model; its index is stored as given.
- The property system is not part of this model. A property is its value. Range
  checks or exceptions inside `setValue` are not modelled. The enum
  property's index is taken as the position of its value in its range.
- The field widgets' own `setValue` may round or clamp; that is not part of
  this model. The widget holds what the step method writes.
- Stepping.IncreaseInt, Stepping.DecreaseInt, IntSliders.IntSlider.Increase,
  IntSliders.IntSlider.Decrease and the four IntSliders.IntPairSlider steps:
  do not model 32-bit wrap-around. The source adds or subtracts one before it
  clamps (lines 393, 419, 518 and 546). At a value of INT_MAX (with the
  maximum at INT_MAX) or INT_MIN (with the minimum at INT_MIN), that step
  overflows a C++ `int`. The model's unbounded step clamps instead.
- EnumControls.Combo.DoOnActivated: requires a tool handle. The source calls
  `notifyToolChanged` (line 645) and `notifyToolCursorTypeChanged` (line 660)
  through the handle without a null test, although the constructor accepts
  no handle (lines 572-582). A combo without a handle that passes the guard
  would dereference a null pointer. The model does not describe that case.
- Stepping.IncreaseReal, Stepping.DecreaseReal: use exact `real` arithmetic.
  The double sliders' floating-point rounding and decimal display are not
  modelled.
- StyleIndex.StyleIndexField.UpdateStatus: does not model the `textChanged`
  signal that `setText` raises, which re-enters `onValueChanged`.
- Other widgets in the same file are outside the modelled core:
  `ToolOptionCheckbox`, `ToolOptionTextField`, `ToolOptionParamRelayField`
  (keyframes and undo), `MeasuredValueField` (measured-value parsing and its
  floating-point error-highlight fade), the pegbar channel, centre and
  no-scale fields, and the selection scale, rotation, move and thickness
  fields. The last group is floating-point geometry and undo calls into
  subsystems defined elsewhere.
