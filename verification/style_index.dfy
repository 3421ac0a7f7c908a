/** The style index field with its colour chip: the user types a palette
    style index (or a prefix/part of the word "current"), and the field stores
    the resulting style text in its string property. */
module StyleIndex {
  import opened Decimal

  /** The word the field accepts for "use the current style". */
  const CurrentKeyword: string := "current"

  /** `t` occurs in `s` starting at position `i`. */
  predicate OccursAt(s: string, t: string, i: int) {
    0 <= i <= |s| - |t| && s[i..i + |t|] == t
  }

  /** QString::contains (case sensitive): `t` occurs in `s` as a contiguous
      piece; the empty string occurs in every string. */
  function Contains(s: string, t: string): (r: bool)
    ensures r <==> exists i :: OccursAt(s, t, i)
    decreases |s|
  {
    if |t| > |s| then false
    else if s[..|t|] == t then
      assert OccursAt(s, t, 0);
      true
    else
      var rest := Contains(s[1..], t);
      assert rest ==> exists i :: OccursAt(s, t, i) by {
        if rest {
          var j :| OccursAt(s[1..], t, j);
          assert s[1..][j..j + |t|] == s[j + 1..j + 1 + |t|];
          assert OccursAt(s, t, j + 1);
        }
      }
      assert (exists i :: OccursAt(s, t, i)) ==> rest by {
        if exists i :: OccursAt(s, t, i) {
          var i :| OccursAt(s, t, i);
          assert i != 0;
          assert s[1..][i - 1..i - 1 + |t|] == s[i..i + |t|];
          assert OccursAt(s[1..], t, i - 1);
        }
      }
      rest
  }

  /** The first character of a non-empty piece found in `s` is a character of `s`. */
  lemma ContainedFirstChar(s: string, t: string)
    requires Contains(s, t) && |t| > 0
    ensures t[0] in s
  {
    var i :| OccursAt(s, t, i);
    assert s[i] == s[i..i + |t|][0];
  }

  /** The style text the field stores, AS WRITTEN: the clamp only fires when
      the typed index is strictly greater than the style count. */
  function StyleForAsWritten(changedText: string, text: string, styleCount: int): string {
    if Contains(CurrentKeyword, changedText) then ""
    else if ToInt(changedText) > styleCount then IntToString(styleCount - 1)
    else text
  }

  /** The style text the field stores, with the clamp firing for every index
      past the last style (styleCount - 1). */
  function StyleFor(changedText: string, text: string, styleCount: int): string {
    if Contains(CurrentKeyword, changedText) then ""
    else if ToInt(changedText) >= styleCount then IntToString(styleCount - 1)
    else text
  }

  /** A formatted number is never a piece of "current". */
  lemma NumberNotInKeyword(n: int)
    ensures !Contains(CurrentKeyword, IntToString(n))
  {
    var s := IntToString(n);
    if Contains(CurrentKeyword, s) {
      ContainedFirstChar(CurrentKeyword, s);
      assert false;
    }
  }

  /** As written, typing the style count itself (one past the last style) is
      stored unclamped, for every count. */
  lemma AsWrittenAdmitsStyleCount(styleCount: int)
    requires 0 <= styleCount <= IntMax
    ensures ToInt(StyleForAsWritten(IntToString(styleCount), IntToString(styleCount), styleCount)) == styleCount
  {
    NumberNotInKeyword(styleCount);
    ToIntOfIntToString(styleCount);
  }

  /** A concrete case: with five styles (0..4) the text "5" is stored as is. */
  lemma AsWrittenFiveOfFive()
    ensures StyleForAsWritten("5", "5", 5) == "5"
  {
    assert IntToString(5) == "5";
    AsWrittenAdmitsStyleCount(5);
  }

  /** As written, the stored index is at most the style count. */
  lemma AsWrittenBound(t: string, styleCount: int)
    requires 0 <= styleCount <= IntMax
    ensures ToInt(StyleForAsWritten(t, t, styleCount)) <= styleCount
  {
    if !Contains(CurrentKeyword, t) && ToInt(t) > styleCount {
      ToIntOfIntToString(styleCount - 1);
    }
  }

  /** With the corrected clamp (field text equal to the text just typed): the
      style is empty exactly for a piece of "current"; otherwise it names an
      index below the style count: an in-range index is kept as typed, any
      other index becomes the last style, styleCount - 1. */
  lemma StyleForBound(t: string, styleCount: int)
    requires 0 <= styleCount <= IntMax
    ensures StyleFor(t, t, styleCount) == "" <==> Contains(CurrentKeyword, t)
    ensures StyleFor(t, t, styleCount) != "" ==> ToInt(StyleFor(t, t, styleCount)) < styleCount
    ensures !Contains(CurrentKeyword, t) && ToInt(t) < styleCount ==> StyleFor(t, t, styleCount) == t
    ensures !Contains(CurrentKeyword, t) && ToInt(t) >= styleCount ==> ToInt(StyleFor(t, t, styleCount)) == styleCount - 1
  {
    if t == "" {
      assert OccursAt(CurrentKeyword, t, 0);
    }
    if !Contains(CurrentKeyword, t) && ToInt(t) >= styleCount {
      ToIntOfIntToString(styleCount - 1);
    }
  }

  /** The style index line edit bound to a style-index property. */
  class StyleIndexField {
    var text: string          // what the line edit shows
    var property: string      // the value of the bound style-index property
    var styleCount: int       // the style count of the current palette
    var hasToolHandle: bool   // a tool handle was given at construction
    var toolChanges: nat      // "tool changed" notifications sent to the tool handle

    constructor (propertyValue: string, styleCount: int, hasToolHandle: bool)
      ensures property == propertyValue && text == propertyValue
      ensures this.styleCount == styleCount && this.hasToolHandle == hasToolHandle
      ensures toolChanges == 0
    {
      property := propertyValue;
      text := propertyValue;
      this.styleCount := styleCount;
      this.hasToolHandle := hasToolHandle;
      toolChanges := 0;
    }

    /** Pull the property value into the line edit. */
    method UpdateStatus()
      modifies this`text
      ensures text == property
    {
      var newText := property;
      if newText == text {
        return;
      }
      text := newText;
    }

    /** The text changed: store the resulting style in the property. */
    method OnValueChanged(changedText: string)
      modifies this`property, this`toolChanges
      ensures property == StyleFor(changedText, text, styleCount)
      ensures toolChanges == old(toolChanges) + (if hasToolHandle then 1 else 0)
    {
      var style := "";
      if !Contains(CurrentKeyword, changedText) {
        var index := ToInt(changedText);
        var indexCount := styleCount;
        if index >= indexCount {
          style := IntToString(indexCount - 1);
        } else {
          style := text;
        }
      }
      property := style;
      if hasToolHandle {
        toolChanges := toolChanges + 1;
      }
    }

    /** The user edits the text; the change signal runs OnValueChanged with
        the new text. */
    method EditText(newText: string)
      modifies this`text, this`property, this`toolChanges
      ensures text == newText
      ensures property == StyleFor(newText, newText, styleCount)
      ensures 0 <= styleCount <= IntMax && property != "" ==> ToInt(property) < styleCount
      ensures toolChanges == old(toolChanges) + (if hasToolHandle then 1 else 0)
    {
      text := newText;
      OnValueChanged(newText);
      if 0 <= styleCount <= IntMax {
        StyleForBound(newText, styleCount);
      }
    }
  }
}
