/**
  The bar that hosts a growing text view between two accessory slots: the
  bar height it derives from the text view's height, and the accessory
  width constants it derives from the hidden flags
  (SIGrowingTextView/GrowingTextBar.swift). The layout constraints the bar
  holds are an array of records; the ones the bar itself creates are the
  left and right width constraints at indices 0 and 1.
*/
module TextBar {
  import opened Options
  import opened TextView

  /** `defaultHeight`: the bar's height with one line of text. */
  const DefaultHeight: real := 44.0

  /** The width of a shown accessory slot. */
  const AccessoryWidth: real := 40.0

  datatype Item = Bar | TextViewItem | LeftView | RightView | OtherItem(id: nat)

  datatype Attribute = Width | Height | Top | Bottom | Leading | Trailing | OtherAttribute

  /** The parts of an `NSLayoutConstraint` the bar reads or writes. */
  datatype LayoutConstraint = LayoutConstraint(firstItem: Item, firstAttribute: Attribute, constant: real)

  const LeftWidthIndex: nat := 0
  const RightWidthIndex: nat := 1

  /** The constraints `textViewHeightChanged` rewrites: heights whose first item is the bar. */
  predicate SizesBar(c: LayoutConstraint) {
    c.firstAttribute == Height && c.firstItem == Bar
  }

  /** The width constant of an accessory slot: 0 when hidden, 40 when shown. */
  function WidthConstant(hidden: bool): (w: real)
    ensures w == 0.0 <==> hidden
    ensures w == 0.0 || w == AccessoryWidth
  {
    if hidden then 0.0 else AccessoryWidth
  }

  /**
    The height `textViewHeightChanged` writes: the text view's height plus
    the padding the bar adds around one line, but never below the default.
  */
  function BarHeight(minimumHeight: real, newHeight: real): (h: real)
    ensures h >= DefaultHeight && h >= (DefaultHeight - minimumHeight) + newHeight
    ensures h == DefaultHeight || h == (DefaultHeight - minimumHeight) + newHeight
  {
    var height := (DefaultHeight - minimumHeight) + newHeight;
    if height < DefaultHeight then DefaultHeight else height
  }

  /** A one-line text view gives the default bar height. */
  lemma BarHeightAtMinimum(minimumHeight: real)
    ensures BarHeight(minimumHeight, minimumHeight) == DefaultHeight
  {
  }

  /** The bar height never decreases as the text view grows. */
  lemma BarHeightMonotone(minimumHeight: real, h1: real, h2: real)
    requires h1 <= h2
    ensures BarHeight(minimumHeight, h1) <= BarHeight(minimumHeight, h2)
  {
  }

  /**
    With a line cap of `maxLines`, the bar grows by at most `maxLines - 1`
    rounded-up lines above its default height, whatever the text measures.
  */
  lemma BarHeightWithinCap(maxLines: int, font: Font, measure: Font -> real, inset: Insets)
    requires maxLines > 0 && font.lineHeight >= 0.0
    ensures var g := Decide(RoundHeight(Some(font), measure, inset), HeightCap(maxLines, Some(font), inset));
      BarHeight(MinimumHeightFor(font.lineHeight, inset), g.height)
        <= DefaultHeight + (maxLines - 1) as real * Ceil(font.lineHeight) as real
  {
  }

  /** The delegate slots the bar fills for its text view. */
  const BarDelegate: Delegate := Delegate(map[], {DidChange}, true)

  class GrowingTextBar {
    const textView: GrowingTextView
    /** The bar's `constraints`; `leftViewWidthConstraint` and `rightViewWidthConstraint` come first. */
    const constraints: array<LayoutConstraint>
    var leftViewHidden: bool
    var rightViewHidden: bool

    ghost predicate Valid()
      reads this, constraints, textView
    {
      && textView.delegate == Some(BarDelegate)
      && constraints.Length >= 2
      && constraints[LeftWidthIndex].firstItem == LeftView
      && constraints[LeftWidthIndex].firstAttribute == Width
      && constraints[RightWidthIndex].firstItem == RightView
      && constraints[RightWidthIndex].firstAttribute == Width
      && constraints[RightWidthIndex].constant == WidthConstant(rightViewHidden)
      && (constraints[LeftWidthIndex].constant == 0.0 || constraints[LeftWidthIndex].constant == AccessoryWidth)
    }

    /**
      `init` with `configureViews` and `updateAutolayout`. `installed` are
      the constraints laid on the bar after its own two width constraints
      (from the visual formats and from the embedding layout).
    */
    constructor (initialFont: Option<Font>, systemLineHeight: real, installed: seq<LayoutConstraint>)
      ensures Valid() && fresh(textView) && fresh(constraints)
      ensures constraints[..] ==
        [LayoutConstraint(LeftView, Width, AccessoryWidth), LayoutConstraint(RightView, Width, 0.0)] + installed
      ensures !leftViewHidden && rightViewHidden
      ensures textView.delegate == Some(BarDelegate) && textView.calls == []
      ensures textView.placeholder == Some("This is GrowingTextView")
      ensures textView.maxNumberOfLines == 4
      ensures textView.font == initialFont && textView.inset == DefaultInset
      ensures textView.text == [] && textView.expectedHeight == 0.0 && !textView.scrollEnabled
      ensures textView.placeholderHidden && rightViewHidden == (textView.text == "")
      ensures textView.fallbackFont == Font(FallbackPointSize, systemLineHeight)
    {
      var tv := new GrowingTextView(initialFont, systemLineHeight);
      tv.delegate := Some(BarDelegate);
      tv.placeholder := Some("This is GrowingTextView");
      tv.maxNumberOfLines := 4;
      textView := tv;
      var own := [LayoutConstraint(LeftView, Width, 40.0), LayoutConstraint(RightView, Width, 0.0)];
      constraints := new LayoutConstraint[2 + |installed|](i requires 0 <= i < 2 + |installed| =>
        if i < 2 then own[i] else installed[i - 2]);
      leftViewHidden := false;
      rightViewHidden := true;
      new;
      assert constraints[..] == own + installed;
    }

    /** The `didSet` of `rightViewHidden`: the right slot's width follows the flag. */
    method SetRightViewHidden(hidden: bool)
      requires Valid()
      modifies this`rightViewHidden, constraints
      ensures Valid() && rightViewHidden == hidden
      ensures constraints[..] == old(constraints[..])[RightWidthIndex :=
        old(constraints[RightWidthIndex]).(constant := WidthConstant(hidden))]
    {
      rightViewHidden := hidden;
      constraints[RightWidthIndex] := constraints[RightWidthIndex].(constant := if rightViewHidden then 0.0 else 40.0);
    }

    /**
      The `didSet` of `leftViewHidden`. As written, the left slot's width
      follows `rightViewHidden`, not the flag just set.
    */
    method SetLeftViewHidden(hidden: bool)
      requires Valid()
      modifies this`leftViewHidden, constraints
      ensures Valid() && leftViewHidden == hidden
      ensures constraints[..] == old(constraints[..])[LeftWidthIndex :=
        old(constraints[LeftWidthIndex]).(constant := WidthConstant(rightViewHidden))]
    {
      leftViewHidden := hidden;
      constraints[LeftWidthIndex] := constraints[LeftWidthIndex].(constant := if rightViewHidden then 0.0 else 40.0);
    }

    /**
      `textViewHeightChanged`: asks the text view for its minimum height
      (which may install its fallback font) and writes the bar height into
      every height constraint of the bar; every other constraint keeps its
      constant.
    */
    method TextViewHeightChanged(tv: GrowingTextView, newHeight: real)
      requires Valid()
      modifies constraints, tv`font
      ensures Valid()
      ensures tv.font == if old(tv.font).Some? then old(tv.font) else Some(tv.fallbackFont)
      ensures forall i :: 0 <= i < constraints.Length ==>
        constraints[i] ==
          if SizesBar(old(constraints[i]))
          then old(constraints[i]).(constant := BarHeight(MinimumHeightFor(tv.font.value.lineHeight, tv.inset), newHeight))
          else old(constraints[i])
    {
      var minimumHeight := tv.MinimumHeight();
      var height := BarHeight(minimumHeight, newHeight);
      for i := 0 to constraints.Length
        modifies constraints
        invariant forall k :: 0 <= k < i ==>
          constraints[k] == if SizesBar(old(constraints[k])) then old(constraints[k]).(constant := height) else old(constraints[k])
        invariant forall k :: i <= k < constraints.Length ==> constraints[k] == old(constraints[k])
      {
        if constraints[i].firstAttribute == Height && constraints[i].firstItem == Bar {
          constraints[i] := constraints[i].(constant := height);
        }
      }
    }

    /** `textViewDidChange`: the right accessory is hidden exactly when the text is empty. */
    method TextViewDidChange(tv: GrowingTextView)
      requires Valid()
      modifies this`rightViewHidden, constraints
      ensures Valid() && rightViewHidden == (tv.text == "")
      ensures constraints[..] == old(constraints[..])[RightWidthIndex :=
        old(constraints[RightWidthIndex]).(constant := WidthConstant(tv.text == ""))]
    {
      SetRightViewHidden(|tv.text| == 0);
    }

    /**
      One text edit, end to end: the text view resizes and reports to the
      bar, which rewrites its height constraints and then shows or hides
      the right accessory.
    */
    method TextEdited(measure: Font -> real)
      requires Valid()
      modifies this`rightViewHidden, constraints
      modifies textView`font, textView`expectedHeight, textView`scrollEnabled, textView`calls,
        textView`placeholderHidden
      ensures Valid() && rightViewHidden == (textView.text == "")
      // the bar's `minimumHeight` query installs the fallback font in any case,
      // after the text view has measured with the font `updateSize` left
      ensures textView.font == if old(textView.font).Some? then old(textView.font) else Some(textView.fallbackFont)
      ensures var measured := if textView.maxNumberOfLines > 0 && old(textView.font).None?
          then Some(textView.fallbackFont) else old(textView.font);
        var g := Decide(RoundHeight(measured, measure, textView.inset),
                        HeightCap(textView.maxNumberOfLines, measured, textView.inset));
        textView.expectedHeight == g.height && textView.scrollEnabled == g.scrolling
      ensures textView.placeholderHidden == ShouldHidePlaceholder(textView.placeholder, textView.text)
      ensures textView.calls == old(textView.calls) + [HeightChanged(textView.expectedHeight), Noticed(DidChange)]
      ensures forall i :: 0 <= i < constraints.Length && SizesBar(old(constraints[i])) ==>
        constraints[i] == old(constraints[i]).(constant :=
          BarHeight(MinimumHeightFor(textView.font.value.lineHeight, textView.inset), textView.expectedHeight))
      ensures forall i :: 0 <= i < constraints.Length && i != RightWidthIndex && !SizesBar(old(constraints[i])) ==>
        constraints[i] == old(constraints[i])
    {
      textView.TextViewDidChange(measure);
      TextViewHeightChanged(textView, textView.expectedHeight);
      TextViewDidChange(textView);
    }
  }
}
