/**
  The growing text view: its height-growth controller (`updateSize`,
  `roundHeight`, `minimumHeight`), the placeholder rule and the delegate
  forwarding (SIGrowingTextView/GrowingTextView.swift). Text measurement is
  the host's: it enters as a function from a font to the bounding height of
  the current text at the view's width.
*/
module TextView {
  import opened Options

  // ---------------------------------------------------------------------
  // Geometry
  // ---------------------------------------------------------------------

  datatype Insets = Insets(top: real, left: real, bottom: real, right: real)

  /** The text container inset `commonInit` installs. */
  const DefaultInset: Insets := Insets(8.0, 6.0, 8.0, 6.0)

  datatype Font = Font(pointSize: real, lineHeight: real)

  /** The point size of the system font used when no font is set. */
  const FallbackPointSize: real := 14.0

  function VerticalInset(inset: Insets): real {
    inset.top + inset.bottom
  }

  /** `c` is the least integer not below `x`. */
  ghost predicate IsCeil(c: real, x: real) {
    c == c.Floor as real && c - 1.0 < x <= c
  }

  /** `ceil` on CGFloat, over the reals. */
  function Ceil(x: real): (c: int)
    ensures IsCeil(c as real, x)
  {
    -((-x).Floor)
  }

  /** Rounding up keeps the order of its arguments. */
  lemma CeilMonotone(x: real, y: real)
    requires x <= y
    ensures Ceil(x) <= Ceil(y)
  {
  }

  /** `minimumHeight`: one rounded-up line plus the vertical insets. */
  function MinimumHeightFor(lineHeight: real, inset: Insets): (h: real)
    ensures IsCeil(h - VerticalInset(inset), lineHeight)
  {
    Ceil(lineHeight) as real + inset.top + inset.bottom
  }

  /**
    `roundHeight`: the measured height of the text, rounded up, plus the
    vertical insets; with no font nothing is measured and only the insets
    count. Since a measured height is never negative, the result is never
    below the insets.
  */
  function RoundHeight(font: Option<Font>, measure: Font -> real, inset: Insets): (h: real)
    ensures font.None? ==> h == VerticalInset(inset)
    ensures font.Some? ==> IsCeil(h - VerticalInset(inset), measure(font.value))
    ensures (font.Some? ==> measure(font.value) >= 0.0) ==> h >= VerticalInset(inset)
  {
    var newHeight: real := if font.Some? then Ceil(measure(font.value)) as real else 0.0;
    newHeight + inset.top + inset.bottom
  }

  lemma RoundHeightMonotone(font: Font, m1: Font -> real, m2: Font -> real, inset: Insets)
    requires m1(font) <= m2(font)
    ensures RoundHeight(Some(font), m1, inset) <= RoundHeight(Some(font), m2, inset)
  {
    CeilMonotone(m1(font), m2(font));
  }

  // ---------------------------------------------------------------------
  // Height cap and the growth decision
  // ---------------------------------------------------------------------

  /** The cap on the expected height; `Unbounded` stands for `CGFloat.max`. */
  datatype Cap = Unbounded | Capped(height: real)

  /**
    The `maxHeight` of `updateSize`: `maxLines` rounded-up lines plus the
    vertical insets, that is `maxLines` times the text part of the minimum
    height; no cap when the line count is not positive or no font is set.
  */
  function HeightCap(maxLines: int, font: Option<Font>, inset: Insets): (cap: Cap)
    ensures cap.Capped? <==> maxLines > 0 && font.Some?
    ensures cap.Capped? ==>
      cap.height - VerticalInset(inset)
        == maxLines as real * (MinimumHeightFor(font.value.lineHeight, inset) - VerticalInset(inset))
  {
    if maxLines > 0 && font.Some? then
      Capped(Ceil(font.value.lineHeight) as real * maxLines as real + inset.top + inset.bottom)
    else
      Unbounded
  }

  /** A cap of at least one line is never below the minimum height. */
  lemma {:induction false} CapAtLeastMinimum(maxLines: int, font: Font, inset: Insets)
    requires maxLines > 0 && font.lineHeight >= 0.0
    ensures HeightCap(maxLines, Some(font), inset).height >= MinimumHeightFor(font.lineHeight, inset)
  {
    var line := Ceil(font.lineHeight) as real;
    assert line >= 0.0;
    assert maxLines as real * line >= line by {
      assert (maxLines as real - 1.0) * line >= 0.0;
    }
  }

  /** What `updateSize` decides: the expected height and whether the view scrolls. */
  datatype Growth = Growth(height: real, scrolling: bool)

  /**
    The decision of `updateSize`: the expected height is the smaller of the
    rounded height and the cap, and the view scrolls exactly when the
    rounded height reaches the cap (reaching it exactly counts).
  */
  function Decide(rounded: real, cap: Cap): (g: Growth)
    ensures g.scrolling <==> cap.Capped? && rounded >= cap.height
    ensures g.height <= rounded && (cap.Capped? ==> g.height <= cap.height)
    ensures g.height == rounded || (cap.Capped? && g.height == cap.height)
  {
    match cap
    case Unbounded => Growth(rounded, false)
    case Capped(maxHeight) =>
      if rounded >= maxHeight then Growth(maxHeight, true) else Growth(rounded, false)
  }

  /** A taller text never gives a smaller expected height, nor stops the scrolling. */
  lemma DecideMonotone(r1: real, r2: real, cap: Cap)
    requires r1 <= r2
    ensures Decide(r1, cap).height <= Decide(r2, cap).height
    ensures Decide(r1, cap).scrolling ==> Decide(r2, cap).scrolling
  {
  }

  /** Deciding again on the expected height changes nothing. */
  lemma DecideIdempotent(rounded: real, cap: Cap)
    ensures Decide(Decide(rounded, cap).height, cap) == Decide(rounded, cap)
  {
  }

  // ---------------------------------------------------------------------
  // Placeholder and delegate forwarding
  // ---------------------------------------------------------------------

  /**
    `shouldHidePlaceholder`: the placeholder is hidden when it is the empty
    string or when there is text; a missing placeholder over empty text is
    not hidden.
  */
  function ShouldHidePlaceholder(placeholder: Option<string>, text: string): (hidden: bool)
    ensures text != "" ==> hidden
    ensures placeholder.None? ==> hidden == (text != "")
    ensures !hidden <==> text == "" && placeholder != Some("")
  {
    (placeholder.Some? && |placeholder.value| == 0) || |text| > 0
  }

  /** The yes/no questions the view asks its delegate. */
  datatype Query = ShouldBeginEditing | ShouldEndEditing | ShouldInteractWithURL
                 | ShouldInteractWithAttachment | ShouldReturn

  /** The notifications the view passes on to its delegate. */
  datatype Notice = DidBeginEditing | DidEndEditing | DidChange | DidChangeSelection

  /**
    The `GrowingTextViewDelegate`: each optional method it implements.
    A question is answered when its key is present; `observesHeight` says
    whether it implements `textViewHeightChanged`.
  */
  datatype Delegate = Delegate(answers: map<Query, bool>, listens: set<Notice>, observesHeight: bool)

  /** A call the view made on its delegate. */
  datatype DelegateCall = Noticed(notice: Notice) | HeightChanged(newHeight: real)

  /**
    The `should…` forwards (begin and end editing, URL, attachment): the
    delegate's answer, or yes when there is no delegate or it does not
    implement the question.
  */
  function ShouldAllow(d: Option<Delegate>, q: Query): (allow: bool)
    ensures !allow <==> d.Some? && q in d.value.answers && !d.value.answers[q]
  {
    if d.Some? && q in d.value.answers then d.value.answers[q] else true
  }

  /**
    `textView(_:shouldChangeTextInRange:replacementText:)`: every change is
    accepted except a replacement that is exactly a newline when the
    delegate answers `textViewShouldReturn` with no.
  */
  function ShouldChangeText(d: Option<Delegate>, replacement: string): (allow: bool)
    ensures !allow <==> replacement == "\n" && !ShouldAllow(d, ShouldReturn)
    ensures replacement != "\n" ==> allow
  {
    if replacement == "\n" then ShouldAllow(d, ShouldReturn) else true
  }

  /** The calls a notice produces: one, if the delegate listens, otherwise none. */
  function NoticeCalls(d: Option<Delegate>, n: Notice): (calls: seq<DelegateCall>)
    ensures |calls| <= 1
    ensures calls == [Noticed(n)] <==> d.Some? && n in d.value.listens
  {
    if d.Some? && n in d.value.listens then [Noticed(n)] else []
  }

  // ---------------------------------------------------------------------
  // The view
  // ---------------------------------------------------------------------

  class GrowingTextView {
    var maxNumberOfLines: int
    var font: Option<Font>
    var inset: Insets
    var placeholder: Option<string>
    var text: string
    var expectedHeight: real
    var scrollEnabled: bool
    var placeholderHidden: bool
    var delegate: Option<Delegate>
    /** Every call made on the delegate so far, in order. */
    var calls: seq<DelegateCall>
    /** The 14-point system font, whose line height is the host's metric. */
    const fallbackFont: Font

    /** `init(frame:textContainer:)` followed by `commonInit`. */
    constructor (initialFont: Option<Font>, systemLineHeight: real)
      ensures fallbackFont == Font(FallbackPointSize, systemLineHeight)
      ensures font == initialFont && inset == DefaultInset
      ensures maxNumberOfLines == 0 && !scrollEnabled && expectedHeight == 0.0
      ensures placeholder.None? && text == [] && placeholderHidden
      ensures delegate.None? && calls == []
    {
      fallbackFont := Font(FallbackPointSize, systemLineHeight);
      font := initialFont;
      inset := DefaultInset;
      maxNumberOfLines := 0;
      scrollEnabled := false;
      expectedHeight := 0.0;
      placeholder := None;
      text := [];
      placeholderHidden := true;
      delegate := None;
      calls := [];
    }

    /** `minimumHeight`: installs the fallback font if none is set, then measures one line. */
    method MinimumHeight() returns (h: real)
      modifies this`font
      ensures font == if old(font).Some? then old(font) else Some(fallbackFont)
      ensures h == MinimumHeightFor(font.value.lineHeight, inset)
    {
      font := if font.Some? then font else Some(fallbackFont);
      h := Ceil(font.value.lineHeight) as real + inset.top + inset.bottom;
    }

    /**
      `updateSize`: with a positive line cap, installs the fallback font if
      none is set; clamps the rounded height to the cap, sets the expected
      height and the scrolling mode, and reports the new height to the
      delegate once per call, repeats included.
    */
    method UpdateSize(measure: Font -> real)
      modifies this`font, this`expectedHeight, this`scrollEnabled, this`calls
      ensures font == if maxNumberOfLines > 0 && old(font).None? then Some(fallbackFont) else old(font)
      ensures var g := Decide(RoundHeight(font, measure, inset), HeightCap(maxNumberOfLines, font, inset));
        expectedHeight == g.height && scrollEnabled == g.scrolling
      ensures calls == old(calls) +
        if delegate.Some? && delegate.value.observesHeight then [HeightChanged(expectedHeight)] else []
    {
      var maxHeight := Unbounded;
      if maxNumberOfLines > 0 {
        font := if font.Some? then font else Some(fallbackFont);
        maxHeight := Capped(Ceil(font.value.lineHeight) as real * maxNumberOfLines as real
                            + inset.top + inset.bottom);
      }
      var roundedHeight := RoundHeight(font, measure, inset);
      if maxHeight.Capped? && roundedHeight >= maxHeight.height {
        expectedHeight := maxHeight.height;
        scrollEnabled := true;
      } else {
        expectedHeight := roundedHeight;
        scrollEnabled := false;
      }
      if delegate.Some? && delegate.value.observesHeight {
        calls := calls + [HeightChanged(expectedHeight)];
      }
    }

    /** `layoutSubviews`, as far as the placeholder's visibility goes. */
    method LayoutSubviews()
      modifies this`placeholderHidden
      ensures placeholderHidden == ShouldHidePlaceholder(placeholder, text)
    {
      placeholderHidden := ShouldHidePlaceholder(placeholder, text);
    }

    /**
      `textViewDidChange`: resize, update the placeholder, then tell the
      delegate, after the height report.
    */
    method TextViewDidChange(measure: Font -> real)
      modifies this`font, this`expectedHeight, this`scrollEnabled, this`calls, this`placeholderHidden
      ensures font == if maxNumberOfLines > 0 && old(font).None? then Some(fallbackFont) else old(font)
      ensures var g := Decide(RoundHeight(font, measure, inset), HeightCap(maxNumberOfLines, font, inset));
        expectedHeight == g.height && scrollEnabled == g.scrolling
      ensures placeholderHidden == ShouldHidePlaceholder(placeholder, text)
      ensures calls == old(calls)
        + (if delegate.Some? && delegate.value.observesHeight then [HeightChanged(expectedHeight)] else [])
        + NoticeCalls(delegate, DidChange)
    {
      UpdateSize(measure);
      placeholderHidden := ShouldHidePlaceholder(placeholder, text);
      Notify(DidChange);
    }

    /**
      The plain forwards `textViewDidBeginEditing`, `textViewDidEndEditing`
      and `textViewDidChangeSelection`, and the last step of
      `textViewDidChange`.
    */
    method Notify(n: Notice)
      modifies this`calls
      ensures calls == old(calls) + NoticeCalls(delegate, n)
    {
      if delegate.Some? && n in delegate.value.listens {
        calls := calls + [Noticed(n)];
      }
    }
  }

  /** The worked example: four 20-point lines under 8-point insets cap the height at 96. */
  lemma CapScenario(measure: Font -> real)
    requires measure(Font(17.0, 20.0)) == 120.0
    ensures HeightCap(4, Some(Font(17.0, 20.0)), DefaultInset) == Capped(96.0)
    ensures Decide(RoundHeight(Some(Font(17.0, 20.0)), measure, DefaultInset), Capped(96.0)) == Growth(96.0, true)
  {
  }
}
