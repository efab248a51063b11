# SIGrowingTextView, modelled in Dafny

SIGrowingTextView is an iOS text-input bar. It holds a text view that grows
with its content up to a line cap and then scrolls. Accessory slots sit on
each side of it. The example app adds a keyboard observer that tracks the
on-screen keyboard's lifecycle. This project models the sequential logic of
these three pieces and proves what it promises:

- `Keyboard` (Keyboard.dfy) covers the keyboard observer. It has six event
  kinds and a two-way mapping between kinds and notification names. It has a
  validating decoder from a notification payload to a `KeyboardEvent`, the
  animation `options` bits, and the state table. The `KeyboardObserver`
  class has the `state` and `enabled` fields and the append-only handler
  list. Its `Notified` method updates the state, then delivers the event to
  every handler in registration order, but only while enabled.
- `TextView` (TextView.dfy) covers the growth controller of
  `GrowingTextView`. `minimumHeight` is one rounded-up line plus the
  vertical insets. `roundHeight` is the rounded-up measured height plus the
  insets, or only the insets when no font is set. The height cap is
  `ceil(lineHeight) * maxNumberOfLines` plus the insets, and there is no cap
  when the line count is not positive. `updateSize` clamps the rounded
  height to the cap and sets `expectedHeight` and `scrollEnabled`. It
  reports the new height to the delegate once per call, repeats included.
  The model also covers the placeholder rule, the return-key gate and the
  `should…` forwards. The view passes `textViewShouldReturn` on to the
  delegate. It never consults the delegate's own
  `textView(_:shouldChangeTextInRange:)`, and the model does the same.
- `TextBar` (TextBar.dfy) covers `GrowingTextBar`. Its layout constraints
  are an array of records, and its own left and right width constraints
  come first. `textViewHeightChanged` writes
  `max(44, (44 - minimumHeight) + newHeight)` into every height constraint
  whose first item is the bar. It leaves every other constraint alone. The
  hidden-flag observers are explicit setter methods that write 0 or 40. As
  written, the left slot's setter reads `rightViewHidden`, and the model
  keeps that. `textViewDidChange` hides the right slot exactly when the text
  is empty. `TextEdited` chains one text edit end to end.

Heights are `real`, and `ceil` is `Ceil` over the reals. The `CGFloat.max`
sentinel becomes the explicit `Cap.Unbounded`. Text measurement belongs to
the host, so it enters as a function `measure: Font -> real`. That function
gives the bounding height of the current text at the view's width. The
handlers and delegate callbacks are opaque. What the code does with them is
recorded as traces: `KeyboardObserver.deliveries` and
`GrowingTextView.calls`.

## Notes on the code

- The height cap rounds the line height up before multiplying: `ceil(lineHeight) * maxNumberOfLines` (SIGrowingTextView/GrowingTextView.swift:156).
- The text view clamps its height only from above. `expectedHeight` can be below `minimumHeight` (SIGrowingTextView/GrowingTextView.swift:161-168).
- The bar's floor is the constant `defaultHeight`, 44 points (SIGrowingTextView/GrowingTextBar.swift:21).
- The right slot's visibility depends on the text alone (SIGrowingTextView/GrowingTextBar.swift:133).
- `UIViewAnimationCurve(rawValue:)` is the initializer of an enumeration imported from C. It does not check its argument, so the curve 7 that the keyboard posts decodes. `AnimationCurve` therefore wraps the raw integer, and the four declared cases are named constants (Example/Example/Keyboard.swift:113-116).

## Model

| member | source | states |
|---|---|---|
| `Keyboard.EventTypeFromName` | Example/Example/Keyboard.swift:65-82 | a name decodes to a kind exactly when it is one of the six recognised notification names; any other name gives nil |
| `Keyboard.NotificationName` | Example/Example/Keyboard.swift:48-63 | every kind's name is recognised and decodes back to that same kind |
| `Keyboard.NameRoundTrip` | Example/Example/Keyboard.swift:48-82 | the other half of the bijection: a name that decodes is the name of the kind it decodes to |
| `Keyboard.NotificationNameInjective` | Example/Example/Keyboard.swift:48-63 | distinct kinds have distinct notification names |
| `Keyboard.AllEventNames` | Example/Example/Keyboard.swift:84-93 | exactly six names, pairwise distinct, in the order WillShow, DidShow, WillHide, DidHide, WillChangeFrame, DidChangeFrame, covering exactly the recognised names |
| `Keyboard.CurveFromRaw` | Example/Example/Keyboard.swift:113-116 | every animation-curve integer gives a curve holding that raw value, 7 included; it is one of the four declared cases exactly when the value is 0 to 3 |
| `Keyboard.CurveRawRoundTrip` | Example/Example/Keyboard.swift:113-116 | converting a curve's raw value gives that curve back |
| `Keyboard.AnimationOptions` | Example/Example/Keyboard.swift:104-106 | for raw values from 0 to below 2^47, the options value is the raw value shifted left 16 bits: its low 16 bits are clear, the rest is the raw value, and it fits below 2^63 |
| `Keyboard.DecodeEvent` | Example/Example/Keyboard.swift:108-130 | nil exactly when userInfo is absent, the name is unrecognised, begin frame, end frame, curve or duration is missing, or `isLocal` is missing on iOS 9+; any curve integer is accepted; otherwise every field comes from the payload, the curve keeps its raw value, and `isLocal` is set (as integer ≠ 0) only on iOS 9+ |
| `Keyboard.DecodeEncode` | Example/Example/Keyboard.swift:108-130 | decoding the payload the platform posts for an event gives that event back |
| `Keyboard.KeyboardCurveDecodes` | Example/Example/Keyboard.swift:104-130 | a notification carrying the keyboard's curve 7 decodes to an event of its kind whose curve is not a declared case and whose options are 7 shifted left 16 bits |
| `Keyboard.NextState` | Example/Example/Keyboard.swift:171-184 | the transition depends on the kind alone and never returns to Initial; WillShow leads to Showing, WillHide to Hiding, WillChangeFrame to Changing, DidShow and DidChangeFrame to Shown, DidHide to Hidden, and each state is reached only from those kinds |
| `Keyboard.StateAfter` | Example/Example/Keyboard.swift:168-184 | the state after a series of `notified` calls, malformed notifications skipped; it never returns to Initial once it has left it, and a stream with no well-formed notification leaves the state as it was |
| `Keyboard.StateAfterLast` | Example/Example/Keyboard.swift:168-184 | over a stream of notifications, the state is the table entry of the last well-formed one, or the starting state when none is well-formed |
| `Keyboard.StateAfterAppend` | Example/Example/Keyboard.swift:168-184 | feeding two streams in turn is the same as feeding their concatenation |
| `Keyboard.ShowThenHide` | Example/Example/Keyboard.swift:168-184 | WillShow, DidShow, WillHide, an unrecognised name, then DidHide ends in Hidden, whatever curve the payload carries |
| `Keyboard.Broadcast` | Example/Example/Keyboard.swift:187 | delivering an event calls every handler exactly once, with that event, in registration order |
| `Keyboard.KeyboardObserver.constructor` | Example/Example/Keyboard.swift:145-147 | a new observer is Initial, enabled, with no handlers and no deliveries |
| `Keyboard.KeyboardObserver.Observe` | Example/Example/Keyboard.swift:162-164 | appends one handler and keeps the earlier ones; state, enabled flag and deliveries unchanged |
| `Keyboard.KeyboardObserver.Notified` | Example/Example/Keyboard.swift:167-188 | a malformed notification changes neither state nor deliveries; otherwise the state follows the table (even when disabled) and, only when enabled, every handler gets the event once in order; the handler list and flag never change |
| `TextView.Ceil` | SIGrowingTextView/GrowingTextView.swift:184 | the result is the least integer not below its argument |
| `TextView.CeilMonotone` | SIGrowingTextView/GrowingTextView.swift:184 | rounding up never reverses the order of two heights |
| `TextView.MinimumHeightFor` | SIGrowingTextView/GrowingTextView.swift:87-90 | the minimum height minus the vertical insets is the line height rounded up |
| `TextView.GrowingTextView.MinimumHeight` | SIGrowingTextView/GrowingTextView.swift:87-90 | installs the 14-point fallback font only when no font is set, and returns one rounded-up line of the resulting font plus the insets |
| `TextView.RoundHeight` | SIGrowingTextView/GrowingTextView.swift:177-188 | with a font, the result minus the insets is the measured height rounded up; without one it is the insets alone; it is never below the insets when measurements are non-negative |
| `TextView.RoundHeightMonotone` | SIGrowingTextView/GrowingTextView.swift:177-188 | a taller measurement never gives a smaller rounded height |
| `TextView.HeightCap` | SIGrowingTextView/GrowingTextView.swift:151-159 | capped exactly when the line count is positive (and a font is set, which `updateSize` ensures first); the cap minus the insets is `maxNumberOfLines` times the minimum height minus the insets |
| `TextView.CapAtLeastMinimum` | SIGrowingTextView/GrowingTextView.swift:151-159 | a cap of one line or more is never below the minimum height |
| `TextView.Decide` | SIGrowingTextView/GrowingTextView.swift:161-168 | the expected height is the smaller of the rounded height and the cap; scrolling is on exactly when the rounded height reaches the cap, equality included |
| `TextView.DecideMonotone` | SIGrowingTextView/GrowingTextView.swift:161-168 | a taller rounded height never lowers the expected height nor turns scrolling off |
| `TextView.DecideIdempotent` | SIGrowingTextView/GrowingTextView.swift:161-168 | deciding again on the expected height gives the same height and mode |
| `TextView.CapScenario` | SIGrowingTextView/GrowingTextView.swift:151-168 | four 20-point lines under 8-point insets cap at 96, and a 120-point text gives 96 with scrolling |
| `TextView.GrowingTextView.UpdateSize` | SIGrowingTextView/GrowingTextView.swift:149-172 | installs the fallback font only under a positive line cap; expected height and scrolling are `Decide` of the rounded height and the cap; exactly one height report with the new expected height per call when the delegate listens, none otherwise; nothing else changes |
| `TextView.ShouldHidePlaceholder` | SIGrowingTextView/GrowingTextView.swift:199-201 | the placeholder is shown exactly when the text is empty and the placeholder is not the empty string; a missing placeholder over empty text is shown |
| `TextView.GrowingTextView.LayoutSubviews` | SIGrowingTextView/GrowingTextView.swift:136-144 | the placeholder's hidden flag becomes `ShouldHidePlaceholder` of the current placeholder and text |
| `TextView.ShouldAllow` | SIGrowingTextView/GrowingTextView.swift:226-234 | the begin-, end-editing, URL and attachment forwards refuse only when a delegate exists, implements the question and answers no |
| `TextView.ShouldChangeText` | SIGrowingTextView/GrowingTextView.swift:246-260 | a change is refused exactly when the replacement is a single newline and the delegate implements `textViewShouldReturn` and answers no |
| `TextView.NoticeCalls` | SIGrowingTextView/GrowingTextView.swift:236-244 | a plain notice reaches the delegate once when it exists and implements that callback, not at all otherwise |
| `TextView.GrowingTextView.Notify` | SIGrowingTextView/GrowingTextView.swift:269-272 | the did-begin, did-end, did-change and selection notices append exactly the calls `NoticeCalls` gives; nothing else changes |
| `TextView.GrowingTextView.TextViewDidChange` | SIGrowingTextView/GrowingTextView.swift:262-267 | resizes as `UpdateSize`, then sets the placeholder's visibility, then passes the change on, in that order in the call trace |
| `TextView.GrowingTextView.constructor` | SIGrowingTextView/GrowingTextView.swift:123-131 | scrolling off, inset 8/6/8/6, no line cap, no placeholder, no delegate, fallback font of 14 points |
| `TextBar.WidthConstant` | SIGrowingTextView/GrowingTextBar.swift:27-33 | a slot's width constant is 0 exactly when hidden and 40 otherwise |
| `TextBar.BarHeight` | SIGrowingTextView/GrowingTextBar.swift:119-129 | the written height is the larger of 44 and the text view's height plus the padding `44 - minimumHeight` |
| `TextBar.BarHeightAtMinimum` | SIGrowingTextView/GrowingTextBar.swift:121-126 | a text view at its minimum height gives exactly 44 |
| `TextBar.BarHeightMonotone` | SIGrowingTextView/GrowingTextBar.swift:121-126 | the bar height never decreases as the text view's height grows |
| `TextBar.BarHeightWithinCap` | SIGrowingTextView/GrowingTextBar.swift:119-129 | under a line cap of n, the bar is at most 44 plus n - 1 rounded-up lines tall, whatever the text measures |
| `TextBar.GrowingTextBar.constructor` | SIGrowingTextView/GrowingTextBar.swift:62-98 | left width 40, right width 0, right slot hidden, left shown; the text view starts with empty text, expected height 0, scrolling off and the placeholder hidden, so the hidden right slot agrees with the empty text from the start; it has the bar as delegate, the placeholder text and a cap of 4 lines |
| `TextBar.GrowingTextBar.SetRightViewHidden` | SIGrowingTextView/GrowingTextBar.swift:31-33 | sets the flag and writes 0 or 40 into the right width constraint only; keeps the right width in step with the flag |
| `TextBar.GrowingTextBar.SetLeftViewHidden` | SIGrowingTextView/GrowingTextBar.swift:27-29 | sets the flag and writes the width for `rightViewHidden`, as written, into the left width constraint only |
| `TextBar.GrowingTextBar.TextViewHeightChanged` | SIGrowingTextView/GrowingTextBar.swift:119-129 | every height constraint whose first item is the bar gets `BarHeight(minimumHeight, newHeight)`; every other constraint is unchanged; the text view's font changes only by the fallback |
| `TextBar.GrowingTextBar.TextViewDidChange` | SIGrowingTextView/GrowingTextBar.swift:131-135 | the right slot is hidden exactly when the text is empty, with its width constant to match; nothing else changes |
| `TextBar.GrowingTextBar.TextEdited` | SIGrowingTextView/GrowingTextView.swift:262-267 | one edit: the expected height and scrolling mode are `Decide` of the rounded height and the cap, measured with the font `updateSize` left; the placeholder follows `ShouldHidePlaceholder`; the text view reports its height and the change, in that order; each of the bar's height constraints keeps its items and attributes and gets the bar height for the new expected height; the right slot follows the text's emptiness; all other constraints keep their constants; the text, insets, line cap, placeholder and delegate of the text view stay as they were, so edits chain |

## Left out

- Text layout. `boundingRectWithSize` and the attributed string it measures belong to the host. The measured height is the input `measure`, and the view's width is folded into it.
- Floating point. Heights are exact reals and `ceil` is exact. `CGFloat.max` is `Cap.Unbounded`, so a measured height at or beyond `CGFloat.max` does not scroll in the model.
- Notification-center plumbing. Subscribing in `KeyboardObserver.init`, unsubscribing and clearing the handlers in `deinit`, and the weak captures are left out.
- Handler and delegate bodies. They are opaque, so their invocations are recorded as traces. A delegate's answers are fixed per delegate value and do not depend on the view's state.
- Payload typing. A `userInfo` entry of the wrong type is modelled as absent. The iOS version check is the parameter `iOS9`.
- AnimationOptions: defined only for raw curve values from 0 to below 2^47. `UInt(...)` traps on a negative value, and `<< 16` drops the high bits of a larger one; neither is modelled.
- Visual effects. These include caret scrolling (`ensureCaretDisplaysCorrectly`), the placeholder frame layout and send-to-back, layer corner, border and colour styling, the font and placeholder `didSet` cosmetics, and `print` logging.
- The `contentSize` observer that calls `updateSize` belongs to UIKit. The model calls `UpdateSize` directly.
- Bar views and animation. Subview creation, `updateLayout` animation and the visual-format constraints are left out. The constraints the layout installs on the bar are an input to the constructor. The empty `addSubViewToLeftView` stub has no effect and is not modelled.
- TextEdited: in the code, the bar's height update runs inside `updateSize`, before the text view updates its placeholder. The model runs it after the text view's `textViewDidChange` returns. The two touch disjoint state, so the end state is the same.
- The bar's `textView` is a `var` that a client may replace. The model fixes the text view when the bar is built.
- Accessory attachment, side margins and an "always show" flag do not exist in the bar shown here.
- Both `Constraint.swift` wrappers and `ViewController.swift` are not part of this model.
