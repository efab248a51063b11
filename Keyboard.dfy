/**
  The keyboard lifecycle observer: six notification kinds, a validating
  decoder from a notification payload to a `KeyboardEvent`, and the
  `KeyboardObserver` state machine that delivers decoded events to its
  handlers (Example/Example/Keyboard.swift).
*/
module Keyboard {
  import opened Options

  // ---------------------------------------------------------------------
  // Event kinds and notification names
  // ---------------------------------------------------------------------

  datatype KeyboardEventType =
    | WillShow | DidShow | WillHide | DidHide | WillChangeFrame | DidChangeFrame

  // The six notification names the platform posts (the values of the
  // UIKeyboard…Notification string constants).
  const WillShowName: string := "UIKeyboardWillShowNotification"
  const DidShowName: string := "UIKeyboardDidShowNotification"
  const WillHideName: string := "UIKeyboardWillHideNotification"
  const DidHideName: string := "UIKeyboardDidHideNotification"
  const WillChangeFrameName: string := "UIKeyboardWillChangeFrameNotification"
  const DidChangeFrameName: string := "UIKeyboardDidChangeFrameNotification"

  const RecognisedNames: set<string> :=
    {WillShowName, DidShowName, WillHideName, DidHideName, WillChangeFrameName, DidChangeFrameName}

  /** The order in which `allEventNames` lists the kinds. */
  const EventOrder: seq<KeyboardEventType> :=
    [WillShow, DidShow, WillHide, DidHide, WillChangeFrame, DidChangeFrame]

  /** `init?(name:)`: a recognised name gives its kind, any other name nil. */
  function EventTypeFromName(name: string): (t: Option<KeyboardEventType>)
    ensures t.Some? <==> name in RecognisedNames
  {
    if name == WillShowName then Some(WillShow)
    else if name == DidShowName then Some(DidShow)
    else if name == WillHideName then Some(WillHide)
    else if name == DidHideName then Some(DidHide)
    else if name == WillChangeFrameName then Some(WillChangeFrame)
    else if name == DidChangeFrameName then Some(DidChangeFrame)
    else None
  }

  /** `notificationName`: decoding the name of a kind gives that kind back. */
  function NotificationName(t: KeyboardEventType): (name: string)
    ensures name in RecognisedNames
    ensures EventTypeFromName(name) == Some(t)
  {
    match t
    case WillShow => WillShowName
    case DidShow => DidShowName
    case WillHide => WillHideName
    case DidHide => DidHideName
    case WillChangeFrame => WillChangeFrameName
    case DidChangeFrame => DidChangeFrameName
  }

  /** The other half of the bijection: a name that decodes is the name of its kind. */
  lemma NameRoundTrip(name: string)
    requires EventTypeFromName(name).Some?
    ensures NotificationName(EventTypeFromName(name).value) == name
  {
  }

  /** Distinct kinds have distinct names. */
  lemma NotificationNameInjective(t: KeyboardEventType, u: KeyboardEventType)
    requires NotificationName(t) == NotificationName(u)
    ensures t == u
  {
  }

  /** `allEventNames`: the six names, in the order of `EventOrder`, each once. */
  function AllEventNames(): (names: seq<string>)
    ensures |names| == |EventOrder| == 6
    ensures forall i :: 0 <= i < |names| ==> EventTypeFromName(names[i]) == Some(EventOrder[i])
    ensures forall n :: n in names <==> n in RecognisedNames
    ensures forall i, j :: 0 <= i < j < |names| ==> names[i] != names[j]
  {
    var names := seq(|EventOrder|, i requires 0 <= i < |EventOrder| => NotificationName(EventOrder[i]));
    assert names == [WillShowName, DidShowName, WillHideName, DidHideName, WillChangeFrameName, DidChangeFrameName];
    names
  }

  // ---------------------------------------------------------------------
  // Animation curve and options
  // ---------------------------------------------------------------------

  /**
    `UIViewAnimationCurve`, an enumeration imported from C. A value of it is
    its raw integer: the four declared cases are the raw values 0 to 3, and
    any other integer (the keyboard animates with 7) is kept as it is.
  */
  datatype AnimationCurve = AnimationCurve(rawValue: int)

  const EaseInOut: AnimationCurve := AnimationCurve(0)
  const EaseIn: AnimationCurve := AnimationCurve(1)
  const EaseOut: AnimationCurve := AnimationCurve(2)
  const Linear: AnimationCurve := AnimationCurve(3)

  /** The curve the keyboard's own notifications carry, not one of the declared cases. */
  const KeyboardCurveRaw: int := 7

  predicate IsDeclaredCurve(c: AnimationCurve) {
    c == EaseInOut || c == EaseIn || c == EaseOut || c == Linear
  }

  /**
    `UIViewAnimationCurve(rawValue:)`. The initializer of an imported C
    enumeration does not check its argument: every integer gives a curve
    holding it, and only 0 to 3 give a declared case.
  */
  function CurveFromRaw(raw: int): (c: Option<AnimationCurve>)
    ensures c.Some? && c.value.rawValue == raw
    ensures IsDeclaredCurve(c.value) <==> 0 <= raw < 4
  {
    Some(AnimationCurve(raw))
  }

  /** A curve's raw value converts back to that curve. */
  lemma CurveRawRoundTrip(c: AnimationCurve)
    ensures CurveFromRaw(c.rawValue) == Some(c)
  {
  }

  const CurveShift: nat := 0x1_0000  // `<< 16`

  /** Raw values whose `<< 16` fits a 64-bit `Int` without reaching the sign bit. */
  const OptionsRawBound: int := 0x8000_0000_0000

  /**
    `options`: the curve's raw value moved into bits 16 and up; the low 16
    bits are clear. `UInt(...)` traps on a negative value, and `<< 16` drops
    bits of a raw value of 2^47 or more, so those are outside its domain.
  */
  function AnimationOptions(c: AnimationCurve): (bits: nat)
    requires 0 <= c.rawValue < OptionsRawBound
    ensures bits % CurveShift == 0
    ensures bits / CurveShift == c.rawValue
    ensures bits < 0x8000_0000_0000_0000
  {
    c.rawValue * CurveShift
  }

  // ---------------------------------------------------------------------
  // Notification payload and the decoded event
  // ---------------------------------------------------------------------

  datatype Rect = Rect(x: real, y: real, width: real, height: real)

  /**
    The `userInfo` dictionary of a keyboard notification. Each entry is
    `None` when the key is absent or its value is not of the expected type.
  */
  datatype UserInfo = UserInfo(
    frameBegin: Option<Rect>,
    frameEnd: Option<Rect>,
    curve: Option<int>,
    duration: Option<real>,
    isLocal: Option<int>)

  datatype Notification = Notification(name: string, userInfo: Option<UserInfo>)

  datatype KeyboardEvent = KeyboardEvent(
    kind: KeyboardEventType,
    frameBegin: Rect,
    frameEnd: Rect,
    curve: AnimationCurve,
    duration: real,
    isLocal: Option<bool>)

  /**
    `KeyboardEvent.init?(notification:)`. `iOS9` says whether the running
    system is iOS 9 or later, where the `isLocal` entry is also required.
  */
  function DecodeEvent(n: Notification, iOS9: bool): (e: Option<KeyboardEvent>)
    ensures n.userInfo.None? ==> e.None?
    ensures n.name !in RecognisedNames ==> e.None?
    ensures e.Some? <==>
      && n.userInfo.Some?
      && n.name in RecognisedNames
      && n.userInfo.value.frameBegin.Some?
      && n.userInfo.value.frameEnd.Some?
      && n.userInfo.value.curve.Some?
      && n.userInfo.value.duration.Some?
      && (iOS9 ==> n.userInfo.value.isLocal.Some?)
    ensures e.Some? ==>
      && NotificationName(e.value.kind) == n.name
      && Some(e.value.frameBegin) == n.userInfo.value.frameBegin
      && Some(e.value.frameEnd) == n.userInfo.value.frameEnd
      && Some(e.value.curve.rawValue) == n.userInfo.value.curve
      && Some(e.value.duration) == n.userInfo.value.duration
      && e.value.isLocal.Some? == iOS9
      && (iOS9 ==> e.value.isLocal.value == (n.userInfo.value.isLocal.value != 0))
  {
    if n.userInfo.None? then None
    else
      var info := n.userInfo.value;
      var kind := EventTypeFromName(n.name);
      if kind.None? || info.frameBegin.None? || info.frameEnd.None? then None
      else if info.curve.None? || CurveFromRaw(info.curve.value).None? then None
      else if info.duration.None? then None
      else if iOS9 && info.isLocal.None? then None
      else
        var isLocal := if iOS9 then Some(info.isLocal.value != 0) else None;
        Some(KeyboardEvent(kind.value, info.frameBegin.value, info.frameEnd.value,
                           CurveFromRaw(info.curve.value).value, info.duration.value, isLocal))
  }

  /** The payload the platform posts for an event (isLocal written as 1 or 0). */
  function EncodeEvent(e: KeyboardEvent): (n: Notification)
    ensures n.name in RecognisedNames && n.userInfo.Some?
  {
    Notification(
      NotificationName(e.kind),
      Some(UserInfo(
        Some(e.frameBegin), Some(e.frameEnd), Some(e.curve.rawValue), Some(e.duration),
        match e.isLocal case None => None case Some(b) => Some(if b then 1 else 0))))
  }

  /** Decoding what the platform posts for an event gives the event back. */
  lemma DecodeEncode(e: KeyboardEvent, iOS9: bool)
    requires e.isLocal.Some? == iOS9
    ensures DecodeEvent(EncodeEvent(e), iOS9) == Some(e)
  {
  }

  /**
    A notification as the keyboard posts it, with curve 7, decodes; the
    event keeps the raw curve and its animation options carry it.
  */
  lemma KeyboardCurveDecodes(t: KeyboardEventType, begin: Rect, end: Rect, duration: real)
    ensures var n := Notification(NotificationName(t),
        Some(UserInfo(Some(begin), Some(end), Some(KeyboardCurveRaw), Some(duration), Some(0))));
      var e := DecodeEvent(n, true);
      && e.Some? && e.value.kind == t
      && !IsDeclaredCurve(e.value.curve)
      && AnimationOptions(e.value.curve) == 0x7_0000
  {
  }

  // ---------------------------------------------------------------------
  // State machine
  // ---------------------------------------------------------------------

  datatype KeyboardState = Initial | Showing | Shown | Hiding | Hidden | Changing

  predicate IsWillEvent(t: KeyboardEventType) {
    t == WillShow || t == WillHide || t == WillChangeFrame
  }

  predicate IsInTransition(s: KeyboardState) {
    s == Showing || s == Hiding || s == Changing
  }

  /**
    The transition table of `notified`: it depends on the event kind only.
    No event leads back to `Initial`; the "will" events lead to the three
    in-transition states and the "did" events to the settled ones.
  */
  function NextState(t: KeyboardEventType): (s: KeyboardState)
    ensures s != Initial
    ensures IsInTransition(s) <==> IsWillEvent(t)
    ensures s == Showing <==> t == WillShow
    ensures s == Hiding <==> t == WillHide
    ensures s == Changing <==> t == WillChangeFrame
    ensures s == Shown <==> (t == DidShow || t == DidChangeFrame)
    ensures s == Hidden <==> t == DidHide
  {
    match t
    case WillShow => Showing
    case DidShow => Shown
    case WillHide => Hiding
    case DidHide => Hidden
    case WillChangeFrame => Changing
    case DidChangeFrame => Shown
  }

  /** The state after a stream of notifications, starting from `s`; malformed ones are skipped. */
  function StateAfter(s: KeyboardState, ns: seq<Notification>, iOS9: bool): (r: KeyboardState)
    ensures r == s || r != Initial
    ensures (forall j :: 0 <= j < |ns| ==> DecodeEvent(ns[j], iOS9).None?) ==> r == s
    decreases |ns|
  {
    if ns == [] then s
    else
      var e := DecodeEvent(ns[0], iOS9);
      StateAfter(if e.Some? then NextState(e.value.kind) else s, ns[1..], iOS9)
  }

  /** Index of the last well-formed notification in `ns`, if any. */
  function LastWellFormed(ns: seq<Notification>, iOS9: bool): (k: Option<nat>)
    ensures k.Some? ==> k.value < |ns| && DecodeEvent(ns[k.value], iOS9).Some?
    ensures k.Some? ==> forall j :: k.value < j < |ns| ==> DecodeEvent(ns[j], iOS9).None?
    ensures k.None? ==> forall j :: 0 <= j < |ns| ==> DecodeEvent(ns[j], iOS9).None?
    decreases |ns|
  {
    if ns == [] then None
    else if DecodeEvent(ns[|ns| - 1], iOS9).Some? then Some(|ns| - 1)
    else
      var prefix := ns[..|ns| - 1];
      assert forall j :: 0 <= j < |prefix| ==> prefix[j] == ns[j];
      LastWellFormed(prefix, iOS9)
  }

  /**
    The state depends only on the last well-formed notification: it is that
    event's table entry, or the starting state when every notification was
    malformed.
  */
  lemma {:induction false} StateAfterLast(s: KeyboardState, ns: seq<Notification>, iOS9: bool)
    ensures var k := LastWellFormed(ns, iOS9);
      StateAfter(s, ns, iOS9) ==
        if k.Some? then NextState(DecodeEvent(ns[k.value], iOS9).value.kind) else s
    decreases |ns|
  {
    if ns != [] {
      var prefix, last := ns[..|ns| - 1], ns[|ns| - 1];
      assert ns == prefix + [last];
      StateAfterAppend(s, prefix, [last], iOS9);
      StateAfterLast(s, prefix, iOS9);
      var k := LastWellFormed(prefix, iOS9);
      if k.Some? {
        assert ns[k.value] == prefix[k.value];
      }
    }
  }

  /** Feeding two streams one after the other is feeding their concatenation. */
  lemma {:induction false} StateAfterAppend(s: KeyboardState, a: seq<Notification>, b: seq<Notification>, iOS9: bool)
    ensures StateAfter(StateAfter(s, a, iOS9), b, iOS9) == StateAfter(s, a + b, iOS9)
    decreases |a|
  {
    if a != [] {
      var e := DecodeEvent(a[0], iOS9);
      StateAfterAppend(if e.Some? then NextState(e.value.kind) else s, a[1..], b, iOS9);
      assert (a + b)[0] == a[0] && (a + b)[1..] == a[1..] + b;
    } else {
      assert a + b == b;
    }
  }

  /** WillShow, DidShow, WillHide, an unrecognised name, then DidHide: the keyboard ends `Hidden`. */
  lemma ShowThenHide(info: UserInfo)
    requires info.frameBegin.Some? && info.frameEnd.Some? && info.duration.Some? && info.isLocal.Some?
    requires info.curve.Some?
    ensures StateAfter(Initial,
      [Notification(WillShowName, Some(info)), Notification(DidShowName, Some(info)),
       Notification(WillHideName, Some(info)), Notification("UIKeyboardUnknownNotification", Some(info)),
       Notification(DidHideName, Some(info))], true) == Hidden
  {
    var ns := [Notification(WillShowName, Some(info)), Notification(DidShowName, Some(info)),
       Notification(WillHideName, Some(info)), Notification("UIKeyboardUnknownNotification", Some(info)),
       Notification(DidHideName, Some(info))];
    assert DecodeEvent(ns[4], true).Some?;
    LastWellFormedUnique(ns, true, 4);
    StateAfterLast(Initial, ns, true);
  }

  /** A well-formed notification after which none is well-formed is the one `LastWellFormed` finds. */
  lemma LastWellFormedUnique(ns: seq<Notification>, iOS9: bool, i: nat)
    requires i < |ns| && DecodeEvent(ns[i], iOS9).Some?
    requires forall j :: i < j < |ns| ==> DecodeEvent(ns[j], iOS9).None?
    ensures LastWellFormed(ns, iOS9) == Some(i)
  {
  }

  // ---------------------------------------------------------------------
  // The observer
  // ---------------------------------------------------------------------

  /** A registered closure, known only by its identity. */
  datatype Handler = Handler(id: nat)

  /** One invocation of a handler with an event. */
  datatype Delivery = Delivery(handler: Handler, event: KeyboardEvent)

  /** What delivering `e` to `hs` does: every handler once, in registration order. */
  function Broadcast(hs: seq<Handler>, e: KeyboardEvent): (calls: seq<Delivery>)
    ensures |calls| == |hs|
    ensures forall i :: 0 <= i < |hs| ==> calls[i] == Delivery(hs[i], e)
  {
    if hs == [] then [] else [Delivery(hs[0], e)] + Broadcast(hs[1..], e)
  }

  class KeyboardObserver {
    var state: KeyboardState
    var enabled: bool
    /** `eventClosures`, in registration order. */
    var handlers: seq<Handler>
    /** Every handler invocation so far, in the order it happened. */
    var deliveries: seq<Delivery>

    /** `init()`; subscribing to the notification center is not part of this model. */
    constructor ()
      ensures state == Initial && enabled
      ensures handlers == [] && deliveries == []
    {
      state := Initial;
      enabled := true;
      handlers := [];
      deliveries := [];
    }

    /** `observe`: appends one handler; nothing else changes. */
    method Observe(h: Handler)
      modifies this`handlers
      ensures handlers == old(handlers) + [h]
    {
      handlers := handlers + [h];
    }

    /** `notified`: update the state by the table, then deliver to every handler if enabled. */
    method Notified(n: Notification, iOS9: bool)
      modifies this`state, this`deliveries
      ensures var e := DecodeEvent(n, iOS9);
        if e.None? then
          state == old(state) && deliveries == old(deliveries)
        else
          && state == NextState(e.value.kind)
          && deliveries == old(deliveries) + (if enabled then Broadcast(handlers, e.value) else [])
      ensures state == StateAfter(old(state), [n], iOS9)
    {
      var e := DecodeEvent(n, iOS9);
      if e.None? {
        return;
      }
      var event := e.value;
      match event.kind {
        case WillShow => state := Showing;
        case DidShow => state := Shown;
        case WillHide => state := Hiding;
        case DidHide => state := Hidden;
        case WillChangeFrame => state := Changing;
        case DidChangeFrame => state := Shown;
      }
      assert state == NextState(event.kind);
      if !enabled {
        return;
      }
      ghost var before := deliveries;
      for i := 0 to |handlers|
        invariant state == NextState(event.kind)
        invariant |deliveries| == |before| + i
        invariant deliveries[..|before|] == before
        invariant forall k :: 0 <= k < i ==> deliveries[|before| + k] == Delivery(handlers[k], event)
      {
        deliveries := deliveries + [Delivery(handlers[i], event)];
      }
      assert deliveries == before + Broadcast(handlers, event);
    }
  }
}
