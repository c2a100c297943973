/**
 * The callout demo component: a toggle button and, while visible, a callout
 * showing the text received through props. Its state changes only through
 * React's `setState`, which merges the given fields into the state.
 */
module Callout {
  import opened Host

  /** The component's state (`ICalloutState`). */
  datatype CalloutState = CalloutState(isCalloutVisible: bool, calloutTextThatGetsDisplayed: string)

  /** The component's props (`ICalloutProps`); the optional demo flag is read by nobody. */
  datatype CalloutProps = CalloutProps(calloutTextThatGetsDisplayed: string)

  /** The argument of a `setState` call: only the fields present are written. */
  datatype StateUpdate = StateUpdate(isCalloutVisible: Option<bool>, calloutTextThatGetsDisplayed: Option<string>)

  /** What `setState(update)` leaves as the state. */
  function Merge(s: CalloutState, update: StateUpdate): (r: CalloutState)
    ensures update.isCalloutVisible.None? ==> r.isCalloutVisible == s.isCalloutVisible
    ensures update.calloutTextThatGetsDisplayed.None? ==> r.calloutTextThatGetsDisplayed == s.calloutTextThatGetsDisplayed
    ensures update.isCalloutVisible.Some? ==> r.isCalloutVisible == update.isCalloutVisible.value
    ensures update.calloutTextThatGetsDisplayed.Some? ==>
      r.calloutTextThatGetsDisplayed == update.calloutTextThatGetsDisplayed.value
  {
    CalloutState(
      match update.isCalloutVisible
      case Some(v) => v
      case None => s.isCalloutVisible,
      match update.calloutTextThatGetsDisplayed
      case Some(t) => t
      case None => s.calloutTextThatGetsDisplayed)
  }

  /** The state after construction with `props`. */
  function Initial(props: CalloutProps): (s: CalloutState)
    ensures !s.isCalloutVisible
    ensures s.calloutTextThatGetsDisplayed == props.calloutTextThatGetsDisplayed
  {
    CalloutState(false, props.calloutTextThatGetsDisplayed)
  }

  /** The three things that change the state. */
  datatype Event = ShowMenuClicked | CalloutDismissed | ReceiveProps(props: CalloutProps)

  /**
   * The `setState` argument each handler passes: the toggle writes the negated
   * visibility, dismissal writes `false`, new props write their one field.
   */
  function UpdateFor(s: CalloutState, e: Event): (u: StateUpdate)
    ensures u.isCalloutVisible.None? <==> e.ReceiveProps?
    ensures u.calloutTextThatGetsDisplayed.Some? <==> e.ReceiveProps?
  {
    match e
    case ShowMenuClicked => StateUpdate(Some(!s.isCalloutVisible), None)
    case CalloutDismissed => StateUpdate(Some(false), None)
    case ReceiveProps(p) => StateUpdate(None, Some(p.calloutTextThatGetsDisplayed))
  }

  /** The state after one event: only new props touch the text, only the handlers touch the visibility. */
  function Step(s: CalloutState, e: Event): (r: CalloutState)
    ensures e.ReceiveProps? ==> r.isCalloutVisible == s.isCalloutVisible
    ensures e.ReceiveProps? ==> r.calloutTextThatGetsDisplayed == e.props.calloutTextThatGetsDisplayed
    ensures !e.ReceiveProps? ==> r.calloutTextThatGetsDisplayed == s.calloutTextThatGetsDisplayed
  {
    Merge(s, UpdateFor(s, e))
  }

  /** The state after handling `events` in order. */
  function Run(s: CalloutState, events: seq<Event>): CalloutState
    decreases |events|
  {
    if events == [] then s else Run(Step(s, events[0]), events[1..])
  }

  /** The callout's content; the static title and link are not modelled. */
  datatype CalloutView = CalloutView(body: string)

  /** What `render` produces: the button's text and the callout, when there is one. */
  datatype View = View(buttonText: string, callout: Option<CalloutView>)

  function Render(s: CalloutState): (v: View)
    ensures v.buttonText == "Hide Callout" <==> s.isCalloutVisible
    ensures v.callout.Some? <==> s.isCalloutVisible
    ensures v.callout.Some? ==> v.callout.value.body == s.calloutTextThatGetsDisplayed
  {
    View(
      if s.isCalloutVisible then "Hide Callout" else "Show Callout",
      if s.isCalloutVisible then Some(CalloutView(s.calloutTextThatGetsDisplayed)) else None)
  }

  /** The initial state is hidden and shows the props' text. */
  lemma InitialIsHidden(props: CalloutProps)
    ensures !Initial(props).isCalloutVisible
    ensures Initial(props).calloutTextThatGetsDisplayed == props.calloutTextThatGetsDisplayed
    ensures Render(Initial(props)) == View("Show Callout", None)
  {
  }

  /** A click flips the visibility and keeps the text; two clicks restore the state. */
  lemma ToggleFlips(s: CalloutState)
    ensures Step(s, ShowMenuClicked).isCalloutVisible == !s.isCalloutVisible
    ensures Step(s, ShowMenuClicked).calloutTextThatGetsDisplayed == s.calloutTextThatGetsDisplayed
    ensures Step(Step(s, ShowMenuClicked), ShowMenuClicked) == s
  {
  }

  /** Dismissal hides from either state, keeps the text, and a second dismissal changes nothing. */
  lemma DismissHides(s: CalloutState)
    ensures !Step(s, CalloutDismissed).isCalloutVisible
    ensures Step(s, CalloutDismissed).calloutTextThatGetsDisplayed == s.calloutTextThatGetsDisplayed
    ensures Step(Step(s, CalloutDismissed), CalloutDismissed) == Step(s, CalloutDismissed)
  {
  }

  /** New props replace the text and leave the visibility alone. */
  lemma PropsReplaceText(s: CalloutState, p: CalloutProps)
    ensures Step(s, ReceiveProps(p)).calloutTextThatGetsDisplayed == p.calloutTextThatGetsDisplayed
    ensures Step(s, ReceiveProps(p)).isCalloutVisible == s.isCalloutVisible
  {
  }

  /**
   * The button reads "Hide Callout" exactly when the callout is visible and
   * "Show Callout" otherwise; the callout is rendered exactly when visible,
   * showing the current text.
   */
  lemma RenderFollowsState(s: CalloutState)
    ensures Render(s).buttonText == "Hide Callout" <==> s.isCalloutVisible
    ensures Render(s).buttonText == "Show Callout" <==> !s.isCalloutVisible
    ensures Render(s).callout.Some? <==> s.isCalloutVisible
    ensures Render(s).callout.Some? ==> Render(s).callout.value.body == s.calloutTextThatGetsDisplayed
  {
  }

  /** Whether no event in `events` is new props. */
  predicate NoProps(events: seq<Event>)
  {
    forall i :: 0 <= i < |events| ==> !events[i].ReceiveProps?
  }

  /**
   * After any run, the text is that of the last props received, or the
   * starting text when no props arrived.
   */
  lemma {:induction false} RunText(s: CalloutState, events: seq<Event>)
    decreases |events|
    ensures NoProps(events) ==>
      Run(s, events).calloutTextThatGetsDisplayed == s.calloutTextThatGetsDisplayed
    ensures forall i :: 0 <= i < |events| && events[i].ReceiveProps? && NoProps(events[i + 1..]) ==>
      Run(s, events).calloutTextThatGetsDisplayed == events[i].props.calloutTextThatGetsDisplayed
  {
    if events != [] {
      var s' := Step(s, events[0]);
      RunText(s', events[1..]);
      forall i | 0 <= i < |events| && events[i].ReceiveProps? && NoProps(events[i + 1..])
        ensures Run(s, events).calloutTextThatGetsDisplayed == events[i].props.calloutTextThatGetsDisplayed
      {
        if i > 0 {
          assert events[1..][i - 1] == events[i];
          assert events[1..][i..] == events[i + 1..];
        } else {
          assert events[1..] == events[i + 1..];
        }
      }
    }
  }

  /** How many toggle clicks `events` holds. */
  function Clicks(events: seq<Event>): nat
  {
    if events == [] then 0 else (if events[0].ShowMenuClicked? then 1 else 0) + Clicks(events[1..])
  }

  /** Whether no event in `events` is a dismissal. */
  predicate NoDismiss(events: seq<Event>)
  {
    forall i :: 0 <= i < |events| ==> !events[i].CalloutDismissed?
  }

  /**
   * After any run, the callout is visible exactly when an odd number of clicks
   * followed the last dismissal, or, with no dismissal, when the starting
   * visibility flipped an odd number of times is true.
   */
  lemma {:induction false} RunVisibility(s: CalloutState, events: seq<Event>)
    decreases |events|
    ensures NoDismiss(events) ==>
      Run(s, events).isCalloutVisible == (s.isCalloutVisible != (Clicks(events) % 2 == 1))
    ensures forall i :: 0 <= i < |events| && events[i].CalloutDismissed? && NoDismiss(events[i + 1..]) ==>
      Run(s, events).isCalloutVisible == (Clicks(events[i + 1..]) % 2 == 1)
  {
    if events != [] {
      var s' := Step(s, events[0]);
      RunVisibility(s', events[1..]);
      if NoDismiss(events) {
        assert NoDismiss(events[1..]) by {
          forall j | 0 <= j < |events[1..]| ensures !events[1..][j].CalloutDismissed? {
            assert events[1..][j] == events[j + 1];
          }
        }
      }
      forall i | 0 <= i < |events| && events[i].CalloutDismissed? && NoDismiss(events[i + 1..])
        ensures Run(s, events).isCalloutVisible == (Clicks(events[i + 1..]) % 2 == 1)
      {
        if i > 0 {
          assert events[1..][i - 1] == events[i];
          assert events[1..][i..] == events[i + 1..];
        } else {
          assert events[1..] == events[i + 1..];
        }
      }
    }
  }

  /** `CalloutBasicCustomControl`: the React component and its state. */
  class CalloutBasicCustomControl {
    var state: CalloutState

    /** The constructor: hidden, showing the props' text. */
    constructor (props: CalloutProps)
      ensures state == Initial(props)
      ensures !state.isCalloutVisible
      ensures state.calloutTextThatGetsDisplayed == props.calloutTextThatGetsDisplayed
    {
      state := Initial(props);
    }

    /** `componentWillReceiveProps`: `setState(newProps)`. */
    method ComponentWillReceiveProps(newProps: CalloutProps)
      modifies this
      ensures state == Step(old(state), ReceiveProps(newProps))
      ensures state.calloutTextThatGetsDisplayed == newProps.calloutTextThatGetsDisplayed
      ensures state.isCalloutVisible == old(state.isCalloutVisible)
    {
      state := Merge(state, StateUpdate(None, Some(newProps.calloutTextThatGetsDisplayed)));
    }

    /** `_onShowMenuClicked`: `setState({isCalloutVisible: !isCalloutVisible})`. */
    method OnShowMenuClicked()
      modifies this
      ensures state == Step(old(state), ShowMenuClicked)
      ensures state.isCalloutVisible == !old(state.isCalloutVisible)
      ensures state.calloutTextThatGetsDisplayed == old(state.calloutTextThatGetsDisplayed)
    {
      state := Merge(state, StateUpdate(Some(!state.isCalloutVisible), None));
    }

    /** `_onCalloutDismiss`: `setState({isCalloutVisible: false})`. */
    method OnCalloutDismiss()
      modifies this
      ensures state == Step(old(state), CalloutDismissed)
      ensures !state.isCalloutVisible
      ensures state.calloutTextThatGetsDisplayed == old(state.calloutTextThatGetsDisplayed)
    {
      state := Merge(state, StateUpdate(Some(false), None));
    }
  }
}
