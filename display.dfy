/**
 * The ON/OFF state of the display in samplebase.py. `turn_on` and
 * `turn_off` change the `state` field and the `turn_on_event` the render
 * loop waits on while the display is off; the asserts of the source are
 * preconditions here.
 *
 * As written, `turn_on` sets the event but never clears the field, so a
 * second `turn_off` finds it still there and its assert fails. `TurnOnSpec`
 * and `SampleBase.TurnOn` model the source as written;
 * `TurnOnRearmedSpec` and `SampleBase.TurnOnRearmed` clear the field after
 * setting the event, which keeps every later call within its assert.
 */
module Display {
  import opened Wrappers

  datatype Power = On | Off

  /**
   * The two fields as values: the power state, and the turn-on event if
   * there is one, given by whether it has been set.
   */
  datatype DisplayState = DisplayState(power: Power, turnOnEvent: Option<bool>)

  /** Fresh from `__init__`: on, no event. */
  function Initial(): DisplayState {
    DisplayState(On, None)
  }

  /**
   * The assert at samplebase.py:47, reached when turning on from off: an
   * off display has an event to be woken by.
   */
  predicate CanTurnOn(d: DisplayState) {
    d.power == Off ==> d.turnOnEvent.Some?
  }

  /** The assert at samplebase.py:55, reached when turning off from on. */
  predicate CanTurnOff(d: DisplayState) {
    d.power == On ==> d.turnOnEvent.None?
  }

  /** `turn_on` as written: from off, set the event and keep it. */
  function TurnOnSpec(d: DisplayState): (r: DisplayState)
    requires CanTurnOn(d)
    ensures r.power == On
    ensures d.power == On ==> r == d
    ensures d.power == Off ==> r.turnOnEvent == Some(true)
  {
    if d.power == On then d else DisplayState(On, Some(true))
  }

  /** `turn_on` corrected: from off, set the event and drop it. */
  function TurnOnRearmedSpec(d: DisplayState): (r: DisplayState)
    requires CanTurnOn(d)
    ensures r.power == On
    ensures d.power == On ==> r == d
    ensures d.power == Off ==> r.turnOnEvent.None?
  {
    if d.power == On then d else DisplayState(On, None)
  }

  /** `turn_off`: from on, install a fresh event that is not set. */
  function TurnOffSpec(d: DisplayState): (r: DisplayState)
    requires CanTurnOff(d)
    ensures r.power == Off
    ensures d.power == Off ==> r == d
    ensures d.power == On ==> r.turnOnEvent == Some(false)
  {
    if d.power == Off then d else DisplayState(Off, Some(false))
  }

  /**
   * A sequence of `turn_on` (On) and `turn_off` (Off) calls with `turn_on`
   * as written; None when some call's assert fails.
   */
  function Run(d: DisplayState, calls: seq<Power>): Option<DisplayState>
    decreases calls
  {
    if calls == [] then Some(d)
    else if calls[0] == On then
      if CanTurnOn(d) then Run(TurnOnSpec(d), calls[1..]) else None
    else
      if CanTurnOff(d) then Run(TurnOffSpec(d), calls[1..]) else None
  }

  /** The same sequence with the corrected `turn_on`. */
  function RunRearmed(d: DisplayState, calls: seq<Power>): Option<DisplayState>
    decreases calls
  {
    if calls == [] then Some(d)
    else if calls[0] == On then
      if CanTurnOn(d) then RunRearmed(TurnOnRearmedSpec(d), calls[1..]) else None
    else
      if CanTurnOff(d) then RunRearmed(TurnOffSpec(d), calls[1..]) else None
  }

  /** With the corrected `turn_on`, the event exists exactly while the display is off. */
  predicate EventIffOff(d: DisplayState) {
    d.power == Off <==> d.turnOnEvent.Some?
  }

  /**
   * As written, whatever calls succeed leave an off display with its event,
   * so `turn_on`'s assert never fails after a successful prefix.
   */
  lemma {:induction false} RunKeepsOffHasEvent(d: DisplayState, calls: seq<Power>)
    requires CanTurnOn(d)
    ensures Run(d, calls).Some? ==> CanTurnOn(Run(d, calls).value)
    ensures forall k :: 0 <= k < |calls| && calls[k] == On && Run(d, calls[..k]).Some? ==>
              CanTurnOn(Run(d, calls[..k]).value)
    decreases calls
  {
    if calls != [] {
      if calls[0] == On || CanTurnOff(d) {
        var next := if calls[0] == On then TurnOnSpec(d) else TurnOffSpec(d);
        RunKeepsOffHasEvent(next, calls[1..]);
        forall k | 1 <= k < |calls| && calls[k] == On && Run(d, calls[..k]).Some?
          ensures CanTurnOn(Run(d, calls[..k]).value)
        {
          assert calls[..k][1..] == calls[1..][..k - 1];
          assert Run(d, calls[..k]) == Run(next, calls[1..][..k - 1]);
        }
      }
      assert calls[..0] == [];
    }
  }

  /** As written: off, on, off fails at the second `turn_off`'s assert. */
  lemma SecondTurnOffFails()
    ensures Run(Initial(), [Off, On]) == Some(DisplayState(On, Some(true)))
    ensures !CanTurnOff(Run(Initial(), [Off, On]).value)
    ensures Run(Initial(), [Off, On, Off]).None?
  {
  }

  /**
   * As written, once `turn_on` has run from off the display is on with a
   * set event, and from there no sequence of calls containing a `turn_off`
   * gets through its asserts: the display can never be turned off again.
   */
  lemma {:induction false} NeverOffAgain(d: DisplayState, calls: seq<Power>)
    requires d.power == Off && CanTurnOn(d)
    ensures Run(TurnOnSpec(d), calls).Some? ==> Off !in calls
    decreases calls
  {
    if calls != [] && calls[0] == On {
      NeverOffAgain(d, calls[1..]);
      assert calls == [On] + calls[1..];
    }
  }

  /**
   * Corrected: from any state where the event exists exactly while off, every
   * sequence of calls passes every assert and keeps that invariant.
   */
  lemma {:induction false} RunRearmedNeverFails(d: DisplayState, calls: seq<Power>)
    requires EventIffOff(d)
    ensures RunRearmed(d, calls).Some?
    ensures EventIffOff(RunRearmed(d, calls).value)
    ensures |calls| > 0 ==> RunRearmed(d, calls).value.power == calls[|calls| - 1]
    decreases calls
  {
    if calls != [] {
      var next := if calls[0] == On then TurnOnRearmedSpec(d) else TurnOffSpec(d);
      RunRearmedNeverFails(next, calls[1..]);
      if |calls| > 1 {
        assert calls[1..][|calls[1..]| - 1] == calls[|calls| - 1];
      }
    }
  }

  /** asyncio.Event: a flag that starts clear. */
  class Event {
    var isSet: bool

    constructor ()
      ensures !isSet
    {
      isSet := false;
    }

    method Set()
      modifies this
      ensures isSet
    {
      isSet := true;
    }
  }

  class SampleBase {
    var state: Power
    var turnOnEvent: Event?

    constructor ()
      ensures state == On && turnOnEvent == null
      ensures View() == Initial()
    {
      state := On;
      turnOnEvent := null;
    }

    /** The two fields as a `DisplayState`. */
    ghost function View(): DisplayState
      reads this, turnOnEvent
    {
      DisplayState(state, if turnOnEvent == null then None else Some(turnOnEvent.isSet))
    }

    /** `turn_on` as written. */
    method TurnOn()
      requires CanTurnOn(View())
      modifies this, turnOnEvent
      ensures View() == TurnOnSpec(old(View()))
      ensures turnOnEvent == old(turnOnEvent)
    {
      if state == On {
        return;
      }
      state := On;
      turnOnEvent.Set();
    }

    /** `turn_on` corrected: the event is set, then dropped from the field. */
    method TurnOnRearmed()
      requires CanTurnOn(View())
      modifies this, turnOnEvent
      ensures View() == TurnOnRearmedSpec(old(View()))
      ensures old(state) == Off ==> old(turnOnEvent).isSet
      ensures old(state) == On ==> turnOnEvent == old(turnOnEvent)
    {
      if state == On {
        return;
      }
      state := On;
      turnOnEvent.Set();
      turnOnEvent := null;
    }

    /** `turn_off`: from on, a fresh event for the render loop to wait on. */
    method TurnOff()
      requires CanTurnOff(View())
      modifies this
      ensures View() == TurnOffSpec(old(View()))
      ensures old(state) == On ==> fresh(turnOnEvent)
      ensures old(state) == Off ==> turnOnEvent == old(turnOnEvent)
    {
      if state == Off {
        return;
      }
      turnOnEvent := new Event();
      state := Off;
    }
  }
}
