/**
 * The control flag and the key-event handler that drives it. The flag is the
 * process-wide boolean the process callback reads; in this sequential model it
 * is a field of one object rather than an atomic global.
 */
module Control {

  /**
   * A key event as the handler sees it: whether the key went down, and whether
   * the right Control key is held. Other fields of the event are never read.
   */
  datatype KeyboardEvent = KeyboardEvent(pressed: bool, rightControl: bool)

  /** The flag value after one event, given the value before it. */
  function KeyStep(bleep: bool, ev: KeyboardEvent): (b: bool)
  {
    if !ev.pressed then false
    else if !ev.rightControl then bleep
    else true
  }

  /** The flag value after a sequence of events, applied in order. */
  function FlagAfter(bleep: bool, events: seq<KeyboardEvent>): (b: bool)
    decreases |events|
  {
    if events == [] then bleep
    else KeyStep(FlagAfter(bleep, events[..|events| - 1]), events[|events| - 1])
  }

  /** Some event at index from or later is a key release. */
  predicate ReleasedFrom(events: seq<KeyboardEvent>, from: nat)
  {
    exists j :: from <= j < |events| && !events[j].pressed
  }

  /** The event at index i is a press with the right Control key held. */
  predicate ArmsAt(events: seq<KeyboardEvent>, i: nat)
  {
    i < |events| && events[i].pressed && events[i].rightControl
  }

  /**
   * The flag is level-triggered by the latest relevant event: after a sequence
   * of events it is set exactly when some press with right Control held is
   * followed by no release, or when it was set before and no release occurred.
   */
  lemma {:induction false} FlagAfterEvents(bleep: bool, events: seq<KeyboardEvent>)
    ensures FlagAfter(bleep, events) <==>
      (exists i: nat :: ArmsAt(events, i) && !ReleasedFrom(events, i + 1))
      || (bleep && !ReleasedFrom(events, 0))
    decreases |events|
  {
    if events != [] {
      var n := |events| - 1;
      var init := events[..n];
      var ev := events[n];
      FlagAfterEvents(bleep, init);
      if !ev.pressed {
        forall i: nat | ArmsAt(events, i)
          ensures ReleasedFrom(events, i + 1)
        {
          assert i < n;
        }
        assert ReleasedFrom(events, 0);
      } else if ev.rightControl {
        assert ArmsAt(events, n) && !ReleasedFrom(events, n + 1);
      } else {
        forall from: nat | from <= n
          ensures ReleasedFrom(events, from) == ReleasedFrom(init, from)
        {
          if ReleasedFrom(events, from) {
            var j :| from <= j < |events| && !events[j].pressed;
            assert init[j] == events[j];
          }
          if ReleasedFrom(init, from) {
            var j :| from <= j < |init| && !init[j].pressed;
            assert init[j] == events[j];
          }
        }
        if exists i: nat :: ArmsAt(events, i) && !ReleasedFrom(events, i + 1) {
          var i: nat :| ArmsAt(events, i) && !ReleasedFrom(events, i + 1);
          assert ArmsAt(init, i) && !ReleasedFrom(init, i + 1);
        }
        if exists i: nat :: ArmsAt(init, i) && !ReleasedFrom(init, i + 1) {
          var i: nat :| ArmsAt(init, i) && !ReleasedFrom(init, i + 1);
          assert ArmsAt(events, i) && !ReleasedFrom(events, i + 1);
        }
      }
    }
  }

  /** The shared control flag; it starts cleared. */
  class ControlFlag {
    var bleep: bool

    constructor ()
      ensures !bleep
    {
      bleep := false;
    }

    /**
     * The key-event handler: a release clears the flag whatever the modifiers,
     * a press with right Control held sets it, and any other press leaves it as
     * it was.
     */
    method OnKey(ev: KeyboardEvent)
      modifies this
      ensures !ev.pressed ==> !bleep
      ensures ev.pressed && ev.rightControl ==> bleep
      ensures ev.pressed && !ev.rightControl ==> bleep == old(bleep)
      ensures bleep == KeyStep(old(bleep), ev)
    {
      if !ev.pressed {
        bleep := false;
        return;
      }
      if !ev.rightControl {
        return;
      }
      bleep := true;
    }
  }
}
