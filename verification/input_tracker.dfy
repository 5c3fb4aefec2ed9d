/**
 * The bounded input-event buffer. Mouse and keyboard handlers, active only
 * while tracking is on, append one event each; the buffer then keeps only
 * its newest `maxEvents` entries, in arrival order. The OS listeners that
 * call the handlers are not modelled: the handlers take the coordinates,
 * button and key text already extracted, and the time of the event.
 */
module InputTracking {
  import opened Models

  /** Capacity of the buffer. */
  const MaxEvents: nat := 1000

  /** The last `n` elements of `s`, or all of `s` when it is shorter, in order. */
  function Keep<T>(s: seq<T>, n: nat): (r: seq<T>)
    ensures |r| == if |s| <= n then |s| else n
    ensures r == s[|s| - |r|..]
  {
    if |s| <= n then s else s[|s| - n..]
  }

  /** The buffer after one `_add_event(e)`: append, then trim to the newest `n`. */
  function Admit(events: seq<InputEvent>, e: InputEvent, n: nat): (r: seq<InputEvent>)
    ensures |events| <= n ==> |r| <= n
    ensures n > 0 ==> |r| > 0 && r[|r| - 1] == e
    ensures |events| < n ==> r == events + [e]
    ensures 0 < n == |events| ==> r == events[1..] + [e]
  {
    Keep(events + [e], n)
  }

  /** One arrival is an append followed by a trim to the newest `n`. */
  lemma AdmitIsKeep(events: seq<InputEvent>, e: InputEvent, n: nat)
    ensures Admit(events, e, n) == Keep(events + [e], n)
  {
  }

  /**
   * The buffer after `_add_event` has been called with each of `es` in turn;
   * each step is `Admit(events, es[0], n)`, written out as `Keep` by
   * `AdmitIsKeep`.
   */
  function AdmitAll(events: seq<InputEvent>, es: seq<InputEvent>, n: nat): seq<InputEvent>
    decreases |es|
  {
    if es == [] then events else AdmitAll(Keep(events + [es[0]], n), es[1..], n)
  }

  /** Trimming a suffix that is at least as long as the trimmed whole gives the same result. */
  lemma KeepOfSuffix<T>(u: seq<T>, v: seq<T>, n: nat)
    requires |u| <= |v| && v[|v| - |u|..] == u
    requires |u| >= n || |u| == |v|
    ensures Keep(u, n) == Keep(v, n)
  {
    if |u| > n {
      assert u[|u| - n..] == v[|v| - n..];
    }
  }

  /** One arrival followed by a trim to the newest `n` is absorbed by a later trim. */
  lemma AdmitThenKeep(events: seq<InputEvent>, e: InputEvent, rest: seq<InputEvent>, n: nat)
    requires |events| <= n
    ensures Keep(Admit(events, e, n) + rest, n) == Keep(events + ([e] + rest), n)
  {
    var v := events + [e];
    var u := Admit(events, e, n);
    assert events + ([e] + rest) == v + rest;
    assert (v + rest)[|v + rest| - |u + rest|..] == u + rest;
    KeepOfSuffix(u + rest, v + rest, n);
  }

  /**
   * However many events arrive, the buffer holds exactly the newest `n` of
   * everything seen, oldest first.
   */
  lemma {:induction false} AdmitAllKeepsNewest(events: seq<InputEvent>, es: seq<InputEvent>, n: nat)
    requires |events| <= n
    ensures AdmitAll(events, es, n) == Keep(events + es, n)
    decreases |es|
  {
    if es == [] {
      calc {
        AdmitAll(events, es, n);
        events;
        { assert events + es == events; }
        Keep(events + es, n);
      }
    } else {
      var next, rest := Keep(events + [es[0]], n), es[1..];
      calc {
        AdmitAll(events, es, n);
        AdmitAll(next, rest, n);
        { AdmitAllKeepsNewest(next, rest, n); }
        Keep(next + rest, n);
        { AdmitThenKeep(events, es[0], rest, n); }
        Keep(events + ([es[0]] + rest), n);
        { assert [es[0]] + rest == es; }
        Keep(events + es, n);
      }
    }
  }

  /** Fifteen hundred events into an empty buffer leave exactly the last thousand. */
  lemma FifteenHundredEvents(es: seq<InputEvent>)
    requires |es| == 1500
    ensures AdmitAll([], es, MaxEvents) == es[500..]
  {
    calc {
      AdmitAll([], es, MaxEvents);
      { AdmitAllKeepsNewest([], es, MaxEvents); }
      Keep([] + es, MaxEvents);
      { assert [] + es == es; }
      Keep(es, MaxEvents);
    }
  }

  /** The first index of Python's `s[k:]` on a list of length `len`. */
  function SliceStart(k: int, len: nat): (i: nat)
    ensures i <= len
    ensures 0 <= k <= len ==> i == k
    ensures -(len as int) <= k < 0 ==> i == len + k
    ensures k > len ==> i == len
    ensures k < -(len as int) ==> i == 0
  {
    if k < 0 then (if len + k < 0 then 0 else len + k)
    else if k > len then len
    else k
  }

  class InputTracker {
    var events: seq<InputEvent>
    const maxEvents: nat := MaxEvents
    var isTracking: bool

    ghost predicate Valid()
      reads this
    {
      |events| <= maxEvents
    }

    constructor ()
      ensures Valid() && events == [] && !isTracking
    {
      events := [];
      isTracking := false;
    }

    /** Turns recording on; starting the OS listeners is not modelled. */
    method StartTracking()
      modifies this`isTracking
      ensures isTracking
      ensures Valid() == old(Valid())
    {
      isTracking := true;
    }

    /** Turns recording off; stopping the OS listeners is not modelled. */
    method StopTracking()
      modifies this`isTracking
      ensures !isTracking
      ensures Valid() == old(Valid())
    {
      isTracking := false;
    }

    method AddEvent(e: InputEvent)
      modifies this`events
      ensures events == Admit(old(events), e, maxEvents)
      ensures Valid()
    {
      events := events + [e];
      if |events| > maxEvents {
        events := events[|events| - maxEvents..];
      }
    }

    method OnMouseMove(x: int, y: int, timestamp: string)
      modifies this`events
      ensures events == if isTracking then Admit(old(events), MouseMoveEvent(timestamp, x, y), maxEvents) else old(events)
      ensures old(Valid()) ==> Valid()
    {
      if isTracking {
        AddEvent(MouseMoveEvent(timestamp, x, y));
      }
    }

    method OnMouseClick(x: int, y: int, button: string, pressed: bool, timestamp: string)
      modifies this`events
      ensures events == if isTracking then Admit(old(events), MouseClickEvent(timestamp, x, y, button, pressed), maxEvents)
                        else old(events)
      ensures old(Valid()) ==> Valid()
    {
      if isTracking {
        AddEvent(MouseClickEvent(timestamp, x, y, button, pressed));
      }
    }

    method OnMouseScroll(x: int, y: int, dx: int, dy: int, timestamp: string)
      modifies this`events
      ensures events == if isTracking then Admit(old(events), MouseScrollEvent(timestamp, x, y, dx, dy), maxEvents)
                        else old(events)
      ensures old(Valid()) ==> Valid()
    {
      if isTracking {
        AddEvent(MouseScrollEvent(timestamp, x, y, dx, dy));
      }
    }

    method OnKeyPress(key: string, timestamp: string)
      modifies this`events
      ensures events == if isTracking then Admit(old(events), KeyPressEvent(timestamp, key), maxEvents) else old(events)
      ensures old(Valid()) ==> Valid()
    {
      if isTracking {
        AddEvent(KeyPressEvent(timestamp, key));
      }
    }

    /** Key releases are never recorded. */
    method OnKeyRelease(key: string)
      ensures unchanged(this)
    {
    }

    /**
     * Python's `events[-count:]` (or `[]` when empty): for a positive count
     * the newest `count` events; a count of 0 yields every event, and a
     * negative count drops that many of the oldest.
     */
    method GetRecentEvents(count: int) returns (r: seq<InputEvent>)
      ensures count >= 1 ==> r == events[|events| - (if count < |events| then count else |events|)..]
      ensures count == 0 ==> r == events
      ensures count < 0 ==> r == events[(if -count < |events| then -count else |events|)..]
    {
      if events == [] {
        r := [];
      } else {
        r := events[SliceStart(-count, |events|)..];
      }
    }
  }
}
