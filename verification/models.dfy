/**
 * The input-event record shared by the event buffer and the classifier,
 * with the four kinds of event the mouse and keyboard handlers produce.
 */
module Models {

  /** A value in an event's `details` dictionary. */
  datatype DetailValue = IntValue(i: int) | StrValue(s: string) | BoolValue(b: bool)

  /** One mouse or keyboard event; immutable once created. */
  datatype InputEvent = InputEvent(timestamp: string, eventType: string, details: map<string, DetailValue>)

  const MouseMove: string := "mouse_move"
  const MouseClick: string := "mouse_click"
  const MouseScroll: string := "mouse_scroll"
  const KeyPress: string := "key_press"

  /** The event types the handlers record. */
  predicate KnownType(t: string) {
    t == MouseMove || t == MouseClick || t == MouseScroll || t == KeyPress
  }

  function MouseMoveEvent(timestamp: string, x: int, y: int): (e: InputEvent)
    ensures KnownType(e.eventType) && e.eventType == MouseMove && e.timestamp == timestamp
    ensures e.details.Keys == {"x", "y"} && e.details["x"] == IntValue(x) && e.details["y"] == IntValue(y)
  {
    InputEvent(timestamp, MouseMove, map["x" := IntValue(x), "y" := IntValue(y)])
  }

  /** `button` is the handler's `str(button)`. */
  function MouseClickEvent(timestamp: string, x: int, y: int, button: string, pressed: bool): (e: InputEvent)
    ensures KnownType(e.eventType) && e.eventType == MouseClick && e.timestamp == timestamp
    ensures e.details.Keys == {"x", "y", "button", "pressed"}
    ensures e.details["x"] == IntValue(x) && e.details["y"] == IntValue(y)
    ensures e.details["button"] == StrValue(button) && e.details["pressed"] == BoolValue(pressed)
  {
    InputEvent(timestamp, MouseClick,
      map["x" := IntValue(x), "y" := IntValue(y), "button" := StrValue(button), "pressed" := BoolValue(pressed)])
  }

  function MouseScrollEvent(timestamp: string, x: int, y: int, dx: int, dy: int): (e: InputEvent)
    ensures KnownType(e.eventType) && e.eventType == MouseScroll && e.timestamp == timestamp
    ensures e.details.Keys == {"x", "y", "dx", "dy"}
    ensures e.details["x"] == IntValue(x) && e.details["y"] == IntValue(y)
    ensures e.details["dx"] == IntValue(dx) && e.details["dy"] == IntValue(dy)
  {
    InputEvent(timestamp, MouseScroll,
      map["x" := IntValue(x), "y" := IntValue(y), "dx" := IntValue(dx), "dy" := IntValue(dy)])
  }

  /** `key` is the already-extracted key text (its character, or its name). */
  function KeyPressEvent(timestamp: string, key: string): (e: InputEvent)
    ensures KnownType(e.eventType) && e.eventType == KeyPress && e.timestamp == timestamp
    ensures e.details == map["key" := StrValue(key)]
  {
    InputEvent(timestamp, KeyPress, map["key" := StrValue(key)])
  }
}
