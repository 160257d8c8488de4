/** Events and their dispatch. Each concrete event class becomes a variant
    of `EventData` carrying that class's fields; its static type is the
    `EventType` member its `get_static_type` returns. */
module Events {

  datatype EventType =
    | Null | WindowClose | WindowResize | WindowFocus | WindowLostFocus | WindowMoved
    | AppTick | AppUpdate | AppRender
    | KeyPressed | KeyReleased | KeyTyped
    | MouseButtonPressed | MouseButtonReleased | MouseMoved | MouseScrolled

  /** The concrete event classes of the application, key and mouse event
      modules. */
  datatype EventData =
    | WindowResizeEvent(width: int, height: int)
    | WindowCloseEvent
    | AppTickEvent
    | AppUpdateEvent
    | AppRenderEvent
    | KeyPressedEvent(keycode: int, repeatCount: int)
    | KeyTypedEvent(typedKeycode: int)
    | KeyReleasedEvent(releasedKeycode: int)
    | MouseMovedEvent(mouseX: real, mouseY: real)
    | MouseScrolledEvent(xOffset: real, yOffset: real)
    | MouseButtonPressedEvent(pressedButton: int)
    | MouseButtonReleasedEvent(releasedButton: int)

  /** `get_static_type` of the event's class. No class reports `Null`,
      `WindowFocus`, `WindowLostFocus` or `WindowMoved`. */
  function StaticType(e: EventData): (t: EventType)
    ensures t != Null && t != WindowFocus && t != WindowLostFocus && t != WindowMoved
  {
    match e
    case WindowResizeEvent(_, _) => WindowResize
    case WindowCloseEvent => WindowClose
    case AppTickEvent => AppTick
    case AppUpdateEvent => AppUpdate
    case AppRenderEvent => AppRender
    case KeyPressedEvent(_, _) => KeyPressed
    case KeyTypedEvent(_) => KeyTyped
    case KeyReleasedEvent(_) => KeyReleased
    case MouseMovedEvent(_, _) => MouseMoved
    case MouseScrolledEvent(_, _) => MouseScrolled
    case MouseButtonPressedEvent(_) => MouseButtonPressed
    case MouseButtonReleasedEvent(_) => MouseButtonReleased
  }

  /** Two events are of the same class. */
  predicate SameClass(a: EventData, b: EventData)
  {
    (a.WindowResizeEvent? && b.WindowResizeEvent?) || (a.WindowCloseEvent? && b.WindowCloseEvent?)
    || (a.AppTickEvent? && b.AppTickEvent?) || (a.AppUpdateEvent? && b.AppUpdateEvent?)
    || (a.AppRenderEvent? && b.AppRenderEvent?) || (a.KeyPressedEvent? && b.KeyPressedEvent?)
    || (a.KeyTypedEvent? && b.KeyTypedEvent?) || (a.KeyReleasedEvent? && b.KeyReleasedEvent?)
    || (a.MouseMovedEvent? && b.MouseMovedEvent?) || (a.MouseScrolledEvent? && b.MouseScrolledEvent?)
    || (a.MouseButtonPressedEvent? && b.MouseButtonPressedEvent?)
    || (a.MouseButtonReleasedEvent? && b.MouseButtonReleasedEvent?)
  }

  /** The static type identifies the class: two events report the same type
      exactly when they are of the same class. */
  lemma StaticTypeIdentifiesClass(a: EventData, b: EventData)
    ensures StaticType(a) == StaticType(b) <==> SameClass(a, b)
  {
  }

  class Event {
    const data: EventData
    var handled: bool

    /** A new event is not handled. */
    constructor (data: EventData)
      ensures this.data == data && !handled
    {
      this.data := data;
      handled := false;
    }

    /** `get_event_type`: the static type of the event's own class. */
    function GetEventType(): (t: EventType)
      ensures t == StaticType(data)
      ensures t != Null
    {
      StaticType(data)
    }
  }

  class EventDispatcher {
    const event: Event

    constructor (event: Event)
      ensures this.event == event
    {
      this.event := event;
    }

    /** `dispatch(event_type, callback)`: on a type match the callback's
        answer overwrites `handled`, whatever it was, and the result is
        true; otherwise nothing changes and the result is false. The class
        argument is given by its static type. */
    method Dispatch(eventType: EventType, callback: EventData -> bool) returns (matched: bool)
      modifies event`handled
      ensures matched <==> StaticType(event.data) == eventType
      ensures matched ==> event.handled == callback(event.data)
      ensures !matched ==> event.handled == old(event.handled)
    {
      if event.GetEventType() == eventType {
        event.handled := callback(event.data);
        return true;
      }
      return false;
    }
  }
}
