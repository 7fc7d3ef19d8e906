/** The window and keyboard events of the event queue, as far as the game reads them. */
module Events {

  /** A key named in some decision of the game; `OtherKey` stands for every other key. */
  datatype Key = Space | Return | Z | R | Escape | OtherKey

  /** A window close request, a key press, or any other event. */
  datatype Event = Quit | KeyDown(key: Key) | OtherEvent
}
