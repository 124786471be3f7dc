/**
 * Input events as the scenes see them. A mouse click is abstracted to what
 * it hits, a value of a type each scene chooses; a key press carries the key
 * and, for ordinary keys, the one character it types.
 */
module Events {

  datatype Key =
    | Backspace
    | Return
    | Space
    | Press(c: char)   // any other key that types the character `c`
    | Silent           // a key that types nothing (a modifier, an arrow key)

  /** The `unicode` text of a key event. */
  function Typed(k: Key): string
  {
    match k
    case Space => " "
    case Press(c) => [c]
    case _ => ""
  }

  datatype Input<Hit> =
    | Click(hit: Hit)   // MOUSEBUTTONDOWN, with what lies under the pointer
    | KeyDown(key: Key) // KEYDOWN
    | Motion            // MOUSEMOTION
    | OtherInput        // any other event kind, which every scene ignores

  /** Space or Enter: the keys that skip or continue on the story screens. */
  predicate IsConfirmKey(k: Key)
  {
    k == Space || k == Return
  }
}
