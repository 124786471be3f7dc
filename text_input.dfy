/**
 * The bounded one-line text box through which the player types a name and
 * a battle command: it appends printable characters while there is room,
 * deletes the last one on Backspace, loses focus on Enter or on a click
 * outside it, and blinks its cursor every 500 milliseconds.
 */
module TextInputs {
  import opened Events
  import opened Text

  /** The cursor blink period in milliseconds. */
  const CursorBlinkSpeed: int := 500

  /** `str.isprintable()` of a whole string (true of the empty string). */
  predicate AllPrintable(s: string)
  {
    forall i :: 0 <= i < |s| ==> IsPrintable(s[i])
  }

  /**
   * The text after a key press reaches an active box. Backspace drops the
   * last character (the empty text stays empty), Enter keeps the text, and
   * any other key appends what it types when the text is shorter than the
   * bound and what it types is printable.
   */
  function KeyText(text: string, k: Key, maxLength: nat): (r: string)
    ensures |text| <= maxLength ==> |r| <= maxLength
    ensures k == Backspace ==> (text == [] ==> r == []) && (text != [] ==> r + [text[|text| - 1]] == text)
    ensures k == Return ==> r == text
    ensures k != Backspace && k != Return && Typed(k) != [] ==>
              (r == text + Typed(k) <==> |text| < maxLength && AllPrintable(Typed(k)))
    ensures k != Backspace && k != Return ==> r == text || r == text + Typed(k)
  {
    match k
    case Backspace => if text == [] then [] else text[..|text| - 1]
    case Return => text
    case _ =>
      if |text| < maxLength && AllPrintable(Typed(k)) then text + Typed(k) else text
  }

  /**
   * The cursor after `update()` at time `now`: the visibility flips exactly
   * when more than the blink period has passed since the last flip, and the
   * flip time then becomes `now`.
   */
  function Blink(visible: bool, timer: int, now: int): (r: (bool, int))
    ensures r.0 != visible <==> now - timer > CursorBlinkSpeed
    ensures now - timer > CursorBlinkSpeed ==> r.1 == now
    ensures now - timer <= CursorBlinkSpeed ==> r == (visible, timer)
  {
    if now - timer > CursorBlinkSpeed then (!visible, now) else (visible, timer)
  }

  /** A second `update()` in the same millisecond never flips the cursor again. */
  lemma BlinkSettles(visible: bool, timer: int, now: int)
    ensures var r := Blink(visible, timer, now);
            Blink(r.0, r.1, now) == r
  {
  }

  class TextInput {
    var text: string
    const maxLength: nat
    var active: bool
    var cursorVisible: bool
    var cursorTimer: int

    /** The text never exceeds its bound. */
    predicate Valid()
      reads this
    {
      |text| <= maxLength
    }

    /** An empty, inactive box with a visible cursor last flipped at time 0. */
    constructor (maxLength: nat)
      ensures this.maxLength == maxLength
      ensures text == "" && !active && cursorVisible && cursorTimer == 0
      ensures Valid()
    {
      this.maxLength := maxLength;
      text := "";
      active := false;
      cursorVisible := true;
      cursorTimer := 0;
    }

    /**
     * `handle_event`. A click gives the box focus exactly when it lands
     * inside it; a key press changes the text only while the box has focus,
     * and Enter takes the focus away.
     */
    method HandleEvent(e: Input<bool>)
      modifies this
      ensures e.Click? ==> active == e.hit && text == old(text)
      ensures e.KeyDown? && old(active) ==>
                text == KeyText(old(text), e.key, maxLength) && active == (e.key != Return)
      ensures e.KeyDown? && !old(active) ==> text == old(text) && !active
      ensures !e.Click? && !e.KeyDown? ==> text == old(text) && active == old(active)
      ensures cursorVisible == old(cursorVisible) && cursorTimer == old(cursorTimer)
      ensures old(Valid()) ==> Valid()
    {
      match e {
        case Click(inside) =>
          active := inside;
        case KeyDown(k) =>
          if active {
            match k {
              case Backspace =>
                if text != [] {
                  text := text[..|text| - 1];
                }
              case Return =>
                active := false;
              case _ =>
                if |text| < maxLength {
                  if AllPrintable(Typed(k)) {
                    text := text + Typed(k);
                  }
                }
            }
          }
        case _ =>
      }
    }

    /** `update`: the cursor blink at time `now`. */
    method Update(now: int)
      modifies this
      ensures (cursorVisible, cursorTimer) == Blink(old(cursorVisible), old(cursorTimer), now)
      ensures text == old(text) && active == old(active)
    {
      if now - cursorTimer > CursorBlinkSpeed {
        cursorVisible := !cursorVisible;
        cursorTimer := now;
      }
    }

    /** `get_text`: the buffer as it is. */
    method GetText() returns (s: string)
      ensures s == text
    {
      s := text;
    }

    /** Clearing the buffer, as the battle does before each command (`command_input.text = ""`). */
    method Clear()
      modifies this
      ensures text == "" && active == old(active)
      ensures cursorVisible == old(cursorVisible) && cursorTimer == old(cursorTimer)
      ensures Valid()
    {
      text := "";
    }
  }

  /** Any run of key presses on a box within its bound leaves it within its bound. */
  lemma {:induction false} KeysKeepBound(text: string, keys: seq<Key>, maxLength: nat)
    requires |text| <= maxLength
    ensures |TypeKeys(text, keys, maxLength)| <= maxLength
    decreases |keys|
  {
    if keys != [] {
      KeysKeepBound(KeyText(text, keys[0], maxLength), keys[1..], maxLength);
    }
  }

  /** The text after a run of key presses on a box that keeps focus (no Enter among them). */
  function TypeKeys(text: string, keys: seq<Key>, maxLength: nat): string
    decreases |keys|
  {
    if keys == [] then text else TypeKeys(KeyText(text, keys[0], maxLength), keys[1..], maxLength)
  }

  /** The key presses that type the characters of `cs` one by one. */
  function PressAll(cs: string): (keys: seq<Key>)
    ensures |keys| == |cs|
    ensures forall i :: 0 <= i < |cs| ==> keys[i] == Press(cs[i])
  {
    if cs == [] then [] else [Press(cs[0])] + PressAll(cs[1..])
  }

  /** One printable key press: appended while there is room, ignored once the box is full. */
  lemma PressOne(text: string, c: char, maxLength: nat)
    requires IsPrintable(c)
    ensures |text| < maxLength ==> KeyText(text, Press(c), maxLength) == text + [c]
    ensures |text| >= maxLength ==> KeyText(text, Press(c), maxLength) == text
  {
    assert Typed(Press(c)) == [c];
  }

  /** The first key press of a run, taken off the front. */
  lemma TypeKeysFirst(text: string, cs: string, maxLength: nat)
    requires cs != []
    ensures TypeKeys(text, PressAll(cs), maxLength) == TypeKeys(KeyText(text, Press(cs[0]), maxLength), PressAll(cs[1..]), maxLength)
  {
    var keys := PressAll(cs);
    assert keys[0] == Press(cs[0]);
    assert keys[1..] == PressAll(cs[1..]);
  }

  /** Moving the first character of `cs` over to `text`. */
  lemma MoveFirst(text: string, cs: string, k: nat)
    requires k < |cs|
    ensures (text + [cs[0]]) + cs[1..][..k] == text + cs[..k + 1]
    ensures k == |cs| - 1 ==> (text + [cs[0]]) + cs[1..] == text + cs
  {
    assert cs[..k + 1] == [cs[0]] + cs[1..][..k];
    if k == |cs| - 1 {
      assert cs == [cs[0]] + cs[1..];
    }
  }

  /**
   * Typing printable characters keeps as many of them as fit: the text
   * becomes the old text followed by the first `maxLength - |text|` of them.
   */
  lemma {:induction false} TypingKeepsPrefix(text: string, cs: string, maxLength: nat)
    requires |text| <= maxLength && AllPrintable(cs)
    ensures |text| + |cs| <= maxLength ==> TypeKeys(text, PressAll(cs), maxLength) == text + cs
    ensures |text| + |cs| > maxLength ==> TypeKeys(text, PressAll(cs), maxLength) == text + cs[..maxLength - |text|]
    decreases |cs|
  {
    if cs == [] {
      assert text + cs == text;
    } else {
      var rest := cs[1..];
      assert AllPrintable(rest) by {
        forall i | 0 <= i < |rest| ensures IsPrintable(rest[i]) {
          assert rest[i] == cs[i + 1];
        }
      }
      TypeKeysFirst(text, cs, maxLength);
      PressOne(text, cs[0], maxLength);
      if |text| < maxLength {
        var t := text + [cs[0]];
        TypingKeepsPrefix(t, rest, maxLength);
        if |text| + |cs| <= maxLength {
          MoveFirst(text, cs, |rest|);
        } else {
          MoveFirst(text, cs, maxLength - |t|);
        }
      } else {
        TypingAtBoundKeepsText(text, rest, maxLength);
        assert cs[..maxLength - |text|] == [];
      }
    }
  }

  /** A full box ignores every key other than Backspace and Enter. */
  lemma {:induction false} TypingAtBoundKeepsText(text: string, cs: string, maxLength: nat)
    requires |text| == maxLength
    ensures TypeKeys(text, PressAll(cs), maxLength) == text
    decreases |cs|
  {
    if cs != [] {
      TypeKeysFirst(text, cs, maxLength);
      TypingAtBoundKeepsText(text, cs[1..], maxLength);
    }
  }
}
