/**
 * The name input screen: a text box of at most 15 characters, a confirm
 * button that accepts a name that is not blank, and a back button.
 */
module NameInput {
  import opened Wrappers
  import opened Events
  import opened Text
  import opened TextInputs
  import opened SceneManagement

  /** The bound of the name box. */
  const MaxNameLength: nat := 15

  /** The message shown for a blank name. */
  const BlankNameMessage: string := "名前を入力してください"

  /** What a click on the screen lands on; the box and the two buttons do not overlap. */
  datatype NameHit = InputBox | ConfirmButton | BackButton | Elsewhere

  /** The event as the text box sees it: a click is inside it or not. */
  function ForBox(e: Input<NameHit>): (b: Input<bool>)
    ensures e.Click? <==> b.Click?
    ensures e.Click? ==> (b.hit <==> e.hit == InputBox)
    ensures e.KeyDown? <==> b.KeyDown?
    ensures e.KeyDown? ==> b.key == e.key
  {
    match e
    case Click(h) => Click(h == InputBox)
    case KeyDown(k) => KeyDown(k)
    case Motion => Motion
    case OtherInput => OtherInput
  }

  class NameInputScene {
    const sm: SceneManager
    const nameInput: TextInput
    var errorMessage: string
    var showError: bool

    predicate Valid()
      reads this, nameInput
    {
      nameInput.Valid() && nameInput.maxLength == MaxNameLength
    }

    constructor (sm: SceneManager)
      ensures this.sm == sm && fresh(nameInput)
      ensures nameInput.text == "" && !nameInput.active
      ensures errorMessage == "" && !showError
      ensures Valid()
    {
      this.sm := sm;
      nameInput := new TextInput(MaxNameLength);
      errorMessage := "";
      showError := false;
    }

    /**
     * `handle_event`: the box sees every event first; then a click on the
     * confirm button confirms and a click on the back button goes back.
     */
    method HandleEvent(e: Input<NameHit>)
      requires Valid()
      modifies this, nameInput, sm
      ensures Valid()
      ensures nameInput.text == (if e.KeyDown? && old(nameInput.active) then KeyText(old(nameInput.text), e.key, MaxNameLength) else old(nameInput.text))
      ensures e == Click(ConfirmButton) ==> Confirmed(old(nameInput.text), old(sm.player), old(sm.current))
      ensures e == Click(BackButton) ==> sm.current == Some(SceneManagement.Title) && sm.player == old(sm.player)
      ensures e != Click(ConfirmButton) && e != Click(BackButton) ==> sm.current == old(sm.current) && sm.player == old(sm.player)
      ensures e.Click? ==> nameInput.active == (e.hit == InputBox)
      ensures e.KeyDown? ==> nameInput.active == (old(nameInput.active) && e.key != Return)
      ensures !e.Click? && !e.KeyDown? ==> nameInput.active == old(nameInput.active)
      ensures e != Click(ConfirmButton) ==> errorMessage == old(errorMessage) && showError == old(showError)
    {
      nameInput.HandleEvent(ForBox(e));
      if e.Click? {
        if e.hit == ConfirmButton {
          ConfirmName();
        } else if e.hit == BackButton {
          GoBack();
        }
      }
    }

    /** The outcome of a confirm on the text `typed`, starting from `player` and `scene`. */
    ghost predicate Confirmed(typed: string, player: PlayerProgress.Player, scene: Option<Scene>)
      reads this, sm
    {
      match NonBlank(typed)
      case None => showError && errorMessage == BlankNameMessage && sm.player == player && sm.current == scene
      case Some(name) => sm.player == player.(name := name) && sm.current == Some(SceneManagement.Prologue)
    }

    /**
     * `confirm_name`. A blank entry shows the error and changes nothing
     * else; any other entry becomes the stripped name, which has at most
     * 15 characters, and the prologue opens.
     */
    method ConfirmName()
      requires Valid()
      modifies this, sm
      ensures Valid() && nameInput.text == old(nameInput.text)
      ensures Confirmed(nameInput.text, old(sm.player), old(sm.current))
      ensures NonBlank(nameInput.text).Some? ==> |sm.player.name| <= MaxNameLength
    {
      var typed := nameInput.GetText();
      match NonBlank(typed) {
        case None =>
          errorMessage := BlankNameMessage;
          showError := true;
        case Some(name) =>
          sm.SetPlayerName(name);
          sm.ChangeScene(SceneManagement.Prologue);
      }
    }

    /** `go_back`: the title replaces the name input; the record is untouched. */
    method GoBack()
      modifies sm
      ensures sm.current == Some(SceneManagement.Title) && sm.player == old(sm.player)
    {
      sm.ChangeScene(SceneManagement.Title);
    }

    /** `update`: the box's cursor blink; its text and focus are kept. */
    method Update(now: int)
      requires Valid()
      modifies nameInput
      ensures Valid() && nameInput.text == old(nameInput.text) && nameInput.active == old(nameInput.active)
      ensures (nameInput.cursorVisible, nameInput.cursorTimer) ==
              Blink(old(nameInput.cursorVisible), old(nameInput.cursorTimer), now)
    {
      nameInput.Update(now);
    }
  }
}
