/**
 * The prologue: the story text, revealed line by line, then the button that
 * starts the adventure on the map.
 */
module Prologue {
  import opened Wrappers
  import opened Events
  import opened Typewriter
  import opened SceneManagement

  /** The prologue's lines; the seventh names the player. */
  function PrologueText(name: string): (lines: seq<string>)
    ensures |lines| == 12
    ensures lines[6] == "あなた、" + name + "は、この伝説を聞き、"
  {
    [ "遥か昔、アマゾンの森の奥深くには「無限の拡張性」と呼ばれる伝説の秘宝が隠されていたという。",
      "その秘宝は持ち主に無限の可能性と力をもたらすと言われていた。",
      "",
      "しかし、秘宝は七人のAWS守護者によって厳重に守られており、",
      "彼らの試練を乗り越えた者だけが秘宝を手に入れることができるという。",
      "",
      "あなた、" + name + "は、この伝説を聞き、",
      "アマゾンの森への冒険を決意した。",
      "",
      "AWS知識を武器に、七つの試練に挑み、伝説の秘宝を手に入れることができるだろうか？",
      "",
      "あなたの冒険が今、始まる..." ]
  }

  /** The events the prologue reacts to: any click, and Space or Enter. */
  predicate Acts(e: Input<bool>)
  {
    e.Click? || (e.KeyDown? && IsConfirmKey(e.key))
  }

  class PrologueScene {
    const sm: SceneManager
    const lines: seq<string>
    var currentLine: nat
    var textProgress: nat
    var textComplete: bool

    /** The three counters as one value. */
    function State(): Reveal
      reads this
    {
      Reveal(currentLine, textProgress, textComplete)
    }

    predicate Valid()
      reads this
    {
      Typewriter.Valid(lines, State())
    }

    /** The text is built from the player's name as it is when the scene opens. */
    constructor (sm: SceneManager)
      ensures this.sm == sm && lines == PrologueText(sm.player.name)
      ensures State() == Start && Valid()
    {
      this.sm := sm;
      lines := PrologueText(sm.player.name);
      currentLine := 0;
      textProgress := 0;
      textComplete := false;
    }

    /**
     * `handle_event`. Before the text is complete, a click or Space/Enter
     * skips to its end; afterwards a click on the button or Space/Enter
     * starts the adventure. Nothing else reacts, and the player record is
     * never touched.
     */
    method HandleEvent(e: Input<bool>)
      modifies this, sm
      ensures Acts(e) && !old(textComplete) ==> State() == Skip(lines) && sm.current == old(sm.current)
      ensures Acts(e) && old(textComplete) ==> State() == old(State())
      ensures Acts(e) && old(textComplete) && (e.KeyDown? || e.hit) ==> sm.current == Some(Map)
      ensures Acts(e) && old(textComplete) && e.Click? && !e.hit ==> sm.current == old(sm.current)
      ensures !Acts(e) ==> State() == old(State()) && sm.current == old(sm.current)
      ensures sm.current != old(sm.current) ==> old(textComplete) && sm.current == Some(Map)
      ensures sm.player == old(sm.player)
      ensures old(Valid()) ==> Valid()
    {
      match e {
        case Click(onButton) =>
          if textComplete {
            if onButton {
              StartAdventure();
            }
          } else {
            SkipText();
          }
        case KeyDown(k) =>
          if k == Space || k == Return {
            if textComplete {
              StartAdventure();
            } else {
              SkipText();
            }
          }
        case _ =>
      }
    }

    method SkipText()
      modifies this
      ensures State() == Skip(lines)
    {
      textComplete := true;
      currentLine := |lines|;
      textProgress := 0;
    }

    /** `update`: one frame of the reveal. */
    method Update()
      modifies this
      ensures State() == Step(lines, old(State()))
      ensures old(Valid()) ==> Valid()
    {
      if !textComplete {
        if currentLine < |lines| {
          var currentText := lines[currentLine];
          if textProgress < |currentText| {
            textProgress := textProgress + TextSpeed;
            if textProgress >= |currentText| {
              textProgress := 0;
              currentLine := currentLine + 1;
            }
          } else {
            textProgress := 0;
            currentLine := currentLine + 1;
          }
        } else {
          textComplete := true;
        }
      }
    }

    /** `start_adventure`: the map replaces the prologue. */
    method StartAdventure()
      modifies sm
      ensures sm.current == Some(Map) && sm.player == old(sm.player)
    {
      sm.ChangeScene(Map);
    }
  }
}
