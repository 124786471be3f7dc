/**
 * The ending: the epilogue text, revealed like the prologue, then a credits
 * overlay and a button that resets the session and goes back to the title.
 */
module Ending {
  import opened Wrappers
  import opened Events
  import opened Typewriter
  import opened SceneManagement
  import opened PlayerProgress

  /** The epilogue's lines; the first and the eleventh name the player. */
  function EndingText(name: string): (lines: seq<string>)
    ensures |lines| == 12
    ensures lines[0] == "ついに、" + name + "は七人のAWS守護者全ての試練をクリアした。"
    ensures lines[10] == name + "の冒険は終わったが、"
  {
    [ "ついに、" + name + "は七人のAWS守護者全ての試練をクリアした。",
      "",
      "最後の守護者が消えると、眩い光が森の中心から放たれ、",
      "伝説の秘宝「無限の拡張性」が姿を現した。",
      "",
      "それは単なる物体ではなく、AWSの真髄そのものだった。",
      "",
      "「無限の拡張性」を手に入れた冒険者は、",
      "クラウドの真の力を理解し、どんな課題も乗り越えられるようになったという。",
      "",
      name + "の冒険は終わったが、",
      "AWSの世界での新たな冒険はこれからも続いていく..." ]
  }

  /** What a click on the ending screen lands on; the two buttons do not overlap. */
  datatype EndingHit = CreditsButton | TitleButton | Elsewhere

  class EndingScene {
    const sm: SceneManager
    const lines: seq<string>
    var currentLine: nat
    var textProgress: nat
    var textComplete: bool
    var showingCredits: bool

    function State(): Reveal
      reads this
    {
      Reveal(currentLine, textProgress, textComplete)
    }

    predicate Valid()
      reads this
    {
      Typewriter.Valid(lines, State())
    }

    /** The text is built from the player's name as it is when the scene opens. */
    constructor (sm: SceneManager)
      ensures this.sm == sm && lines == EndingText(sm.player.name)
      ensures State() == Start && !showingCredits && Valid()
    {
      this.sm := sm;
      lines := EndingText(sm.player.name);
      currentLine := 0;
      textProgress := 0;
      textComplete := false;
      showingCredits := false;
    }

    /**
     * `handle_event`. While the credits are shown, a click or Space/Enter
     * only hides them. Otherwise, before the text is complete, a click or
     * Space/Enter skips to its end; afterwards Space/Enter or the credits
     * button shows the credits, and the title button resets the session.
     */
    method HandleEvent(e: Input<EndingHit>)
      modifies this, sm
      ensures old(showingCredits) && (e.Click? || (e.KeyDown? && IsConfirmKey(e.key))) ==>
                !showingCredits && State() == old(State()) &&
                sm.current == old(sm.current) && sm.player == old(sm.player)
      ensures !old(showingCredits) && !old(textComplete) && (e.Click? || (e.KeyDown? && IsConfirmKey(e.key))) ==>
                State() == Skip(lines) && !showingCredits &&
                sm.current == old(sm.current) && sm.player == old(sm.player)
      ensures !old(showingCredits) && old(textComplete) && ((e.KeyDown? && IsConfirmKey(e.key)) || e == Click(CreditsButton)) ==>
                showingCredits && State() == old(State()) &&
                sm.current == old(sm.current) && sm.player == old(sm.player)
      ensures !old(showingCredits) && old(textComplete) && e == Click(TitleButton) ==>
                sm.current == Some(Title) && sm.player == InitialPlayer("") && !showingCredits
      ensures !old(showingCredits) && old(textComplete) && e == Click(Elsewhere) ==>
                showingCredits == old(showingCredits) && State() == old(State()) &&
                sm.current == old(sm.current) && sm.player == old(sm.player)
      ensures !e.Click? && !(e.KeyDown? && IsConfirmKey(e.key)) ==>
                State() == old(State()) && showingCredits == old(showingCredits) &&
                sm.current == old(sm.current) && sm.player == old(sm.player)
      ensures State() == old(State()) || State() == Skip(lines)
      ensures old(Valid()) ==> Valid()
    {
      match e {
        case Click(hit) =>
          if showingCredits {
            showingCredits := false;
            return;
          }
          if textComplete {
            if hit == CreditsButton {
              ShowCredits();
            } else if hit == TitleButton {
              ReturnToTitle();
            }
          } else {
            SkipText();
          }
        case KeyDown(k) =>
          if k == Space || k == Return {
            if showingCredits {
              showingCredits := false;
            } else if textComplete {
              ShowCredits();
            } else {
              SkipText();
            }
          }
        case _ =>
      }
    }

    method SkipText()
      modifies this
      ensures State() == Skip(lines) && showingCredits == old(showingCredits)
    {
      textComplete := true;
      currentLine := |lines|;
      textProgress := 0;
    }

    /** `update`: one frame of the reveal; the credits flag is left alone. */
    method Update()
      modifies this
      ensures State() == Step(lines, old(State()))
      ensures showingCredits == old(showingCredits)
      ensures old(Valid()) ==> Valid()
    {
      if !textComplete {
        if currentLine < |lines| {
          var currentText := lines[currentLine];
          if textProgress < |currentText| {
            textProgress := textProgress + TextSpeed;
            if textProgress >= |currentText| {
              textProgress := 0;
              currentLine := currentLine + 1;
            }
          } else {
            textProgress := 0;
            currentLine := currentLine + 1;
          }
        } else {
          textComplete := true;
        }
      }
    }

    /** `show_credits`. */
    method ShowCredits()
      modifies this
      ensures showingCredits && State() == old(State())
    {
      showingCredits := true;
    }

    /** `return_to_title`: the whole record goes back to its defaults, name included, and the title replaces the ending. */
    method ReturnToTitle()
      modifies sm
      ensures sm.player == InitialPlayer("") && sm.current == Some(Title)
      ensures sm.Valid() && !IsGameOver(sm.player) && !IsGameCompleted(sm.player)
    {
      sm.player := InitialPlayer("");
      InitialPlayerFacts("");
      sm.ChangeScene(Title);
    }
  }
}
