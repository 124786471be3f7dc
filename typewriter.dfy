/**
 * The typewriter reveal of the two story screens: each frame uncovers
 * `TextSpeed` more characters of the current line, moves to the next line
 * once the current one is shown in full (an empty line takes one frame),
 * and one frame after the last line marks the text complete. A click or
 * Space/Enter skips straight to the end.
 */
module Typewriter {

  /** Characters uncovered per frame. */
  const TextSpeed: nat := 3

  /** The counters `current_line` and `text_progress` and the flag `text_complete`. */
  datatype Reveal = Reveal(currentLine: nat, textProgress: nat, textComplete: bool)

  /** The state of a story screen when it opens. */
  const Start: Reveal := Reveal(0, 0, false)

  /**
   * What the counters keep true: the line index never passes the number of
   * lines, the progress stays inside the current line (or is 0), and the
   * text is complete only once every line has been passed.
   */
  predicate Valid(lines: seq<string>, r: Reveal)
  {
    && r.currentLine <= |lines|
    && (r.currentLine < |lines| ==> r.textProgress == 0 || r.textProgress < |lines[r.currentLine]|)
    && (r.currentLine == |lines| ==> r.textProgress == 0)
    && (r.textComplete ==> r.currentLine == |lines|)
  }

  /** The skip: everything shown at once. */
  function Skip(lines: seq<string>): (r: Reveal)
    ensures Valid(lines, r) && r.textComplete
    ensures r.currentLine == |lines| && r.textProgress == 0
  {
    Reveal(|lines|, 0, true)
  }

  /**
   * One `update()` of the reveal. It does nothing once the text is complete,
   * keeps the counters valid, and otherwise moves strictly forward: to a
   * later line, further into the same line, or to completion.
   */
  function Step(lines: seq<string>, r: Reveal): (r': Reveal)
    ensures r.textComplete ==> r' == r
    ensures Valid(lines, r) ==> Valid(lines, r')
    ensures !r.textComplete && r.currentLine < |lines| ==>
              !r'.textComplete &&
              (r'.currentLine == r.currentLine + 1 ||
               (r'.currentLine == r.currentLine && r'.textProgress > r.textProgress))
    ensures !r.textComplete && r.currentLine >= |lines| ==> r' == r.(textComplete := true)
  {
    if r.textComplete then r
    else if r.currentLine < |lines| then
      var len := |lines[r.currentLine]|;
      if r.textProgress < len then
        var p := r.textProgress + TextSpeed;
        if p >= len then Reveal(r.currentLine + 1, 0, false) else Reveal(r.currentLine, p, false)
      else
        Reveal(r.currentLine + 1, 0, false)
    else
      r.(textComplete := true)
  }

  /** `k` frames of the reveal. */
  function Iterate(lines: seq<string>, r: Reveal, k: nat): Reveal
    decreases k
  {
    if k == 0 then r else Iterate(lines, Step(lines, r), k - 1)
  }

  /** Frames a line of `len` characters still needs when `progress` of it is shown. */
  function FramesForLine(len: nat, progress: nat): (n: nat)
    ensures n >= 1
    ensures progress < len ==> (n - 1) * TextSpeed < len - progress <= n * TextSpeed
  {
    if progress >= len then 1 else (len - progress + TextSpeed - 1) / TextSpeed
  }

  /** Frames the lines from index `i` on need, plus the frame that marks the text complete. */
  function FramesFromLine(lines: seq<string>, i: nat): (n: nat)
    ensures n >= 1
    decreases |lines| - i
  {
    if i >= |lines| then 1 else FramesForLine(|lines[i]|, 0) + FramesFromLine(lines, i + 1)
  }

  /** Frames still needed until the text is complete. */
  function FramesLeft(lines: seq<string>, r: Reveal): nat
  {
    if r.textComplete then 0
    else if r.currentLine < |lines| then
      FramesForLine(|lines[r.currentLine]|, r.textProgress) + FramesFromLine(lines, r.currentLine + 1)
    else 1
  }

  /** Every frame before completion uses up exactly one of the frames left. */
  lemma StepUsesOneFrame(lines: seq<string>, r: Reveal)
    requires Valid(lines, r) && !r.textComplete
    ensures FramesLeft(lines, r) >= 1
    ensures FramesLeft(lines, Step(lines, r)) == FramesLeft(lines, r) - 1
  {
    if r.currentLine < |lines| {
      var len := |lines[r.currentLine]|;
      if r.textProgress < len {
        var p := r.textProgress + TextSpeed;
        if p < len {
          assert FramesForLine(len, p) == FramesForLine(len, r.textProgress) - 1;
        }
      }
    }
  }

  /**
   * From any valid state, the text is complete after `k` more frames exactly
   * when `k` is at least the number of frames left: the reveal terminates,
   * and not a frame earlier.
   */
  lemma {:induction false} CompleteExactlyAfterFramesLeft(lines: seq<string>, r: Reveal, k: nat)
    requires Valid(lines, r)
    ensures Valid(lines, Iterate(lines, r, k))
    ensures Iterate(lines, r, k).textComplete <==> k >= FramesLeft(lines, r)
    decreases k
  {
    if k > 0 {
      if r.textComplete {
        CompleteExactlyAfterFramesLeft(lines, r, k - 1);
      } else {
        StepUsesOneFrame(lines, r);
        CompleteExactlyAfterFramesLeft(lines, Step(lines, r), k - 1);
      }
    }
  }

  /**
   * A story screen left alone finishes its text after one frame per
   * `TextSpeed` characters of each line (rounded up, one frame for an empty
   * line) and one final frame, and stays complete from then on.
   */
  lemma StoryFinishes(lines: seq<string>, k: nat)
    ensures Valid(lines, Start)
    ensures Iterate(lines, Start, k).textComplete <==> k >= FramesFromLine(lines, 0)
    ensures k >= FramesFromLine(lines, 0) ==> Iterate(lines, Start, k) == Skip(lines)
  {
    CompleteExactlyAfterFramesLeft(lines, Start, k);
    if |lines| > 0 {
      assert FramesLeft(lines, Start) == FramesFromLine(lines, 0);
    }
  }
}
