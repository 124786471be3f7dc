/**
 * The few Python string operations the game relies on: `str.strip()`,
 * `str.lower()`, the substring test `a in b` and `str.isprintable()`.
 * Strings are sequences of Unicode scalar values, as Python's are.
 */
module Text {
  import opened Wrappers

  /** Python's `str.isspace()` for one character: the characters `str.strip()` removes. */
  predicate IsSpace(c: char)
  {
    || ('\t' <= c <= '\r')
    || ('\U{1C}' <= c <= '\U{1F}')
    || c == ' ' || c == '\U{85}' || c == '\U{A0}' || c == '\U{1680}'
    || ('\U{2000}' <= c <= '\U{200A}')
    || c == '\U{2028}' || c == '\U{2029}' || c == '\U{202F}' || c == '\U{205F}'
    || c == '\U{3000}'
  }

  /** Every character of `s` is whitespace. */
  predicate AllSpace(s: string)
  {
    forall k :: 0 <= k < |s| ==> IsSpace(s[k])
  }

  /** `s.lstrip()`: the longest suffix of `s` that does not start with whitespace. */
  function TrimLeft(s: string): (r: string)
    ensures |r| <= |s| && r == s[|s| - |r|..]
    ensures r == [] || !IsSpace(r[0])
    ensures AllSpace(s[..|s| - |r|])
  {
    if s == [] || !IsSpace(s[0]) then s
    else
      var t := TrimLeft(s[1..]);
      var removed := s[..|s| - |t|];
      assert AllSpace(removed) by {
        forall k | 0 <= k < |removed| ensures IsSpace(removed[k]) {
          if k > 0 {
            assert removed[k] == s[1..][..|s[1..]| - |t|][k - 1];
          }
        }
      }
      t
  }

  /** `s.rstrip()`: the longest prefix of `s` that does not end in whitespace. */
  function TrimRight(s: string): (r: string)
    ensures |r| <= |s| && r == s[..|r|]
    ensures r == [] || !IsSpace(r[|r| - 1])
    ensures AllSpace(s[|r|..])
  {
    if s == [] || !IsSpace(s[|s| - 1]) then s
    else
      var t := TrimRight(s[..|s| - 1]);
      var removed := s[|t|..];
      assert AllSpace(removed) by {
        forall k | 0 <= k < |removed| ensures IsSpace(removed[k]) {
          if k < |removed| - 1 {
            assert removed[k] == s[..|s| - 1][|t|..][k];
          }
        }
      }
      t
  }

  /** `s.strip()`: `s` without its leading and trailing whitespace. */
  function Strip(s: string): (r: string)
    ensures |r| <= |s|
    ensures r == [] || (!IsSpace(r[0]) && !IsSpace(r[|r| - 1]))
  {
    TrimRight(TrimLeft(s))
  }

  /** A text strips to nothing exactly when it is made of whitespace only. */
  lemma StripEmptyIffAllSpace(s: string)
    ensures Strip(s) == [] <==> AllSpace(s)
  {
  }

  /**
   * The stripped text when it is not empty, None for a blank text: the test
   * `text.strip()` followed by `if not text` that both the name box and the
   * command box make. A result is never longer than the text and has no
   * surrounding whitespace.
   */
  function NonBlank(s: string): (r: Option<string>)
    ensures r.None? <==> AllSpace(s)
    ensures r.Some? ==> r.value == Strip(s) && r.value != []
    ensures r.Some? ==> |r.value| <= |s| && !IsSpace(r.value[0]) && !IsSpace(r.value[|r.value| - 1])
  {
    StripEmptyIffAllSpace(s);
    var t := Strip(s);
    if t == [] then None else Some(t)
  }

  /** Leading whitespace in front of a text that does not start with whitespace is all `lstrip` removes. */
  lemma {:induction false} TrimLeftSpaces(before: string, rest: string)
    requires AllSpace(before) && (rest == [] || !IsSpace(rest[0]))
    ensures TrimLeft(before + rest) == rest
    decreases |before|
  {
    if before != [] {
      assert (before + rest)[1..] == before[1..] + rest;
      TrimLeftSpaces(before[1..], rest);
    } else {
      assert before + rest == rest;
    }
  }

  /** Trailing whitespace behind a text that does not end in whitespace is all `rstrip` removes. */
  lemma {:induction false} TrimRightSpaces(rest: string, after: string)
    requires AllSpace(after) && (rest == [] || !IsSpace(rest[|rest| - 1]))
    ensures TrimRight(rest + after) == rest
    decreases |after|
  {
    if after != [] {
      assert (rest + after)[..|rest + after| - 1] == rest + after[..|after| - 1];
      TrimRightSpaces(rest, after[..|after| - 1]);
    } else {
      assert rest + after == rest;
    }
  }

  /** Stripping a text padded with whitespace on both sides gives back the text. */
  lemma StripOfSpaced(before: string, name: string, after: string)
    requires AllSpace(before) && AllSpace(after)
    requires name != [] && !IsSpace(name[0]) && !IsSpace(name[|name| - 1])
    ensures Strip(before + name + after) == name
  {
    assert before + name + after == before + (name + after);
    TrimLeftSpaces(before, name + after);
    TrimRightSpaces(name, after);
  }

  /** A text made of a non-blank run between whitespace is accepted as that run. */
  lemma NonBlankOfSpaced(before: string, name: string, after: string)
    requires AllSpace(before) && AllSpace(after)
    requires name != [] && !IsSpace(name[0]) && !IsSpace(name[|name| - 1])
    ensures NonBlank(before + name + after) == Some(name)
  {
    StripOfSpaced(before, name, after);
  }

  /**
   * `str.lower()` for one character. Only the ASCII and the full-width Latin
   * capitals are mapped; every other character, the Japanese scripts among
   * them, is its own lower case.
   */
  function LowerChar(c: char): char
  {
    if 'A' <= c <= 'Z' then (c as int + 32) as char
    else if '\U{FF21}' <= c <= '\U{FF3A}' then (c as int + 32) as char
    else c
  }

  /** `s.lower()`, character by character. */
  function Lower(s: string): (r: string)
    ensures |r| == |s|
    ensures forall k :: 0 <= k < |s| ==> r[k] == LowerChar(s[k])
  {
    seq(|s|, k requires 0 <= k < |s| => LowerChar(s[k]))
  }

  /** `w` is a prefix of `s`. */
  predicate IsPrefix(w: string, s: string)
  {
    |w| <= |s| && s[..|w|] == w
  }

  /** Python's `w in s` for strings: `w` occurs somewhere in `s` (the empty string occurs everywhere). */
  predicate IsSubstring(w: string, s: string)
    decreases |s|
  {
    IsPrefix(w, s) || (s != [] && IsSubstring(w, s[1..]))
  }

  /** `w` occurs in `s` starting at position `i`. */
  predicate OccursAt(w: string, s: string, i: int)
  {
    0 <= i <= |s| - |w| && s[i..i + |w|] == w
  }

  /** The recursive substring test agrees with the positional one. */
  lemma {:induction false} IsSubstringAt(w: string, s: string)
    ensures IsSubstring(w, s) <==> exists i :: OccursAt(w, s, i)
    decreases |s|
  {
    if IsPrefix(w, s) {
      assert OccursAt(w, s, 0);
    } else if s == [] {
    } else {
      IsSubstringAt(w, s[1..]);
      if exists i :: OccursAt(w, s, i) {
        var i :| OccursAt(w, s, i);
        assert i != 0;
        assert s[1..][i - 1..i - 1 + |w|] == s[i..i + |w|];
        assert OccursAt(w, s[1..], i - 1);
      }
      if IsSubstring(w, s[1..]) {
        var i :| OccursAt(w, s[1..], i);
        assert s[1..][i..i + |w|] == s[i + 1..i + 1 + |w|];
        assert OccursAt(w, s, i + 1);
      }
    }
  }

  /** A text that contains `w` between two other texts has `w` as a substring. */
  lemma SubstringOfConcat(w: string, before: string, after: string)
    ensures IsSubstring(w, before + w + after)
  {
    var s := before + w + after;
    assert s[|before|..|before| + |w|] == w;
    assert OccursAt(w, s, |before|);
    IsSubstringAt(w, s);
  }

  /** Lower-casing distributes over concatenation. */
  lemma LowerConcat(a: string, b: string)
    ensures Lower(a + b) == Lower(a) + Lower(b)
  {
  }

  /**
   * Python's `str.isprintable()` for one character, approximated: control
   * characters, the non-ASCII separators, the common format characters and
   * the private-use area are not printable; everything else is.
   */
  predicate IsPrintable(c: char)
  {
    && !(c < ' ')
    && !('\U{7F}' <= c <= '\U{9F}')
    && (c == ' ' || !IsSpace(c))
    && c != '\U{AD}'
    && !('\U{200B}' <= c <= '\U{200F}')
    && !('\U{202A}' <= c <= '\U{202E}')
    && !('\U{2060}' <= c <= '\U{2064}')
    && c != '\U{FEFF}'
    && !('\U{E000}' <= c <= '\U{F8FF}')
  }
}
