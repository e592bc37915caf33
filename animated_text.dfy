/**
 * The typewriter effect of the AnimatedText component. Its state is
 * (currentIndex, displayText, isDeleting); every time the effect's timeout
 * fires, exactly one transition happens: type one more character, start
 * deleting once the text is complete, delete one character, or, once the
 * display is empty again, move on to the next text (cyclically).
 */
module AnimatedText {

  datatype TypeState = TypeState(currentIndex: nat, displayText: string, isDeleting: bool)

  /** The three `useState` initial values. */
  const Initial: TypeState := TypeState(0, "", false)

  /** Delay of the next step in milliseconds (`typeSpeed`). */
  const TypingDelay: nat := 100
  const DeletingDelay: nat := 50

  /** `a` is a prefix of `b`. */
  predicate IsPrefix(a: string, b: string)
  {
    |a| <= |b| && b[..|a|] == a
  }

  /**
   * The states the component can be in: a text to show exists (the component
   * reads `texts[currentIndex].length`, so an empty list throws), the index
   * is in range, and what is displayed is a prefix of the current text.
   */
  predicate Valid(texts: seq<string>, s: TypeState)
  {
    0 < |texts| && s.currentIndex < |texts| && IsPrefix(s.displayText, texts[s.currentIndex])
  }

  /** One firing of the timeout callback. */
  function Next(texts: seq<string>, s: TypeState): (r: TypeState)
    requires Valid(texts, s)
    ensures Valid(texts, r)
    ensures var t := texts[s.currentIndex];
      && (!s.isDeleting && |s.displayText| < |t| ==>
            r == s.(displayText := s.displayText + [t[|s.displayText|]]))
      && (!s.isDeleting && |s.displayText| == |t| ==> r == s.(isDeleting := true))
      && (s.isDeleting && |s.displayText| > 0 ==>
            r.isDeleting && r.currentIndex == s.currentIndex && r.displayText + [s.displayText[|s.displayText| - 1]] == s.displayText)
      && (s.isDeleting && s.displayText == "" ==>
            r == TypeState((s.currentIndex + 1) % |texts|, "", false))
  {
    var currentText := texts[s.currentIndex];
    var n := |s.displayText|;
    if !s.isDeleting then
      if n < |currentText| then
        assert currentText[..n + 1] == currentText[..n] + [currentText[n]];
        s.(displayText := currentText[..n + 1])
      else
        s.(isDeleting := true)
    else if n > 0 then
      assert s.displayText[..n - 1] == currentText[..n - 1];
      s.(displayText := s.displayText[..n - 1])
    else
      TypeState((s.currentIndex + 1) % |texts|, s.displayText, false)
  }

  /** `k` timeout firings in a row. */
  function Steps(texts: seq<string>, s: TypeState, k: nat): (r: TypeState)
    requires Valid(texts, s)
    ensures Valid(texts, r)
    decreases k
  {
    if k == 0 then s else Steps(texts, Next(texts, s), k - 1)
  }

  /** `typeSpeed`: deleting runs at twice the speed of typing. */
  function TypeSpeed(isDeleting: bool): (ms: nat)
    ensures isDeleting <==> ms == DeletingDelay
    ensures !isDeleting <==> ms == TypingDelay
  {
    if isDeleting then DeletingDelay else TypingDelay
  }

  lemma {:induction false} StepsAdd(texts: seq<string>, s: TypeState, m: nat, n: nat)
    requires Valid(texts, s)
    ensures Steps(texts, s, m + n) == Steps(texts, Steps(texts, s, m), n)
    decreases m
  {
    if m > 0 {
      StepsAdd(texts, Next(texts, s), m - 1, n);
    }
  }

  /** Typing from any prefix reaches the full text, one character per step. */
  lemma {:induction false} TypingCompletes(texts: seq<string>, i: nat, j: nat)
    requires i < |texts| && j <= |texts[i]|
    ensures Valid(texts, TypeState(i, texts[i][..j], false))
    ensures Steps(texts, TypeState(i, texts[i][..j], false), |texts[i]| - j) == TypeState(i, texts[i], false)
    decreases |texts[i]| - j
  {
    var t := texts[i];
    var s := TypeState(i, t[..j], false);
    if j == |t| {
      assert t[..j] == t;
    } else {
      assert Next(texts, s) == TypeState(i, t[..j + 1], false) by {
        assert t[..j] + [t[j]] == t[..j + 1];
      }
      TypingCompletes(texts, i, j + 1);
    }
  }

  /** Deleting removes one character per step until the display is empty. */
  lemma {:induction false} DeletingEmpties(texts: seq<string>, i: nat, j: nat)
    requires i < |texts| && j <= |texts[i]|
    ensures Valid(texts, TypeState(i, texts[i][..j], true))
    ensures Steps(texts, TypeState(i, texts[i][..j], true), j) == TypeState(i, "", true)
    decreases j
  {
    var t := texts[i];
    var s := TypeState(i, t[..j], true);
    if j > 0 {
      assert Next(texts, s) == TypeState(i, t[..j - 1], true) by {
        assert t[..j][..j - 1] == t[..j - 1];
      }
      DeletingEmpties(texts, i, j - 1);
    }
  }

  /**
   * One full cycle on text `t` takes 2·|t| + 2 steps: |t| to type it, one to
   * switch to deleting, |t| to delete it, and one to move to the next text.
   */
  lemma Cycle(texts: seq<string>, i: nat)
    requires i < |texts|
    ensures Valid(texts, TypeState(i, "", false))
    ensures Steps(texts, TypeState(i, "", false), 2 * |texts[i]| + 2) == TypeState((i + 1) % |texts|, "", false)
  {
    var n := |texts[i]|;
    TypeThenTurn(texts, i);
    DeleteThenAdvance(texts, i);
    StepsAdd(texts, TypeState(i, "", false), n + 1, n + 1);
  }

  /** From an empty display, |t| steps type `t` and one more starts deleting it. */
  lemma TypeThenTurn(texts: seq<string>, i: nat)
    requires i < |texts|
    ensures Valid(texts, TypeState(i, "", false))
    ensures Steps(texts, TypeState(i, "", false), |texts[i]| + 1) == TypeState(i, texts[i], true)
  {
    var t := texts[i];
    var full := TypeState(i, t, false);
    assert t[..0] == "";
    TypingCompletes(texts, i, 0);
    assert Steps(texts, full, 1) == TypeState(i, t, true);
    StepsAdd(texts, TypeState(i, "", false), |t|, 1);
  }

  /** From the full text while deleting, |t| steps empty the display and one more moves to the next text. */
  lemma DeleteThenAdvance(texts: seq<string>, i: nat)
    requires i < |texts|
    ensures Valid(texts, TypeState(i, texts[i], true))
    ensures Steps(texts, TypeState(i, texts[i], true), |texts[i]| + 1) == TypeState((i + 1) % |texts|, "", false)
  {
    var t := texts[i];
    var empty := TypeState(i, "", true);
    assert t[..|t|] == t;
    DeletingEmpties(texts, i, |t|);
    assert Steps(texts, empty, 1) == TypeState((i + 1) % |texts|, "", false);
    StepsAdd(texts, TypeState(i, t, true), |t|, 1);
  }

  /** The component: its four `useState` hooks and the two timers' callbacks. */
  class Typewriter {
    const texts: seq<string>
    var currentIndex: nat
    var displayText: string
    var isDeleting: bool
    var showCursor: bool

    function State(): TypeState
      reads this
    {
      TypeState(currentIndex, displayText, isDeleting)
    }

    ghost predicate Inv()
      reads this
    {
      Valid(texts, State())
    }

    constructor (texts: seq<string>)
      requires |texts| > 0
      ensures this.texts == texts && State() == Initial && showCursor
      ensures Inv()
    {
      this.texts := texts;
      currentIndex := 0;
      displayText := "";
      isDeleting := false;
      showCursor := true;
    }

    /** The effect's `setTimeout` callback. */
    method Tick()
      requires Inv()
      modifies this
      ensures Inv()
      ensures State() == Next(texts, old(State()))
      ensures showCursor == old(showCursor)
    {
      var currentText := texts[currentIndex];
      if !isDeleting {
        if |displayText| < |currentText| {
          displayText := currentText[..|displayText| + 1];
        } else {
          isDeleting := true;
        }
      } else {
        if |displayText| > 0 {
          displayText := displayText[..|displayText| - 1];
        } else {
          isDeleting := false;
          currentIndex := (currentIndex + 1) % |texts|;
        }
      }
    }

    /** The blink interval: `setShowCursor((prev) => !prev)`. */
    method BlinkCursor()
      modifies this
      ensures showCursor == !old(showCursor)
      ensures State() == old(State())
    {
      showCursor := !showCursor;
    }
  }
}
