/**
 * The typing animation: a timer-driven state machine over the shown text,
 * the index of the current word and the typing/deleting mode. Each timer
 * firing is one step; the delays before a step are the component's
 * `typingSpeed`, `deletingSpeed` and `pauseDuration` in milliseconds.
 */
module Typing {

  datatype State = State(displayText: string, wordIndex: nat, isDeleting: bool)

  /** The delays, in milliseconds, and their defaults. */
  datatype Timing = Timing(typingSpeed: nat, deletingSpeed: nat, pauseDuration: nat)

  const DefaultTiming: Timing := Timing(80, 40, 1500)

  const Initial: State := State("", 0, false)

  /** The shown text is a prefix of the current word, and the word index is in range. */
  predicate Inv(words: seq<string>, s: State) {
    s.wordIndex < |words| && s.displayText <= words[s.wordIndex]
  }

  lemma InitialInv(words: seq<string>)
    requires |words| > 0
    ensures Inv(words, Initial)
  {
  }

  /** The state after the next change, as the effect's timer callback makes it. */
  function Step(words: seq<string>, s: State): (r: State)
    requires Inv(words, s)
    ensures Inv(words, r)
    ensures -1 <= |r.displayText| - |s.displayText| <= 1
  {
    var word := words[s.wordIndex];
    if !s.isDeleting then
      if |s.displayText| < |word| then s.(displayText := word[..|s.displayText| + 1])
      else s.(isDeleting := true)
    else
      if |s.displayText| > 0 then s.(displayText := s.displayText[..|s.displayText| - 1])
      else State(s.displayText, (s.wordIndex + 1) % |words|, false)
  }

  /** Milliseconds from the state `s` being shown to its successor; a finished word waits for the pause too. */
  function Delay(t: Timing, words: seq<string>, s: State): (ms: nat)
    requires Inv(words, s)
    ensures s.isDeleting ==> ms == t.deletingSpeed
    ensures !s.isDeleting && Step(words, s).isDeleting ==> ms == t.typingSpeed + t.pauseDuration
    ensures !s.isDeleting && !Step(words, s).isDeleting ==> ms == t.typingSpeed
  {
    if s.isDeleting then t.deletingSpeed
    else if |s.displayText| < |words[s.wordIndex]| then t.typingSpeed
    else t.typingSpeed + t.pauseDuration
  }

  /** The state after `k` steps and the milliseconds they take. */
  function Run(t: Timing, words: seq<string>, s: State, k: nat): (r: (State, nat))
    requires Inv(words, s)
    ensures Inv(words, r.0)
    decreases k
  {
    if k == 0 then (s, 0)
    else
      var (last, ms) := Run(t, words, Step(words, s), k - 1);
      (last, Delay(t, words, s) + ms)
  }

  /** Running `a` steps and then `b` steps is running `a + b` steps. */
  lemma {:induction false} RunCompose(t: Timing, words: seq<string>, s: State, a: nat, b: nat)
    requires Inv(words, s)
    ensures var (mid, ms1) := Run(t, words, s, a);
      var (last, ms2) := Run(t, words, mid, b);
      Run(t, words, s, a + b) == (last, ms1 + ms2)
    decreases a
  {
    if a > 0 {
      RunCompose(t, words, Step(words, s), a - 1, b);
    }
  }

  /** Typing the rest of the word from `j` characters shown: one character per step. */
  lemma {:induction false} TypeOut(t: Timing, words: seq<string>, i: nat, j: nat)
    requires i < |words| && j <= |words[i]|
    ensures Run(t, words, State(words[i][..j], i, false), |words[i]| - j) ==
      (State(words[i], i, false), (|words[i]| - j) * t.typingSpeed)
    decreases |words[i]| - j
  {
    if j < |words[i]| {
      var k := |words[i]| - j;
      var s := State(words[i][..j], i, false);
      assert Step(words, s) == State(words[i][..j + 1], i, false);
      assert Delay(t, words, s) == t.typingSpeed;
      TypeOut(t, words, i, j + 1);
      assert Run(t, words, s, k).1 == t.typingSpeed + (k - 1) * t.typingSpeed;
      assert t.typingSpeed + (k - 1) * t.typingSpeed == k * t.typingSpeed;
    } else {
      assert words[i][..j] == words[i];
    }
  }

  /** Deleting `j` shown characters: one character per step. */
  lemma {:induction false} DeleteOut(t: Timing, words: seq<string>, i: nat, j: nat)
    requires i < |words| && j <= |words[i]|
    ensures Run(t, words, State(words[i][..j], i, true), j) == (State("", i, true), j * t.deletingSpeed)
  {
    if j > 0 {
      var s := State(words[i][..j], i, true);
      assert Step(words, s) == State(words[i][..j - 1], i, true);
      DeleteOut(t, words, i, j - 1);
      assert Run(t, words, s, j).1 == t.deletingSpeed + (j - 1) * t.deletingSpeed;
      assert t.deletingSpeed + (j - 1) * t.deletingSpeed == j * t.deletingSpeed;
    }
  }

  /**
   * One full cycle: starting to type word `i`, the animation types it,
   * pauses, deletes it and starts the next word (wrapping to the first) after
   * `2|w| + 2` steps and `(|w| + 1) * (typing + deleting) + pause` milliseconds.
   */
  lemma WordCycle(t: Timing, words: seq<string>, i: nat)
    requires i < |words|
    ensures var n := |words[i]|;
      Run(t, words, State("", i, false), 2 * n + 2) ==
        (State("", (i + 1) % |words|, false),
         (n + 1) * (t.typingSpeed + t.deletingSpeed) + t.pauseDuration)
  {
    var n := |words[i]|;
    TypeAndPause(t, words, i);
    DeleteAndAdvance(t, words, i);
    RunCompose(t, words, State("", i, false), n + 1, n + 1);
    CycleTime(n, t);
  }

  /** The milliseconds of one cycle, regrouped. */
  lemma CycleTime(n: nat, t: Timing)
    ensures (n + 1) * t.typingSpeed + t.pauseDuration + (n + 1) * t.deletingSpeed
         == (n + 1) * (t.typingSpeed + t.deletingSpeed) + t.pauseDuration
  {
  }

  /** Typing word `i` from nothing and waiting out the pause: `|w| + 1` steps. */
  lemma TypeAndPause(t: Timing, words: seq<string>, i: nat)
    requires i < |words|
    ensures var n := |words[i]|;
      Run(t, words, State("", i, false), n + 1) ==
        (State(words[i], i, true), (n + 1) * t.typingSpeed + t.pauseDuration)
  {
    var n := |words[i]|;
    assert words[i][..0] == "";
    TypeOut(t, words, i, 0);
    assert Run(t, words, State(words[i], i, false), 1) ==
      (State(words[i], i, true), t.typingSpeed + t.pauseDuration);
    RunCompose(t, words, State("", i, false), n, 1);
  }

  /** Deleting the whole word `i` and moving to the next: `|w| + 1` steps. */
  lemma DeleteAndAdvance(t: Timing, words: seq<string>, i: nat)
    requires i < |words|
    ensures var n := |words[i]|;
      Run(t, words, State(words[i], i, true), n + 1) ==
        (State("", (i + 1) % |words|, false), (n + 1) * t.deletingSpeed)
  {
    var n := |words[i]|;
    assert words[i][..n] == words[i];
    DeleteOut(t, words, i, n);
    assert Run(t, words, State("", i, true), 1) == (State("", (i + 1) % |words|, false), t.deletingSpeed);
    RunCompose(t, words, State(words[i], i, true), n, 1);
  }

  class TypingEffect {
    const words: seq<string>
    const timing: Timing
    var displayText: string
    var wordIndex: nat
    var isDeleting: bool

    function Current(): State
      reads this
    {
      State(displayText, wordIndex, isDeleting)
    }

    ghost predicate Valid()
      reads this
    {
      Inv(words, Current())
    }

    constructor (words: seq<string>, timing: Timing)
      requires |words| > 0
      ensures Valid()
      ensures this.words == words && this.timing == timing && Current() == Initial
    {
      this.words := words;
      this.timing := timing;
      displayText, wordIndex, isDeleting := "", 0, false;
    }

    /** One firing of the effect's timer; `elapsed` is the time it waited. */
    method Tick() returns (elapsed: nat)
      requires Valid()
      modifies this
      ensures Valid()
      ensures Current() == Step(words, old(Current()))
      ensures elapsed == Delay(timing, words, old(Current()))
    {
      var currentWord := words[wordIndex];
      elapsed := if isDeleting then timing.deletingSpeed else timing.typingSpeed;
      if !isDeleting {
        if |displayText| < |currentWord| {
          displayText := currentWord[..|displayText| + 1];
        } else {
          elapsed := elapsed + timing.pauseDuration;
          isDeleting := true;
        }
      } else {
        if |displayText| > 0 {
          displayText := displayText[..|displayText| - 1];
        } else {
          isDeleting := false;
          wordIndex := (wordIndex + 1) % |words|;
        }
      }
    }
  }
}
