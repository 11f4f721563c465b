/**
 * The playback state of the "12 Months of Us" page: which month and step
 * is shown, the once-only answer latch, the collection mini-game, the
 * pending timer callbacks and the ending.  The handlers and timer
 * callbacks that change the playback state are methods that the
 * environment calls.
 */
module Playback {
  import opened Wrappers
  import opened MonthRules

  /** A callback the page has handed to `setTimeout` and that has not run yet. */
  datatype Timer =
    | RevealAnswer(selectedKey: string, correctKey: string)  // 500 ms after an answer is chosen
    | AdvanceAfterReveal                                      // 1200 ms after the reveal
    | AdvanceAfterGame                                        // 500 ms after the last token

  class TwelveMonthsApp {
    /** The month list of `months.json`, read once before the journey starts. */
    const months: seq<Month>
    const gameTarget: nat := 5

    var started: bool          // the intro screen has been left
    var ended: bool            // the ending screen is shown
    var currentMonth: nat
    var currentStep: nat
    var selectedAnswer: Option<string>
    var gameCollected: nat
    /** The tokens in the game area, in spawn order; `true` marks a collected token. */
    var tokens: seq<bool>
    /** The emoji set the current game draws its tokens from. */
    var gameEmojis: seq<string>
    /** The classes of the progress dots. */
    var dots: seq<Dot>
    /** The text of the next-month button. */
    var nextLabel: string
    /** The texts last written into the reveal step, if any. */
    var revealed: Option<RevealTexts>
    /** The pending timer callbacks, in the order they were scheduled. */
    var timers: seq<Timer>

    /** How many post-game advances the current game has scheduled. */
    ghost var gameAdvances: nat

    ghost predicate Valid()
      reads this
    {
      && currentStep < StepCount
      && (currentMonth < |months| || currentMonth == 0)
      && |tokens| <= gameTarget
      && gameCollected <= CollectedCount(tokens)
      && gameAdvances <= 1
      && (gameAdvances == 1 ==> CollectedCount(tokens) == |tokens|)
      && |dots| == DotCount
    }

    /** The state once `months.json` has been read and the intro is shown. */
    constructor (months: seq<Month>)
      ensures Valid()
      ensures this.months == months
      ensures !started && !ended
      ensures currentMonth == 0 && currentStep == 0
      ensures selectedAnswer == None && gameCollected == 0 && gameTarget == 5
      ensures tokens == [] && timers == [] && revealed == None
      ensures dots == seq(DotCount, _ => Plain)
    {
      this.months := months;
      started, ended := false, false;
      currentMonth, currentStep := 0, 0;
      selectedAnswer := None;
      gameCollected := 0;
      tokens := [];
      gameEmojis := [];
      dots := seq(DotCount, _ => Plain);
      nextLabel := NextButtonText;
      revealed := None;
      timers := [];
      gameAdvances := 0;
    }

    /** The start button: leave the intro and load the first month. */
    method StartJourney()
      requires Valid()
      modifies this`started, this`ended, this`currentMonth, this`currentStep, this`selectedAnswer
      modifies this`gameCollected, this`dots, this`nextLabel
      modifies this`tokens, this`gameEmojis, this`gameAdvances
      ensures Valid()
      ensures started
      ensures |months| == 0 ==>
                && ended
                && currentMonth == old(currentMonth) && currentStep == old(currentStep)
                && selectedAnswer == old(selectedAnswer) && gameCollected == old(gameCollected)
                && dots == old(dots) && nextLabel == old(nextLabel)
      ensures |months| > 0 ==>
                && ended == old(ended)
                && currentMonth == 0 && currentStep == 0
                && selectedAnswer == None && gameCollected == 0
                && dots == ProgressDots(0) && nextLabel == NextButtonLabel(0, |months|)
      ensures tokens == old(tokens) && gameEmojis == old(gameEmojis)
    {
      started := true;
      LoadMonth(0);
    }

    /**
     * Show month `monthIndex` from its title card, or pass to the ending
     * when there is no such month (then the cursor stays where it was).
     */
    method LoadMonth(monthIndex: nat)
      requires Valid()
      modifies this`ended, this`currentMonth, this`currentStep, this`selectedAnswer
      modifies this`gameCollected, this`dots, this`nextLabel
      modifies this`tokens, this`gameEmojis, this`gameAdvances
      ensures Valid()
      ensures monthIndex >= |months| ==>
                && ended
                && currentMonth == old(currentMonth) && currentStep == old(currentStep)
                && selectedAnswer == old(selectedAnswer) && gameCollected == old(gameCollected)
                && dots == old(dots) && nextLabel == old(nextLabel)
      ensures monthIndex < |months| ==>
                && ended == old(ended)
                && currentMonth == monthIndex && currentStep == 0
                && selectedAnswer == None && gameCollected == 0
                && dots == ProgressDots(monthIndex)
                && nextLabel == NextButtonLabel(monthIndex, |months|)
      ensures tokens == old(tokens) && gameEmojis == old(gameEmojis)
    {
      if monthIndex >= |months| {
        ShowEnding();
      } else {
        currentMonth := monthIndex;
        currentStep := 0;
        selectedAnswer := None;
        gameCollected := 0;
        UpdateProgressDots();
        PopulateMonthData();
        ShowStep(0);
      }
    }

    /** Switch to the ending screen. */
    method ShowEnding()
      modifies this`ended
      ensures ended
    {
      ended := true;
    }

    /** The state part of filling in a month: the text of the next-month button. */
    method PopulateMonthData()
      requires currentMonth < |months|
      modifies this`nextLabel
      ensures nextLabel == NextButtonLabel(currentMonth, |months|)
      ensures nextLabel == FinalButtonText <==> currentMonth + 1 == |months|
    {
      nextLabel := NextButtonLabel(currentMonth, |months|);
    }

    /** Give every progress dot the class its position has relative to the current month. */
    method UpdateProgressDots()
      requires Valid()
      modifies this`dots
      ensures Valid()
      ensures dots == ProgressDots(currentMonth)
    {
      var i := 0;
      while i < |dots|
        invariant |dots| == DotCount
        invariant i <= |dots|
        invariant forall j :: 0 <= j < i ==> dots[j] == ProgressDots(currentMonth)[j]
      {
        DotsAt(DotCount, currentMonth, i);
        dots := dots[i := DotClass(i, currentMonth)];
        i := i + 1;
      }
    }

    /** Bring step `stepIndex` on screen; entering the game step starts a new game. */
    method ShowStep(stepIndex: nat)
      requires Valid()
      requires stepIndex < StepCount
      requires stepIndex == GameStepIndex ==> |months| > 0
      modifies this`tokens, this`gameCollected, this`gameEmojis, this`gameAdvances
      ensures Valid()
      ensures stepIndex == GameStepIndex ==> GameStarted()
      ensures stepIndex != GameStepIndex ==>
                tokens == old(tokens) && gameCollected == old(gameCollected)
                && gameEmojis == old(gameEmojis) && gameAdvances == old(gameAdvances)
    {
      if stepIndex == GameStepIndex {
        StartGame();
      }
    }

    /** The title-card and reveal-step handler: one step further, unless on the last step. */
    method NextStep()
      requires Valid()
      requires |months| > 0
      modifies this`currentStep, this`tokens, this`gameCollected, this`gameEmojis, this`gameAdvances
      ensures Valid()
      ensures currentStep == NextStepIndex(old(currentStep))
      ensures old(currentStep) < LastStep ==> currentStep == old(currentStep) + 1
      ensures old(currentStep) == LastStep ==> currentStep == old(currentStep)
      ensures currentStep == GameStepIndex && old(currentStep) != GameStepIndex ==> GameStarted()
      ensures !(currentStep == GameStepIndex && old(currentStep) != GameStepIndex) ==>
                tokens == old(tokens) && gameCollected == old(gameCollected)
                && gameEmojis == old(gameEmojis)
    {
      if currentStep < StepCount - 1 {
        currentStep := currentStep + 1;
        ShowStep(currentStep);
      }
    }

    /** The next-month button: load the month after the current one, or the ending after the last. */
    method NextMonth()
      requires Valid()
      modifies this`ended, this`currentMonth, this`currentStep, this`selectedAnswer
      modifies this`gameCollected, this`dots, this`nextLabel
      modifies this`tokens, this`gameEmojis, this`gameAdvances
      ensures Valid()
      ensures old(currentMonth) + 1 < |months| ==>
                && ended == old(ended)
                && currentMonth == old(currentMonth) + 1 && currentStep == 0
                && selectedAnswer == None && gameCollected == 0
                && dots == ProgressDots(currentMonth)
                && nextLabel == NextButtonLabel(currentMonth, |months|)
      ensures old(currentMonth) + 1 >= |months| ==>
                && ended
                && currentMonth == old(currentMonth) && currentStep == old(currentStep)
                && selectedAnswer == old(selectedAnswer) && gameCollected == old(gameCollected)
                && dots == old(dots) && nextLabel == old(nextLabel)
      ensures tokens == old(tokens) && gameEmojis == old(gameEmojis)
    {
      LoadMonth(currentMonth + 1);
    }

    // ===== Answer selection =====

    /** The latch test: JavaScript truthiness of the recorded key (`null` and `""` are falsy). */
    predicate AnswerLatched()
      reads this
    {
      selectedAnswer.Some? && selectedAnswer.value != ""
    }

    /**
     * An answer button: record the first selection of the month and
     * schedule the reveal; once a selection is latched, do nothing.
     */
    method SelectAnswer(selectedKey: string, correctKey: string)
      requires Valid()
      modifies this`selectedAnswer, this`timers
      ensures Valid()
      ensures old(AnswerLatched()) ==>
                selectedAnswer == old(selectedAnswer) && timers == old(timers)
      ensures !old(AnswerLatched()) ==>
                selectedAnswer == Some(selectedKey)
                && timers == old(timers) + [RevealAnswer(selectedKey, correctKey)]
      ensures selectedKey != "" ==> AnswerLatched()
    {
      if AnswerLatched() {
        return;
      }
      selectedAnswer := Some(selectedKey);
      timers := timers + [RevealAnswer(selectedKey, correctKey)];
    }

    /** Drop pending timer `k` from the queue, as the event loop does when it runs it. */
    method TakeTimer(k: nat) returns (t: Timer)
      requires k < |timers|
      modifies this`timers
      ensures t == old(timers)[k]
      ensures timers == old(timers)[..k] + old(timers)[k + 1..]
    {
      t := timers[k];
      timers := timers[..k] + timers[k + 1..];
    }

    /**
     * The 500 ms callback of an answer: write the chosen and the correct
     * answer's texts into the reveal step and schedule the advance.
     */
    method FireRevealTimer(k: nat)
      requires Valid()
      requires |months| > 0
      requires k < |timers| && timers[k].RevealAnswer?
      modifies this`timers, this`revealed
      ensures Valid()
      ensures revealed == Some(RevealFor(months[currentMonth],
                                         old(timers)[k].selectedKey, old(timers)[k].correctKey))
      ensures timers == old(timers)[..k] + old(timers)[k + 1..] + [AdvanceAfterReveal]
    {
      var t := TakeTimer(k);
      revealed := Some(RevealFor(months[currentMonth], t.selectedKey, t.correctKey));
      timers := timers + [AdvanceAfterReveal];
    }

    /** The 1200 ms callback after the reveal, and the 500 ms callback after a won game: `nextStep`. */
    method FireAdvanceTimer(k: nat)
      requires Valid()
      requires |months| > 0
      requires k < |timers| && (timers[k].AdvanceAfterReveal? || timers[k].AdvanceAfterGame?)
      modifies this`timers, this`currentStep
      modifies this`tokens, this`gameCollected, this`gameEmojis, this`gameAdvances
      ensures Valid()
      ensures currentStep == NextStepIndex(old(currentStep))
      ensures timers == old(timers)[..k] + old(timers)[k + 1..]
      ensures old(currentStep) == 0 ==> GameStarted()
      ensures old(currentStep) != 0 ==>
                tokens == old(tokens) && gameCollected == old(gameCollected)
                && gameEmojis == old(gameEmojis)
    {
      var _ := TakeTimer(k);
      NextStep();
    }

    // ===== Collection game =====

    /** A game has just begun: nothing collected, `gameTarget` fresh tokens, nothing scheduled yet. */
    ghost predicate GameStarted()
      reads this
      requires currentMonth < |months|
    {
      && gameCollected == 0
      && tokens == seq(gameTarget, _ => false)
      && gameEmojis == GameEmojis(months[currentMonth].gameType)
      && gameAdvances == 0
    }

    /** Clear the game area, reset the count and spawn `gameTarget` uncollected tokens. */
    method StartGame()
      requires Valid()
      requires |months| > 0
      modifies this`tokens, this`gameCollected, this`gameEmojis, this`gameAdvances
      ensures Valid()
      ensures GameStarted()
    {
      tokens := [];
      gameCollected := 0;
      gameAdvances := 0;
      gameEmojis := GameEmojis(months[currentMonth].gameType);
      for i := 0 to gameTarget
        invariant tokens == seq(i, _ => false)
        invariant gameCollected == 0 && gameAdvances == 0
        invariant gameEmojis == GameEmojis(months[currentMonth].gameType)
      {
        tokens := tokens + [false];  // spawnGameElement
      }
      NoneCollected(gameTarget);
    }

    /**
     * The click handler of token `k`: a collected token ignores the click;
     * otherwise it is marked, the count grows by one, and the click that
     * reaches the target schedules the advance.
     */
    method CollectToken(k: nat) returns (scheduled: bool)
      requires Valid()
      requires k < |tokens|
      modifies this`tokens, this`gameCollected, this`timers, this`gameAdvances
      ensures Valid()
      ensures old(tokens[k]) ==>
                tokens == old(tokens) && gameCollected == old(gameCollected) && !scheduled
      ensures !old(tokens[k]) ==>
                tokens == old(tokens)[k := true] && gameCollected == old(gameCollected) + 1
      ensures scheduled <==> !old(tokens[k]) && gameCollected == gameTarget
      ensures timers == if scheduled then old(timers) + [AdvanceAfterGame] else old(timers)
      ensures gameAdvances == old(gameAdvances) + (if scheduled then 1 else 0)
      ensures gameCollected <= gameTarget
    {
      scheduled := false;
      if tokens[k] {
        return;
      }
      CollectOne(tokens, k);
      tokens := tokens[k := true];
      gameCollected := gameCollected + 1;
      if gameCollected >= gameTarget {
        timers := timers + [AdvanceAfterGame];
        gameAdvances := gameAdvances + 1;
        scheduled := true;
      }
    }
  }
}
