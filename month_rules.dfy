/**
 * The pure rules of the "12 Months of Us" playback: the fixed step list,
 * the emoji set chosen by a month's game type, the classification of the
 * progress dots, the label of the next-month button, the texts the reveal
 * step shows, and the counting of collected game tokens.
 */
module MonthRules {
  import opened Wrappers

  /** One month record of `months.json`, reduced to the fields the playback logic reads. */
  datatype Month = Month(
    gameType: string,              // selects the emoji set of the collection game
    answers: map<string, string>,  // answer key -> answer text
    key: string                    // the key of the author's own answer
  )

  // ===== Steps =====

  /** The five screens of a month, in the order of the app's `steps` list. */
  datatype Step = Title | Game | Question | Reveal | Image

  const StepCount: nat := 5
  const LastStep: nat := StepCount - 1
  const GameStepIndex: nat := 1

  function StepAt(i: nat): (s: Step)
    requires i < StepCount
    ensures StepIndex(s) == i
  {
    [Title, Game, Question, Reveal, Image][i]
  }

  function StepIndex(s: Step): (i: nat)
    ensures i < StepCount
  {
    match s
    case Title => 0
    case Game => 1
    case Question => 2
    case Reveal => 3
    case Image => 4
  }

  lemma StepIndexInverse(s: Step)
    ensures StepAt(StepIndex(s)) == s
  {
  }

  /** The step the `nextStep` handler moves to: one further, and no further than the last. */
  function NextStepIndex(i: nat): (j: nat)
    requires i < StepCount
    ensures j < StepCount
    ensures i < LastStep ==> j == i + 1
    ensures i == LastStep ==> j == i
  {
    if i < StepCount - 1 then i + 1 else i
  }

  // ===== Emoji sets of the collection game =====

  const EmojiSetSize: nat := 5

  const EmojiSets: map<string, seq<string>> := map[
    "hearts" := ["💕", "💗", "💖", "💝", "❤️"],
    "flowers" := ["🌸", "🌺", "🌹", "🌷", "💐"],
    "bubbles" := ["🫧", "💭", "🔮", "⭕", "🌀"],
    "stars" := ["⭐", "🌟", "✨", "💫", "🌠"]
  ]

  /** The emoji set of a game type; an unknown type falls back to the hearts set. */
  function GameEmojis(gameType: string): (r: seq<string>)
    ensures |r| == EmojiSetSize
    ensures gameType in EmojiSets ==> r == EmojiSets[gameType]
    ensures gameType !in EmojiSets ==> r == EmojiSets["hearts"]
  {
    if gameType in EmojiSets then EmojiSets[gameType] else EmojiSets["hearts"]
  }

  /** Only the four named types have a set of their own: every other key is served the hearts set. */
  lemma GameEmojisFallback(gameType: string)
    ensures GameEmojis(gameType) == GameEmojis("hearts")
            <==> gameType !in {"flowers", "bubbles", "stars"}
  {
  }

  // ===== Progress dots =====

  /** The number of progress dots the page creates, whatever the number of months. */
  const DotCount: nat := 12

  /** The class a progress dot carries: `completed`, `current`, or neither. */
  datatype Dot = Completed | Current | Plain

  function DotClass(index: nat, currentMonth: nat): (d: Dot)
    ensures d == Completed <==> index < currentMonth
    ensures d == Current <==> index == currentMonth
    ensures d == Plain <==> index > currentMonth
  {
    if index < currentMonth then Completed
    else if index == currentMonth then Current
    else Plain
  }

  /** The classes of the first `count` dots. */
  function Dots(count: nat, currentMonth: nat): (r: seq<Dot>)
    ensures |r| == count
  {
    if count == 0 then [] else Dots(count - 1, currentMonth) + [DotClass(count - 1, currentMonth)]
  }

  /** Dot `index` carries the class of its own position. */
  lemma {:induction false} DotsAt(count: nat, currentMonth: nat, index: nat)
    requires index < count
    ensures Dots(count, currentMonth)[index] == DotClass(index, currentMonth)
  {
    if index < count - 1 {
      DotsAt(count - 1, currentMonth, index);
    }
  }

  function ProgressDots(currentMonth: nat): (r: seq<Dot>)
    ensures |r| == DotCount
  {
    Dots(DotCount, currentMonth)
  }

  /** How many entries of `s` equal `d`. */
  function CountOf(s: seq<Dot>, d: Dot): (n: nat)
    ensures n <= |s|
  {
    if |s| == 0 then 0
    else CountOf(s[..|s| - 1], d) + (if s[|s| - 1] == d then 1 else 0)
  }

  lemma CountOfSnoc(s: seq<Dot>, x: Dot, d: Dot)
    ensures CountOf(s + [x], d) == CountOf(s, d) + (if x == d then 1 else 0)
  {
  }

  /** Exactly one of the first `count` dots is current when the month lies among them, none otherwise. */
  lemma {:induction false} CurrentDotCount(count: nat, currentMonth: nat)
    ensures CountOf(Dots(count, currentMonth), Current) == if currentMonth < count then 1 else 0
  {
    if count > 0 {
      var prefix, last := Dots(count - 1, currentMonth), DotClass(count - 1, currentMonth);
      assert Dots(count, currentMonth) == prefix + [last];
      CountOfSnoc(prefix, last, Current);
      CurrentDotCount(count - 1, currentMonth);
      assert last == Current <==> count - 1 == currentMonth;
    }
  }

  /** The completed dots are exactly the months before the current one (as far as there are dots). */
  lemma {:induction false} CompletedDotCount(count: nat, currentMonth: nat)
    ensures CountOf(Dots(count, currentMonth), Completed)
            == if currentMonth < count then currentMonth else count
  {
    if count > 0 {
      var prefix, last := Dots(count - 1, currentMonth), DotClass(count - 1, currentMonth);
      assert Dots(count, currentMonth) == prefix + [last];
      CountOfSnoc(prefix, last, Completed);
      CompletedDotCount(count - 1, currentMonth);
      assert last == Completed <==> count - 1 < currentMonth;
    }
  }

  lemma ProgressDotsCurrent(currentMonth: nat)
    ensures CountOf(ProgressDots(currentMonth), Current) == if currentMonth < DotCount then 1 else 0
    ensures CountOf(ProgressDots(currentMonth), Completed)
            == if currentMonth < DotCount then currentMonth else DotCount
  {
    CurrentDotCount(DotCount, currentMonth);
    CompletedDotCount(DotCount, currentMonth);
  }

  // ===== Next-month button =====

  const FinalButtonText: string := "Xem Kết Thúc 💕"
  const NextButtonText: string := "Tháng Tiếp Theo →"

  /**
   * The label of the next-month button once month `currentMonth` is shown:
   * the ending invitation exactly when the month is the last one, i.e.
   * exactly when pressing the button will lead to the ending.
   */
  function NextButtonLabel(currentMonth: nat, monthCount: nat): (text: string)
    ensures text == FinalButtonText || text == NextButtonText
    ensures currentMonth < monthCount ==>
              (text == FinalButtonText <==> currentMonth + 1 >= monthCount)
  {
    if currentMonth as int == monthCount as int - 1 then FinalButtonText else NextButtonText
  }

  // ===== Reveal step =====

  /** The two texts of the reveal step; `None` is an absent key (the page would print `undefined`). */
  datatype RevealTexts = RevealTexts(herChoice: Option<string>, myChoice: Option<string>)

  function Lookup(answers: map<string, string>, key: string): Option<string> {
    if key in answers then Some(answers[key]) else None
  }

  /** The chosen answer's text and the correct answer's text, both from the month's one mapping. */
  function RevealFor(month: Month, selectedKey: string, correctKey: string): (r: RevealTexts)
    ensures r.herChoice.Some? <==> selectedKey in month.answers
    ensures r.myChoice.Some? <==> correctKey in month.answers
    ensures r.herChoice.Some? ==> r.herChoice.value == month.answers[selectedKey]
    ensures r.myChoice.Some? ==> r.myChoice.value == month.answers[correctKey]
  {
    RevealTexts(Lookup(month.answers, selectedKey), Lookup(month.answers, correctKey))
  }

  ghost predicate DistinctTexts(answers: map<string, string>) {
    forall k1, k2 :: k1 in answers && k2 in answers && k1 != k2 ==> answers[k1] != answers[k2]
  }

  /** With distinct answer texts, the two boxes agree exactly when the chosen key is the correct one. */
  lemma RevealAgreesIffCorrect(month: Month, selectedKey: string, correctKey: string)
    requires selectedKey in month.answers && correctKey in month.answers
    requires DistinctTexts(month.answers)
    ensures RevealFor(month, selectedKey, correctKey).herChoice
            == RevealFor(month, selectedKey, correctKey).myChoice
            <==> selectedKey == correctKey
  {
  }

  // ===== Collection game tokens =====

  /** How many tokens are marked collected (a token is `true` once collected). */
  function CollectedCount(tokens: seq<bool>): (n: nat)
    ensures n <= |tokens|
  {
    if |tokens| == 0 then 0
    else CollectedCount(tokens[..|tokens| - 1]) + (if tokens[|tokens| - 1] then 1 else 0)
  }

  lemma {:induction false} NoneCollected(n: nat)
    ensures CollectedCount(seq(n, _ => false)) == 0
  {
    if n > 0 {
      assert seq(n, _ => false)[..n - 1] == seq(n - 1, _ => false);
      NoneCollected(n - 1);
    }
  }

  /** Marking token `k` collected adds one to the count when it was uncollected, nothing otherwise. */
  lemma {:induction false} CollectOne(tokens: seq<bool>, k: nat)
    requires k < |tokens|
    ensures CollectedCount(tokens[k := true])
            == CollectedCount(tokens) + (if tokens[k] then 0 else 1)
  {
    var n := |tokens|;
    if k < n - 1 {
      assert tokens[k := true][..n - 1] == tokens[..n - 1][k := true];
      CollectOne(tokens[..n - 1], k);
    } else {
      assert tokens[k := true][..n - 1] == tokens[..n - 1];
    }
  }
}
