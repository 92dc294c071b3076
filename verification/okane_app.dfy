/** The game state of the coin-counting shop game and its event handlers.
    Each handler is one atomic update of the component's state. */
module Okane {
  import opened Coins
  import opened Levels

  /** The shopkeeper's reaction to the last payment. */
  datatype Feedback = None | Correct | Incorrect

  /** Size of the catalogue of goods a problem may show. */
  const GoodsCount: nat := 12

  class OkaneApp {
    /** 0 is the title screen, 1 to 3 a game in progress. */
    var level: int
    var targetAmount: int
    var trayAmount: int
    var trayCoins: seq<Coin>
    var feedback: Feedback
    /** Index into the goods catalogue. */
    var currentGood: nat
    var showConfetti: bool
    var showHint: bool
    /** How many feedback timers are armed and have not fired yet. Each
        incorrect answer arms one; nothing ever cancels them. */
    ghost var pendingTimers: nat

    /** The running total matches the tray, a correct answer means the tray
        pays the price exactly, during a game the price suits the level, and
        the current good is an index into the catalogue. */
    ghost predicate Valid()
      reads this
    {
      trayAmount == Sum(trayCoins) &&
      (feedback == Correct ==> trayAmount == targetAmount) &&
      (level != 0 ==> TargetOk(level, targetAmount)) &&
      currentGood < GoodsCount
    }

    /** The per-problem state is reset: empty tray, no feedback, no
        celebration and the hint hidden. */
    ghost predicate FreshProblem()
      reads this
    {
      trayCoins == [] && trayAmount == 0 && feedback == None &&
      !showConfetti && !showHint
    }

    /** The initial state: title screen, first good, nothing in the tray. */
    constructor ()
      ensures Valid() && FreshProblem()
      ensures level == 0 && targetAmount == 0 && currentGood == 0
      ensures pendingTimers == 0
    {
      level := 0;
      targetAmount := 0;
      trayAmount := 0;
      trayCoins := [];
      feedback := None;
      currentGood := 0;
      showConfetti := false;
      showHint := false;
      pendingTimers := 0;
    }

    /** Draws a new price for level `lvl` and resets the per-problem state;
        the level itself is left alone. */
    method GenerateProblem(lvl: int, draws: seq<int>, good: nat)
      requires DrawsOk(lvl, draws) && good < GoodsCount
      modifies this`targetAmount, this`trayAmount, this`trayCoins, this`feedback,
               this`currentGood, this`showConfetti, this`showHint
      ensures targetAmount == DrawnAmount(lvl, draws[0]) && TargetOk(lvl, targetAmount)
      ensures currentGood == good && FreshProblem()
      ensures lvl == level ==> Valid()
    {
      var amount, _ := DrawTarget(lvl, draws);
      targetAmount := amount;
      trayAmount := 0;
      trayCoins := [];
      feedback := None;
      currentGood := good;
      showConfetti := false;
      showHint := false;
    }

    /** Enters level `selectedLevel` with a fresh problem for it. */
    method StartGame(selectedLevel: int, draws: seq<int>, good: nat)
      requires DrawsOk(selectedLevel, draws) && good < GoodsCount
      modifies this`level, this`targetAmount, this`trayAmount, this`trayCoins,
               this`feedback, this`currentGood, this`showConfetti, this`showHint
      ensures Valid() && FreshProblem()
      ensures level == selectedLevel && currentGood == good
      ensures targetAmount == DrawnAmount(selectedLevel, draws[0])
      ensures TargetOk(selectedLevel, targetAmount)
    {
      level := selectedLevel;
      GenerateProblem(selectedLevel, draws, good);
    }

    /** Puts a coin in the tray, unless the answer is already correct. */
    method AddToTray(value: Coin)
      requires Valid()
      modifies this`trayCoins, this`trayAmount, this`showHint
      ensures Valid()
      ensures old(feedback) == Correct ==> unchanged(this)
      ensures old(feedback) != Correct ==>
                trayCoins == old(trayCoins) + [value] &&
                trayAmount == old(trayAmount) + value && !showHint
    {
      if feedback == Correct {
        return;
      }
      SumAppend(trayCoins, value);
      trayCoins := trayCoins + [value];
      trayAmount := trayAmount + value;
      showHint := false;
    }

    /** Takes the coin at position `index` out of the tray, unless the
        answer is already correct. */
    method RemoveFromTray(index: nat)
      requires Valid()
      requires feedback != Correct ==> index < |trayCoins|
      modifies this`trayCoins, this`trayAmount, this`showHint
      ensures Valid()
      ensures old(feedback) == Correct ==> unchanged(this)
      ensures old(feedback) != Correct ==>
                trayCoins == RemoveAt(old(trayCoins), index) &&
                trayAmount == old(trayAmount) - old(trayCoins)[index] && !showHint
    {
      if feedback == Correct {
        return;
      }
      var value := trayCoins[index];
      var newCoins := SpliceOne(trayCoins, index);
      SumRemoveAt(trayCoins, index);
      trayCoins := newCoins;
      trayAmount := trayAmount - value;
      showHint := false;
    }

    /** Shows or hides the running total; nothing else changes. */
    method ToggleHint()
      requires Valid()
      modifies this`showHint
      ensures Valid()
      ensures showHint == !old(showHint)
    {
      showHint := !showHint;
    }

    /** Compares the tray with the price. A match is correct and celebrated
        with the total shown; a mismatch is incorrect and arms one more
        feedback timer. The tray is not touched either way. */
    method CheckAnswer()
      requires Valid()
      modifies this`feedback, this`showConfetti, this`showHint, this`pendingTimers
      ensures Valid()
      ensures trayAmount == targetAmount ==>
                feedback == Correct && showConfetti && showHint &&
                pendingTimers == old(pendingTimers)
      ensures trayAmount != targetAmount ==>
                feedback == Incorrect &&
                showConfetti == old(showConfetti) && showHint == old(showHint) &&
                pendingTimers == old(pendingTimers) + 1
    {
      if trayAmount == targetAmount {
        feedback := Correct;
        showConfetti := true;
        showHint := true;
      } else {
        feedback := Incorrect;
        pendingTimers := pendingTimers + 1;
      }
    }

    /** One armed timer fires. Its callback clears the feedback whatever the
        state is by then, even if a later answer was correct. */
    method ClearFeedback()
      requires Valid()
      requires pendingTimers > 0
      modifies this`feedback, this`pendingTimers
      ensures Valid()
      ensures feedback == None && pendingTimers == old(pendingTimers) - 1
    {
      feedback := None;
      pendingTimers := pendingTimers - 1;
    }

    /** A new problem on the current level. */
    method NextProblem(draws: seq<int>, good: nat)
      requires Valid()
      requires DrawsOk(level, draws) && good < GoodsCount
      modifies this`targetAmount, this`trayAmount, this`trayCoins, this`feedback,
               this`currentGood, this`showConfetti, this`showHint
      ensures Valid() && FreshProblem()
      ensures currentGood == good
      ensures targetAmount == DrawnAmount(level, draws[0]) && TargetOk(level, targetAmount)
    {
      GenerateProblem(level, draws, good);
    }

    /** Back to the title screen; the abandoned problem is left as it was. */
    method ReturnToTitle()
      requires Valid()
      modifies this`level, this`feedback
      ensures Valid()
      ensures level == 0 && feedback == None
    {
      level := 0;
      feedback := None;
    }
  }

  /** Level 1, price 300: three 100-yen coins are correct, and the tray is
      then frozen. */
  method LevelOneScenario() {
    var app := new OkaneApp();
    app.StartGame(1, [3], 0);
    assert app.targetAmount == 300;
    app.AddToTray(100);
    app.AddToTray(100);
    app.AddToTray(100);
    app.CheckAnswer();
    assert app.feedback == Correct && app.showConfetti && app.showHint;
    app.AddToTray(10);
    app.RemoveFromTray(0);
    assert app.trayCoins == [100, 100, 100];
  }

  /** Level 2, price 470: four 100-yen coins, one 50 and two 10s are
      correct. */
  method LevelTwoScenario() {
    var app := new OkaneApp();
    app.StartGame(2, [47], 1);
    assert app.targetAmount == 470;
    app.AddToTray(100);
    app.AddToTray(100);
    app.AddToTray(100);
    app.AddToTray(100);
    app.AddToTray(50);
    app.AddToTray(10);
    app.AddToTray(10);
    app.CheckAnswer();
    assert app.trayAmount == 470 && app.feedback == Correct;
  }

  /** Level 3, price 37, then the title screen. A timer that fires after a
      correct answer clears it and unfreezes the tray. */
  method LevelThreeScenario() {
    var app := new OkaneApp();
    app.StartGame(3, [37], 4);
    app.AddToTray(10);
    app.AddToTray(10);
    app.AddToTray(10);

    // Thirty yen is incorrect; its timer clears the feedback and the three
    // 10-yen coins stay.
    app.CheckAnswer();
    assert app.feedback == Incorrect && app.pendingTimers == 1;
    app.ClearFeedback();
    assert app.feedback == None && app.trayCoins == [10, 10, 10];

    // Paying thirty yen again arms a second timer. Paying 5 + 1 + 1 more is
    // correct before that timer fires; when it fires it clears the correct
    // state and the tray accepts coins again.
    app.CheckAnswer();
    assert app.feedback == Incorrect && app.pendingTimers == 1;
    app.AddToTray(5);
    app.AddToTray(1);
    app.AddToTray(1);
    app.CheckAnswer();
    assert app.trayAmount == 37 && app.feedback == Correct;
    app.ClearFeedback();
    app.AddToTray(1);
    assert app.trayAmount == 38;

    // Returning to the title keeps the last problem's tray.
    app.ReturnToTitle();
    assert app.level == 0 && app.trayAmount == 38;
  }
}
