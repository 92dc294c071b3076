# Okane shop game: verified model of the game state

This project models the state machine inside `OkaneApp`, the component behind
a coin-counting shop game for children. The player picks a level on the title
screen. The game then shows a good with a price, and the player taps wallet
coins into a tray until the tray pays the price exactly. The model covers:

- the level settings table;
- the price generator and its `do ... while` retry loop;
- the tray with its running total;
- the answer check;
- navigation between the title screen and the game.

It is written in three modules:

- `Coins` (`coins.dfy`): the six yen denominations as a subset type `Coin`,
  the tray total `Sum`, and the splice that takes one coin out of the tray.
  `SpliceOne` copies the tray into a fresh array and shifts the tail left,
  like `[...trayCoins]` followed by `splice(index, 1)`.
- `Levels` (`levels.dfy`): `GetLevelConfig`, the retry loop `DrawTarget`, and
  lemmas about which prices each level can produce.
- `Okane` (`okane_app.dfy`): the class `OkaneApp`. Its fields are the
  component's state: `level`, `targetAmount`, `trayAmount`, `trayCoins`,
  `feedback`, `currentGood`, `showConfetti` and `showHint`. It has one method
  per handler.
  - Every handler keeps `Valid()`. `Valid()` holds four invariants:
    - `trayAmount` is the sum of `trayCoins`;
    - a `Correct` feedback means that the tray pays the price exactly;
    - during a game, the price suits the level;
    - `currentGood` is an index into the 12-item goods catalogue.
  - Each handler's `modifies` clause names only the fields that the handler
    sets. For example, `CheckAnswer` cannot touch the tray, and `ToggleHint`
    changes only `showHint`.
  - A ghost counter `pendingTimers` records the feedback timers that are
    armed and have not fired yet.
  - `LevelOneScenario`, `LevelTwoScenario` and `LevelThreeScenario` play one
    game each, using only the handlers' contracts. In the level 3 game, a
    timer armed by a second wrong answer fires after the correct answer.

The random source is replaced by parameters:

- A price draw is an index `k`. `Math.floor(Math.random() * n + 1)` always
  gives `1 <= k <= n`, where `n` is 9, 89 or 899. Each pass of the retry loop
  uses the next index in a sequence `draws`.
- The good is an index below 12.

Each incorrect answer arms a 1.5-second timer (src/App.tsx:164). Its firing
becomes a separate handler, `ClearFeedback`, which needs an armed timer. One
might expect the timer to be cancelled when the answer or the problem changes.
The callback at src/App.tsx:164 is unconditional, and nothing cancels it, so
the model does not cancel it either. A timer that fires late can therefore
clear a `Correct` answer, and after that the tray accepts coins again.
`LevelThreeScenario` shows this.

## Model

| member | source | states |
|---|---|---|
| `Coins.Sum` | src/App.tsx:86-87 | The tray total is a natural number between the number of coins and 500 times that. It is zero exactly when the tray is empty. |
| `Coins.SumAppend` | src/App.tsx:138-139 | Appending coin `v` to the tray raises its total by `v`. This is why the incremental `prev + value` keeps the running total right. |
| `Coins.RemoveAt` | src/App.tsx:146-147 | Splicing out position `i` leaves one coin fewer. The coins before `i` keep their places, the coins after `i` move down by one, and the multiset loses exactly `s[i]`. |
| `Coins.SumRemoveAt` | src/App.tsx:145-149 | Taking out the coin at `i` lowers the total by exactly `s[i]`. This is why the incremental `prev - value` keeps the running total right. |
| `Coins.SpliceOne` | src/App.tsx:146-147 | Copying the tray into an array and shifting the tail left by one yields exactly `RemoveAt(coins, index)`. |
| `Levels.GetLevelConfig` | src/App.tsx:94-105 | Every level has maximum price 900 and a positive step. Its coins are listed strictly largest first. Every coin is a multiple of the step, and the smallest coin is the step itself. |
| `Levels.UnknownLevelIsLevelOne` | src/App.tsx:102-103 | A level other than 1, 2 or 3 gets exactly the level 1 settings. |
| `Levels.DrawTarget` | src/App.tsx:108-120 | With in-range draws, the retry loop body runs exactly once and keeps the first draw's amount. That amount is positive and at most the level's maximum, and on levels 1 to 3 it is a multiple of the step. |
| `Levels.TargetsOfLevel` | src/App.tsx:113-119 | In both directions: a price can be drawn exactly when it is 100..900 in hundreds (level 1), 10..890 in tens (level 2), or 1..899 (any other level). |
| `Levels.UnknownLevelBreaksStep` | src/App.tsx:102-103 | On a level other than 1 to 3, the valid draw 1 gives a price that is not a multiple of that level's step of 100. |
| `Levels.TargetPayable` | src/App.tsx:94-120 | On levels 1 to 3, every acceptable price can be paid exactly with that level's wallet coins. |
| `Okane.OkaneApp.constructor` | src/App.tsx:84-91 | The initial state is the title screen: level 0, price 0, an empty tray, no feedback, the first good, no confetti and no hint. |
| `Okane.OkaneApp.GenerateProblem` | src/App.tsx:107-129 | Sets the price to the first draw's amount, which is acceptable for `lvl`, and sets the chosen good. Empties the tray, sets the total to 0, clears the feedback and hides confetti and hint. Leaves `level` alone, and restores `Valid()` when `lvl` is the current level. |
| `Okane.OkaneApp.StartGame` | src/App.tsx:131-134 | Sets `level` to the chosen level, then does what `GenerateProblem` does for that level. Armed timers stay armed. |
| `Okane.OkaneApp.AddToTray` | src/App.tsx:136-141 | After a correct answer, nothing changes. Otherwise the coin is appended, the total rises by its value and the hint is hidden. The tray invariant is kept. |
| `Okane.OkaneApp.RemoveFromTray` | src/App.tsx:143-151 | After a correct answer, nothing changes. Otherwise exactly the coin at `index` is removed and the others keep their order. The total drops by that coin's value and the hint is hidden. The tray invariant is kept. |
| `Okane.OkaneApp.ToggleHint` | src/App.tsx:153-155 | Flips `showHint` and changes nothing else. |
| `Okane.OkaneApp.CheckAnswer` | src/App.tsx:157-166 | When the tray total equals the price, the feedback becomes correct and confetti and hint are shown. Otherwise the feedback becomes incorrect, one more timer is armed, and confetti and hint are unchanged. The tray is never touched. |
| `Okane.OkaneApp.ClearFeedback` | src/App.tsx:164 | One armed timer fires. Its callback sets the feedback to none whatever the state is, and keeps the invariants. |
| `Okane.OkaneApp.NextProblem` | src/App.tsx:168-170 | Keeps the level, and draws a fresh acceptable price for it with a reset tray and feedback. |
| `Okane.OkaneApp.ReturnToTitle` | src/App.tsx:172-175 | Sets level 0 and feedback none, and changes nothing else. |

## Left out

- Rendering is not modelled: the JSX, the `Coin` and `Character` components, the coin styles (`COIN_DEFS`) and the CSS animations. They are presentation only.
- `Math.random()` is not modelled. Its results are parameters: draw indices in their ranges, and a goods index below 12.
- The names and emoji of the 12 goods are not modelled; only the index is kept.
- The encouraging phrase is not modelled. The code picks it at render time, not in `checkAnswer`, and it is cosmetic.
- The 1.5-second delay of the feedback timer is not modelled, only its effect (`ClearFeedback`). When the timer fires is up to the caller.
- React's batching of state setters and its stale closures are not modelled. Each handler is one atomic update, as if every setter applied at once.
- `CheckAnswer` does not require `trayAmount > 0`. The "pay" button is disabled at zero, but the handler does not check this.
- `Okane.OkaneApp.RemoveFromTray` is not modelled for an index outside the tray. The code would then compute `NaN`, and the tray only ever passes indices of coins it shows.
- `Okane.OkaneApp.NextProblem` does not require a correct answer. The button exists only in that state, but the handler does not check it.
- JavaScript numbers are modelled as unbounded integers. Every amount in the game is a small whole number, so no rounding occurs.
