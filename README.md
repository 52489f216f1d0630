# Monty Hall simulator, modelled in Dafny

This project models the core of a small Monty Hall simulator (`MHP.py`). A
game has three doors. The prize sits behind one and the player picks one. The
host then opens a door that hides no prize and is not the player's. The player
either sticks with the first door or switches to the one door left. Two
accumulators play `num_sims` games with a fixed strategy and return the
fraction won.

- `trial.dfy`, module `Trial`: one game (`DidYouWin`). It covers the doors the
  host may open, the host's pick, the door a switching player moves to, and
  the 1/0 outcome.
- `simulation.dfy`, module `Simulation`: the two counting loops
  (`simulate_switch`, `simulate_stick`) as methods with loop invariants, the
  counts they are proved against, and lemmas relating the two strategies.

Randomness is taken out of the model:
- The host's `random.choice(canShow)` becomes the nondeterministic method
  `Reveal`, which may return any admissible door. `DidYouWin` takes the opened
  door as a parameter and requires it to be admissible.
- The two `random.randint(1, 4)` draws per game are numpy's half-open range, so
  doors 1..3. They arrive as a sequence of `Draw(prize, choice)` values, one
  per loop iteration.
- The ratio `won/num_sims` is a Dafny `real`.

`num_sims == 0` fails with a division by zero (MHP.py:56), which is the
model's `Err(ZeroDivision)`. A negative `num_sims` runs no games (MHP.py:50)
and returns `0/num_sims`, a zero ratio, and the model does the same.

The main results:
- Sticking wins exactly when the first guess was right.
- Switching wins exactly when it was wrong, whichever admissible door the host
  opened.
- On the same draws, the switching loop counts the wrong guesses and the
  sticking loop the right ones. The two counts sum to the number of games and
  the two ratios sum to one.
- Over the nine possible (prize, choice) pairs, sticking wins 3 and switching 6.

## Model

| member | source | states |
|---|---|---|
| Trial.Excluding | MHP.py:33 | the list comprehension over the doors keeps exactly the doors different from both excluded values and is no longer than its input |
| Trial.CanShow | MHP.py:31-33 | a door may be opened iff it is neither the prize nor the player's door; there are 2 such doors when the guess is right and 1 otherwise, so the list is never empty |
| Trial.Reveal | MHP.py:34 | the host's pick is always one of the admissible doors: never the prize door, never the player's door |
| Trial.SwitchedChoice | MHP.py:37 | the remaining list is non-empty so `[0]` is safe; the new door differs from the opened door and the first choice, and the three are all three doors |
| Trial.DidYouWin | MHP.py:25-41 | the result is 0 or 1; with stick it is 1 iff choice == prize, with switch it is 1 iff choice != prize, for every admissible opened door |
| Trial.OutcomeIndependentOfReveal | MHP.py:33-38 | any two admissible opened doors give the same outcome |
| Trial.PrizeTwoChoiceOne | MHP.py:33-41 | prize 2, choice 1: only door 3 can be opened, sticking loses and switching wins |
| Simulation.CountRight | MHP.py:68-71 | the number of games whose first guess was right is at most the number of games |
| Simulation.CountWrong | MHP.py:52-55 | the number of games whose first guess was wrong is at most the number of games |
| Simulation.RightPlusWrong | MHP.py:50-71 | on the same draws, right guesses plus wrong guesses equal the number of games |
| Simulation.SimulateSwitch | MHP.py:43-57 | loop invariant 0 <= won <= i and won = wrong guesses so far; fails exactly when num_sims == 0; otherwise returns wrong guesses / num_sims, which lies in [0, 1] and is exactly 0 or 1 when num_sims == 1 |
| Simulation.SimulateStick | MHP.py:59-73 | loop invariant 0 <= won <= i and won = right guesses so far; fails exactly when num_sims == 0; otherwise returns right guesses / num_sims, which lies in [0, 1] and is exactly 0 or 1 when num_sims == 1 |
| Simulation.RatioInUnitInterval | MHP.py:56 | a win count bounded by the game count, divided by a non-zero game count, lies in [0, 1] |
| Simulation.ComplementaryRatios | MHP.py:56-72 | on the same num_sims >= 1 draws, the switching ratio plus the sticking ratio equals 1 |
| Simulation.AllDraws | MHP.py:52-54 | the nine listed games hold every (prize, choice) pair the two draws can produce, each exactly once |
| Simulation.ExhaustiveCounts | MHP.py:9-11 | over the nine possible games, sticking wins 3 and switching wins 6, the discrete form of the 1/3 and 2/3 win rates |

## Left out

- The `__main__` block (MHP.py:75-99) is not modelled. It checks the argument count, parses the integer, shows a progress bar, collects both ratios for every trial count 1..num_sims in dictionaries and plots them. This is command-line and UI glue.
- numpy's random generator is not modelled. The host's pick is nondeterministic (`Reveal`) and the door draws are inputs, so nothing is said about uniformity.
- Convergence of the ratios to 1/3 and 2/3 (MHP.py:9-17) is probabilistic and is not proved. `ExhaustiveCounts` is its discrete counterpart.
- IEEE floating point is not modelled. The ratio is an exact real, so the `-0.0` Python returns for a negative `num_sims` is the real 0.
- Trial.DidYouWin: accepts only doors 1..3 (the `Door` type), while the Python function takes any integer. Every caller passes draws from 1..3.
