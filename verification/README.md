# Pacman Enrichment Center: the `TestCase` evaluation engine

This project models the evaluation engine of the Pacman Enrichment Center, the
`TestCase` class of `enrichment/test_case.py`, in Dafny, and proves properties
of the model. A test case is a decoded JSON configuration (`data`). Running it
plays a number of capture-the-flag games between the student's team
("myTeam") and a baseline ("baselineTeam"). The run records one verdict per
game, the average score and the win/loss counts in `results`. It then invokes
the requested checks by name and turns their values into an exit code, 0 or 2.
Custom checks can be injected from another object. Configurations are
validated before they are loaded.

Modules:

- `PyValues` (`py_values.dfy`): the Python values the engine meets (None,
  bool, int, float as an exact real, str, list, dict), its exceptions as a
  `Result`, truthiness, `== False`, and `list.count`.
- `Trials` (`trials.dfy`): `generate_team`, the game loop of
  `__run_iterations__` as specification functions (`Play`, `Total`,
  `Verdicts`, `IterationsSpec`) and what a run publishes (`Publish`).
- `Tolerance` (`tolerance.dfy`): the `all_games_won` check as a
  specification: the number of removal rounds a tolerance buys, what the
  rounds leave (`Forgive`) and the `and`-reduction of the rest.
- `Checks` (`checks.dfy`): the other two built-in checks, the `check`
  decorator's wrapper, the dispatch loop of `run` over the check names, the
  exit code, and the merge performed by `inject_custom`.
- `Config` (`config.dfy`): `is_compliant` over an already-decoded file.
- `TestCases` (`test_case.dfy`): the `TestCase` class. Its fields `data`,
  `results` and `registry` (the check attributes) are updated in place by
  imperative methods. Each method is proved against the specification
  functions above.

The game engine and `random.choice` are parameters. The engine is a
function from the iteration number and the red and blue agents to red's final
score. The chooser is a function from the iteration number to the ordering
picked.

### Where the code departs from its own description

The model follows the code. The following behaviours differ from what the
docstrings and the check titles suggest, and each is stated as a lemma:

- Line 68 adds the magnitude of every game score. `avg_score` is therefore
  never negative. `MagnitudeNotSignedMean` shows scores 5, -3, -3 averaging
  11/3.
- Lines 74 and 76 judge the running total, not the game just played.
  `RunningTotalHidesALoss` shows a lost game recorded as passed, and
  `OpponentAsRedFailsEverything` shows that with red not "myTeam" and ties
  off, every game fails.
- Line 99 runs `tolerance + 1` removal rounds. `ToleranceForgivesOneMore`
  shows `t + 1` failures forgiven.
- Line 104 falls through to `None` when the rounds remove every verdict
  (`ForgivenToNothingIsNone`). The exit code does not count None as a
  failure (`NoneIsNotAFailure`).
- `count(False)` at line 242 uses Python equality, so a check returning `0`
  or `0.0` also counts as failed (`ExitCode`).
- A check named twice runs twice (`OneValuePerInvocation`).
- Zero iterations pass `is_compliant` and then divide by zero at line 78
  (`CompliantZeroIterations`).

## Model

| member | source | states |
|---|---|---|
| PyValues.Count | enrichment/test_case.py:82-83 | `tests.count(b)` is at most the length, and zero exactly when no entry equals `b` |
| PyValues.CountPartition | enrichment/test_case.py:82-83 | on a verdict list, `count(True) + count(False)` is the list's length |
| PyValues.CountFalse | enrichment/test_case.py:242 | `count(False)` is positive exactly when some entry equals False (False, 0 or 0.0) |
| PyValues.CountFalseOfBools | enrichment/test_case.py:82-83 | on bool values, `count(False)` is the number of false verdicts |
| Trials.GenerateTeam | enrichment/test_case.py:123-132 | "random" yields one of the two orderings; a dict yields its red and blue entries; a missing `team` raises KeyError |
| Trials.TeamErrorIgnoresChoice | enrichment/test_case.py:129-132 | when `generate_team` raises, it raises the same exception whatever the random choice |
| Trials.Total | enrichment/test_case.py:68 | the running score is zero exactly when every game scored zero |
| Trials.Verdicts | enrichment/test_case.py:60-76 | one verdict per game played |
| Trials.VerdictAt | enrichment/test_case.py:73-76 | verdict `k` judges the running total of games `0..k` |
| Trials.Play | enrichment/test_case.py:60-66 | `n` iterations play `n` games |
| Trials.IterationsSummary | enrichment/test_case.py:58-83 | after a run, `len(tests) == iterations`; the passed and failed counts add up to it; `avg_score` is the sum of score magnitudes over the iterations, never negative, and positive exactly when some game scored non-zero |
| Trials.NegativeIterations | enrichment/test_case.py:60-78 | a negative iteration count plays nothing and publishes no verdicts with average 0 |
| Trials.FixedTeamGames | enrichment/test_case.py:129-132 | with a fixed team every game has the configured red agent |
| Trials.OpponentAsRedFailsEverything | enrichment/test_case.py:68-76 | when red is not "myTeam" and ties are off, every verdict is False and `passed_tests` is 0 |
| Trials.RunningTotalHidesALoss | enrichment/test_case.py:73-74 | a game lost after a larger win is still recorded as passed |
| Trials.MagnitudeNotSignedMean | enrichment/test_case.py:68-78 | scores 5, -3, -3 give an average of 11/3, not the signed mean |
| Tolerance.RemoveFirstFalse | enrichment/test_case.py:100-101 | removes exactly one False when there is one, and otherwise leaves the list unchanged; adds no element |
| Tolerance.RemoveFirstFalseEarliest | enrichment/test_case.py:100-101 | the entry removed is the earliest one equal to False (False, 0 or 0.0), and the other entries keep their order |
| Tolerance.Forgive | enrichment/test_case.py:99-102 | `k` rounds remove `min(k, #False)` entries, all of them False, and add none |
| Tolerance.ForgiveDropsEarliest | enrichment/test_case.py:99-102 | `k` rounds delete exactly the earliest `k` entries equal to False (all of them if fewer) and keep the rest in their original order |
| Tolerance.FirstFalseLikeGoes | enrichment/test_case.py:100-101 | one round on `[0, False, True]` removes the `0`, which is the first entry equal to False |
| Tolerance.ForgiveStep | enrichment/test_case.py:99-102 | one more round removes the earliest remaining False, if any |
| Tolerance.Ceil | enrichment/test_case.py:99 | the least integer not below its argument: the number of rounds the counter runs |
| Tolerance.TolerancePasses | enrichment/test_case.py:96-99 | no tolerance means no rounds; an int tolerance `t > 0` buys `t + 1` rounds and `t <= 0` none |
| Tolerance.CeilOfInt | enrichment/test_case.py:99 | the loop bound for an int tolerance is reached after exactly `tolerance + 1` rounds |
| Tolerance.FoldAnd | enrichment/test_case.py:93-105 | the `and`-reduction returns one of its inputs, truthy exactly when all of them are |
| Tolerance.ReduceAnd | enrichment/test_case.py:105 | `reduce(add_bool, l)` returns an element of `l`, truthy exactly when all entries are |
| Tolerance.AllGamesWonSpec | enrichment/test_case.py:92-107 | False without a `tests` entry; True only for a non-empty verdict list |
| Tolerance.AllGamesWonOfList | enrichment/test_case.py:94-105 | on a list, the check reduces what the rounds leave, or yields None when nothing is left |
| Tolerance.PositiveTolerance | enrichment/test_case.py:97-99 | a positive numeric tolerance buys `ceil(tolerance + 1)` rounds |
| Tolerance.ReduceAndOfBools | enrichment/test_case.py:104-105 | on bools, the reduction is True exactly when no entry is False |
| Tolerance.AllGamesWonOnVerdicts | enrichment/test_case.py:92-107 | with `k` rounds: False when more than `k` games failed; otherwise True when some game passed, else None |
| Tolerance.ToleranceForgivesOneMore | enrichment/test_case.py:97-105 | an int tolerance `t > 0` forgives `t + 1` failures |
| Tolerance.NoToleranceNeedsEveryGame | enrichment/test_case.py:92-105 | without a positive tolerance the check is True iff there are games and all passed |
| Tolerance.ForgivenToNothingIsNone | enrichment/test_case.py:104-107 | when the rounds remove every verdict, the check returns None, not False |
| Checks.CheckSpec | enrichment/test_case.py:42-49 | a wrapped check stores its value under its data field and returns that value; no other key changes; a raising check changes nothing |
| Checks.OneValuePerInvocation | enrichment/test_case.py:235-237 | a completed loop collects one value per occurrence of a check's name |
| Checks.ErrorEndsLoop | enrichment/test_case.py:235-237 | the first exception a check raises ends the loop; later names change nothing |
| Checks.AnnotationsAreNotSkipped | enrichment/test_case.py:236-237 | `__annotations__` (from the annotation at line 25) is an attribute of the case, so naming it as a check stops the loop with an error instead of being skipped |
| Checks.UnknownNameIsSkipped | enrichment/test_case.py:236-240 | inserting a name no attribute has changes neither the values nor `results` |
| Checks.ExitCode | enrichment/test_case.py:242-248 | the code is 0 or 2, and 2 exactly when some value equals False |
| Checks.NoneIsNotAFailure | enrichment/test_case.py:242-248 | a check returning None never changes the exit code |
| Checks.Merge | enrichment/test_case.py:200-206 | every existing check keeps its binding; a name is added iff the case has no attribute of that name and the value is callable, bound to the incoming value |
| Checks.MajorityIsStrict | enrichment/test_case.py:116-121 | after a run, `majority_win` is True iff more than half the games passed, so a 5-5 split is False |
| Checks.AverageOverZeroIffNonZeroGame | enrichment/test_case.py:109-114 | after a run, `average_over_zero` is True iff some game scored non-zero |
| Config.Compliant | enrichment/test_case.py:159-180 | false iff a required key is missing, or `allow_ties`/`print_avg_score` is present but not a bool, or `tolerance` is present but not an int; a compliant tolerance never makes `all_games_won` raise |
| Config.IsCompliant | enrichment/test_case.py:154-182 | a missing file is not compliant; True iff the file holds an object that is compliant |
| Config.RequiredValuesUnchecked | enrichment/test_case.py:159-164 | the values of the required keys never affect compliance |
| Config.CompliantZeroIterations | enrichment/test_case.py:159-180 | a compliant configuration with zero iterations raises ZeroDivisionError when run |
| TestCases.RunExitStatus | enrichment/test_case.py:233-248 | a completed run returns 0 or 2, and 2 exactly when an invoked check returned a value equal to False |
| TestCases.EmptyCheckListPasses | enrichment/test_case.py:233-248 | an empty check list exits with 0 |
| TestCases.UnknownChecksPass | enrichment/test_case.py:235-248 | when no name is an attribute, the run exits with 0 whatever the games |
| TestCases.UnknownNamesSkipped | enrichment/test_case.py:235-240 | names that are not attributes invoke nothing and change nothing |
| TestCases.GameAppended | enrichment/test_case.py:68-76 | one more game adds its magnitude to the total and its verdict to the list |
| TestCases.TestCase.constructor | enrichment/test_case.py:19-121 | a fresh case has empty data and results and exactly the three built-in checks |
| TestCases.TestCase.Load | enrichment/test_case.py:189-192 | a compliant file becomes `data`; otherwise ValueError (or the exception of `is_compliant`) and `data` is unchanged |
| TestCases.TestCase.RunIterations | enrichment/test_case.py:58-83 | publishes exactly the aggregate of `IterationsSpec`, or raises its exception leaving `results` unchanged |
| TestCases.TestCase.PlayIterations | enrichment/test_case.py:60-76 | the loop computes the running total and verdicts of `Play`, or the exception of `generate_team` |
| TestCases.TestCase.AllGamesWon | enrichment/test_case.py:92-107 | returns what `AllGamesWonSpec` specifies and changes no field |
| TestCases.TestCase.ForgiveRounds | enrichment/test_case.py:98-102 | the while loop leaves the list after `ceil(bound)` removal rounds |
| TestCases.TestCase.EvalBody | enrichment/test_case.py:86-121 | calling an undecorated check returns its specified value |
| TestCases.TestCase.RunCheck | enrichment/test_case.py:42-49 | a wrapped check writes its value under its data field and returns it; nothing else in `results` changes |
| TestCases.TestCase.RunChecks | enrichment/test_case.py:233-240 | the loop collects the values and leaves the results that `EvalChecks` specifies |
| TestCases.TestCase.Run | enrichment/test_case.py:213-248 | returns the exit code or exception and leaves the results that `RunSpec` specifies |
| TestCases.TestCase.InjectCustom | enrichment/test_case.py:200-206 | the registry becomes `Merge` of the old registry and the incoming attributes; built-ins are never rebound |

## Left out

- File access: `exists`, `get_JSON_data` and the file reading and JSON
  decoding in `is_compliant` (lines 134-157) are not modelled.
  `Config.IsCompliant` takes the decoded file, or None for a missing one, and
  `TestCase.Load` takes the same input.
- The game engine `capture.readCommand`/`capture.runGames` (lines 62-66) is a
  foreign call. It is a parameter from the iteration and the two agents to a
  score.
- `random.choice` (line 130) is a parameter from the iteration to the ordering
  picked.
- Floats are exact reals. Rounding of `score /= iterations` is not modelled,
  nor is the sign of a zero (`0 / -3` is `-0.0` in Python).
- All printing and ANSI escape codes (lines 44-48, 204, 219-247), and the
  `verbose` flag, are not modelled.
- `hasattr` and `eval` (lines 236-237) are modelled as a lookup in the check
  registry plus a fixed set of the object's other attribute names, as
  Python 3.13 finds them. Other Python versions differ in a few dunder
  names: `__getstate__` is new in 3.11, and `__firstlineno__` and
  `__static_attributes__` are new in 3.13.
  `types.MethodType` and the bare `except` (lines 203-206) are modelled as a
  callable flag.
- `data` and `results` are class-level dicts shared by all instances (lines
  19 and 22). The model gives each instance its own fields.
- Custom checks are pure functions of `data` and `results`. A custom check
  that mutates the case by other means, or prints, is not captured.
- Python behaviours the model reports as `NotModelled` rather than following:
  - a dict stored under `results['tests']`;
  - a dict used as the check list;
  - ordering two strings or two lists in `average_over_zero` and `majority_win`;
  - invoking a non-check attribute of the case (such as `run` or `data`) through the check list.
- Check-list entries that are not strings are skipped. Their string form never
  names an attribute.
- Trials.Play: requires that `generate_team` succeeds, which holds whenever
  `IterationsSpec` plays games.
- autotest.py (argument parsing, module import, file writing, `sys.exit`) is
  not part of this model.
