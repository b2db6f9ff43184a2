/** The trial runner of `TestCase.__run_iterations__` as a specification:
    team selection, the running score, the per-game verdicts and the four
    entries written into `results`. The game engine and `random.choice`
    are parameters. Line numbers refer to `enrichment/test_case.py`. */
module Trials {
  import opened PyValues

  /** The external game engine: for iteration `k` and the red and blue
      agent identifiers it returns red's signed final score. */
  type Engine = (nat, Value, Value) -> int

  /** `random.choice` between the two team orderings, per iteration:
      true picks the first ordering. */
  type Chooser = nat -> bool

  const MyTeam: Value := VStr("myTeam")
  const BaselineTeam: Value := VStr("baselineTeam")

  /** `generate_team`: `first` is what `random.choice` picked. */
  function GenerateTeam(data: map<string, Value>, first: bool): (r: Result<(Value, Value)>)
    ensures "team" in data && data["team"] == VStr("random") ==>
              r == Ok((MyTeam, BaselineTeam)) || r == Ok((BaselineTeam, MyTeam))
    ensures "team" in data && data["team"].VDict? && "red" in data["team"].entries
              && "blue" in data["team"].entries ==>
              r == Ok((data["team"].entries["red"], data["team"].entries["blue"]))
    ensures "team" !in data ==> r == Err(KeyError("team"))
  {
    if "team" !in data then Err(KeyError("team"))
    else if data["team"] == VStr("random") then
      Ok(if first then (MyTeam, BaselineTeam) else (BaselineTeam, MyTeam))
    else
      match data["team"]
      case VDict(team) =>
        if "red" !in team then Err(KeyError("red"))
        else if "blue" !in team then Err(KeyError("blue"))
        else Ok((team["red"], team["blue"]))
      case _ => Err(TypeError)
  }

  /** Whether `generate_team` returns rather than raises; the choice never matters. */
  predicate TeamOk(data: map<string, Value>) {
    GenerateTeam(data, true).Ok?
  }

  /** When `generate_team` raises, it raises the same whatever the choice. */
  lemma TeamErrorIgnoresChoice(data: map<string, Value>, first: bool, other: bool)
    requires GenerateTeam(data, first).Err?
    ensures !TeamOk(data) && GenerateTeam(data, other) == GenerateTeam(data, first)
  {
  }

  /** `range(data['iterations'])`: an int (a bool is one) gives the count. */
  function IterationCount(data: map<string, Value>): Result<int> {
    if "iterations" !in data then Err(KeyError("iterations"))
    else
      match data["iterations"]
      case VInt(n) => Ok(n)
      case VBool(b) => Ok(if b then 1 else 0)
      case _ => Err(TypeError)
  }

  /** `data['allow_ties'] if "allow_ties" in data else False`, used by truth value. */
  predicate AllowTies(data: map<string, Value>) {
    "allow_ties" in data && Truthy(data["allow_ties"])
  }

  /** One game: whether red was "myTeam", and red's signed score. */
  datatype Game = Game(mine: bool, score: int)

  /** What line 68 adds for one game: the magnitude of its score. */
  function Magnitude(x: int): nat {
    if x > 0 then x else -1 * x
  }

  /** The running `score` after the given games: the sum of their magnitudes.
      It is zero exactly when every game ended with score zero. */
  function Total(games: seq<Game>): (t: nat)
    ensures t == 0 <==> forall k :: 0 <= k < |games| ==> games[k].score == 0
  {
    if games == [] then 0
    else
      var n := |games| - 1;
      assert forall k :: 0 <= k < n ==> games[..n][k] == games[k];
      Total(games[..n]) + Magnitude(games[n].score)
  }

  /** The verdict appended at line 74 or 76, given the running total. */
  function Verdict(mine: bool, total: int, allowTies: bool): bool {
    if mine then (if allowTies then total >= 0 else total > 0)
    else (if allowTies then total <= 0 else total < 0)
  }

  /** The `tests` list after the given games, one verdict per game. */
  function Verdicts(games: seq<Game>, allowTies: bool): (vs: seq<bool>)
    ensures |vs| == |games|
  {
    if games == [] then []
    else
      var n := |games| - 1;
      Verdicts(games[..n], allowTies) + [Verdict(games[n].mine, Total(games), allowTies)]
  }

  /** Verdict `k` judges the running total of games `0..k`, not game `k` alone. */
  lemma {:induction false} VerdictAt(games: seq<Game>, allowTies: bool, k: nat)
    requires k < |games|
    ensures Verdicts(games, allowTies)[k] == Verdict(games[k].mine, Total(games[..k + 1]), allowTies)
  {
    var n := |games| - 1;
    if k < n {
      VerdictAt(games[..n], allowTies, k);
      assert games[..n][..k + 1] == games[..k + 1];
    } else {
      assert games[..k + 1] == games;
    }
  }

  /** The games of iterations `0 .. n-1`: iteration `k` takes the ordering
      `chooser(k)` and the engine's score for that pairing. */
  function Play(data: map<string, Value>, engine: Engine, chooser: Chooser, n: nat): (games: seq<Game>)
    requires TeamOk(data)
    ensures |games| == n
  {
    if n == 0 then []
    else
      var team := GenerateTeam(data, chooser(n - 1)).value;
      Play(data, engine, chooser, n - 1) + [Game(team.0 == MyTeam, engine(n - 1, team.0, team.1))]
  }

  /** The product of one run: the verdict list and `avg_score`. */
  datatype Aggregate = Aggregate(tests: seq<bool>, avg: real)

  /** `__run_iterations__` as a function of the configuration, the engine and
      the choices: the aggregate it publishes, or the exception it raises
      (`range` on a non-int, `generate_team`, or `score /= 0`). */
  function IterationsSpec(data: map<string, Value>, engine: Engine, chooser: Chooser): Result<Aggregate> {
    match IterationCount(data)
    case Err(e) => Err(e)
    case Ok(n) =>
      if n > 0 && !TeamOk(data) then Err(GenerateTeam(data, chooser(0)).error)
      else if n == 0 then Err(ZeroDivisionError)
      else
        var games := if n > 0 then Play(data, engine, chooser, n) else [];
        Ok(Aggregate(Verdicts(games, AllowTies(data)), Total(games) as real / n as real))
  }

  /** Lines 80-83: the four entries written into `results`. */
  function Publish(results: map<string, Value>, agg: Aggregate): map<string, Value> {
    results["tests" := VList(BoolValues(agg.tests))]
           ["avg_score" := VReal(agg.avg)]
           ["passed_tests" := VInt(Count(agg.tests, true))]
           ["failed_tests" := VInt(Count(agg.tests, false))]
  }

  /** What a completed run yields: one verdict per iteration, passed and failed
      counts that add up to the iterations, and an average that is the mean
      of the score MAGNITUDES, hence never negative and above zero exactly
      when some game had a non-zero score. */
  lemma IterationsSummary(data: map<string, Value>, engine: Engine, chooser: Chooser, n: int)
    requires IterationCount(data) == Ok(n) && n > 0
    requires IterationsSpec(data, engine, chooser).Ok?
    ensures TeamOk(data)
    ensures var agg := IterationsSpec(data, engine, chooser).value;
            |agg.tests| == n && Count(agg.tests, true) + Count(agg.tests, false) == n
    ensures var agg := IterationsSpec(data, engine, chooser).value;
            agg.avg == Total(Play(data, engine, chooser, n)) as real / n as real && agg.avg >= 0.0
    ensures var agg := IterationsSpec(data, engine, chooser).value;
            agg.avg > 0.0 <==> exists k :: 0 <= k < n && Play(data, engine, chooser, n)[k].score != 0
  {
    assert TeamOk(data);
    var games := Play(data, engine, chooser, n);
    var agg := Aggregate(Verdicts(games, AllowTies(data)), Total(games) as real / n as real);
    assert IterationsSpec(data, engine, chooser) == Ok(agg);
    CountPartition(agg.tests);
    MeanSign(agg.avg, Total(games) as real, n as real);
  }

  /** A mean over a positive count has the sign of the sum. */
  lemma MeanSign(mean: real, t: real, n: real)
    requires n > 0.0 && mean == t / n
    ensures mean > 0.0 <==> t > 0.0
    ensures t >= 0.0 ==> mean >= 0.0
  {
  }

  /** With fewer than zero iterations the loop never runs and the run
      publishes an empty verdict list with average zero. */
  lemma NegativeIterations(data: map<string, Value>, engine: Engine, chooser: Chooser, n: int)
    requires IterationCount(data) == Ok(n) && n < 0
    ensures IterationsSpec(data, engine, chooser) == Ok(Aggregate([], 0.0))
  {
  }

  /** Every game of a fixed-team run has the configured red agent. */
  lemma {:induction false} FixedTeamGames(data: map<string, Value>, engine: Engine, chooser: Chooser,
                                          n: nat, red: Value, blue: Value)
    requires GenerateTeam(data, true) == Ok((red, blue)) && GenerateTeam(data, false) == Ok((red, blue))
    ensures forall k :: 0 <= k < n ==> Play(data, engine, chooser, n)[k].mine == (red == MyTeam)
  {
    if n > 0 {
      FixedTeamGames(data, engine, chooser, n - 1, red, blue);
    }
  }

  /** When red is not "myTeam" and ties are not allowed, the verdict asks for a
      negative running total, which a sum of magnitudes never is: every game
      of the run is recorded as failed. */
  lemma OpponentAsRedFailsEverything(data: map<string, Value>, engine: Engine, chooser: Chooser,
                                     red: Value, blue: Value)
    requires "team" in data && data["team"] != VStr("random")
    requires GenerateTeam(data, true) == Ok((red, blue)) && red != MyTeam
    requires !AllowTies(data)
    requires IterationsSpec(data, engine, chooser).Ok?
    ensures var agg := IterationsSpec(data, engine, chooser).value;
            (forall k :: 0 <= k < |agg.tests| ==> !agg.tests[k]) && Count(agg.tests, true) == 0
  {
    var n := IterationCount(data).value;
    var agg := IterationsSpec(data, engine, chooser).value;
    if n > 0 {
      var games := Play(data, engine, chooser, n);
      FixedTeamGames(data, engine, chooser, n, red, blue);
      forall k | 0 <= k < |agg.tests|
        ensures !agg.tests[k]
      {
        VerdictAt(games, false, k);
      }
    }
    assert forall k :: 0 <= k < |agg.tests| ==> agg.tests[k] != true;
  }

  /** The verdict judges the running total, not the game: "myTeam" wins the
      first game 5-0 and loses the second by 3, and both are recorded as
      passed. */
  lemma RunningTotalHidesALoss()
    ensures Verdicts([Game(true, 5), Game(true, -3)], false) == [true, true]
  {
    var games := [Game(true, 5), Game(true, -3)];
    assert games[..1] == [Game(true, 5)];
    assert Total(games[..1]) == 5;
  }

  /** The average adds magnitudes: scores 5, -3, -3 give an average of 11/3,
      although their signed mean is -1/3. */
  lemma MagnitudeNotSignedMean()
    ensures Total([Game(true, 5), Game(true, -3), Game(true, -3)]) as real / 3.0 == 11.0 / 3.0
  {
    var games := [Game(true, 5), Game(true, -3), Game(true, -3)];
    assert games[..2] == [Game(true, 5), Game(true, -3)];
    assert games[..2][..1] == [Game(true, 5)];
  }
}
