/** The `TestCase` object: its configuration, its results and its checks,
    and the methods that load a configuration, run the trials, invoke the
    checks, derive the exit code and inject custom checks. Line numbers
    refer to `enrichment/test_case.py`. */
module TestCases {
  import opened PyValues
  import opened Trials
  import opened Tolerance
  import opened Checks
  import opened Config

  /** `run` (lines 213-248) as a function of the state it starts from: the
      exit code it returns or the exception it raises, and `results`
      afterwards. */
  function RunSpec(data: map<string, Value>, results: map<string, Value>, registry: map<string, CheckDef>,
                   engine: Engine, chooser: Chooser): Step<int>
  {
    if "checks" !in data then Step(Err(KeyError("checks")), results)
    else
      match IterationsSpec(data, engine, chooser)
      case Err(e) => Step(Err(e), results)
      case Ok(agg) =>
        var published := Publish(results, agg);
        match CheckNames(data["checks"])
        case Err(e) => Step(Err(e), published)
        case Ok(names) =>
          var s := EvalChecks(names, registry, data, published);
          if s.out.Err? then Step(Err(s.out.error), s.results)
          else Step(Ok(ExitCode(s.out.value)), s.results)
  }

  /** `run` returns only 0 or 2, and 2 exactly when some check it invoked
      returned a value equal to False; names that are not checks play no
      part. */
  lemma RunExitStatus(data: map<string, Value>, results: map<string, Value>, registry: map<string, CheckDef>,
                      engine: Engine, chooser: Chooser)
    requires RunSpec(data, results, registry, engine, chooser).out.Ok?
    ensures "checks" in data && IterationsSpec(data, engine, chooser).Ok? && CheckNames(data["checks"]).Ok?
    ensures var published := Publish(results, IterationsSpec(data, engine, chooser).value);
            var s := EvalChecks(CheckNames(data["checks"]).value, registry, data, published);
            var code := RunSpec(data, results, registry, engine, chooser).out.value;
            && s.out.Ok?
            && (code == 0 || code == 2)
            && (code == 2 <==> exists i :: 0 <= i < |s.out.value| && EqualsFalse(s.out.value[i]))
  {
  }

  /** A completed run with an empty check list exits with 0. */
  lemma EmptyCheckListPasses(data: map<string, Value>, results: map<string, Value>, registry: map<string, CheckDef>,
                             engine: Engine, chooser: Chooser)
    requires "checks" in data && data["checks"] == VList([])
    requires IterationsSpec(data, engine, chooser).Ok?
    ensures RunSpec(data, results, registry, engine, chooser).out == Ok(0)
  {
    var names := CheckNames(data["checks"]).value;
    assert |names| == 0;
  }

  /** A check list whose names are all unknown exits with 0, however the
      games went. */
  lemma UnknownChecksPass(data: map<string, Value>, results: map<string, Value>, registry: map<string, CheckDef>,
                          engine: Engine, chooser: Chooser, names: seq<Option<string>>)
    requires "checks" in data && CheckNames(data["checks"]) == Ok(names)
    requires forall i :: 0 <= i < |names| ==>
               names[i].None? || (names[i].value !in registry && names[i].value !in OtherAttributes)
    requires IterationsSpec(data, engine, chooser).Ok?
    ensures RunSpec(data, results, registry, engine, chooser).out == Ok(0)
  {
    var published := Publish(results, IterationsSpec(data, engine, chooser).value);
    UnknownNamesSkipped(names, registry, data, published);
  }

  /** Names none of which is an attribute invoke nothing and change nothing. */
  lemma {:induction false} UnknownNamesSkipped(names: seq<Option<string>>, registry: map<string, CheckDef>,
                                               data: map<string, Value>, results: map<string, Value>)
    requires forall i :: 0 <= i < |names| ==>
               names[i].None? || (names[i].value !in registry && names[i].value !in OtherAttributes)
    ensures EvalChecks(names, registry, data, results) == Step(Ok([]), results)
  {
    if names != [] {
      UnknownNamesSkipped(names[..|names| - 1], registry, data, results);
    }
  }

  /** One more game adds its magnitude to the running total and its verdict
      to the list. */
  lemma GameAppended(games: seq<Game>, game: Game, allowTies: bool)
    ensures Total(games + [game]) == Total(games) + Magnitude(game.score)
    ensures Verdicts(games + [game], allowTies)
            == Verdicts(games, allowTies) + [Verdict(game.mine, Total(games + [game]), allowTies)]
  {
    assert (games + [game])[..|games|] == games;
  }

  class TestCase {
    /** The test-case configuration (`self.data`). */
    var data: map<string, Value>
    /** `self.results`. */
    var results: map<string, Value>
    /** The check attributes of the object: built-in and injected. */
    var registry: map<string, CheckDef>

    /** The built-in checks are never rebound, and no check shadows one of
        the object's other attributes. */
    ghost predicate Valid()
      reads this
    {
      && registry.Keys !! OtherAttributes
      && forall name :: name in BuiltinChecks ==> name in registry && registry[name] == BuiltinChecks[name]
    }

    constructor ()
      ensures Valid()
      ensures data == map[] && results == map[] && registry == BuiltinChecks
    {
      data := map[];
      results := map[];
      registry := BuiltinChecks;
    }

    /** `load` (lines 189-192): a compliant file becomes the configuration;
        otherwise ValueError, or the AttributeError of `is_compliant`. */
    method Load(file: Option<Value>) returns (r: Result<()>)
      modifies this`data
      ensures IsCompliant(file) == Ok(true) ==> r == Ok(()) && data == file.value.entries
      ensures IsCompliant(file) == Ok(false) ==> r == Err(ValueError) && data == old(data)
      ensures IsCompliant(file).Err? ==> r == Err(IsCompliant(file).error) && data == old(data)
    {
      var compliant := IsCompliant(file);
      if compliant.Err? {
        return Err(compliant.error);
      }
      if compliant.value {
        data := file.value.entries;
        return Ok(());
      }
      return Err(ValueError);
    }

    /** `__run_iterations__` (lines 58-83): plays the configured number of
        games, accumulating the running score and a verdict per game, then
        publishes the verdicts, the average and the two counts. On an
        exception `results` is left as it was. */
    method RunIterations(engine: Engine, chooser: Chooser) returns (r: Result<()>)
      modifies this`results
      ensures match IterationsSpec(data, engine, chooser)
              case Ok(agg) => r == Ok(()) && results == Publish(old(results), agg)
              case Err(e) => r == Err(e) && results == old(results)
    {
      var count := IterationCount(data);
      if count.Err? {
        return Err(count.error);
      }
      var n := count.value;
      var played := PlayIterations(data, engine, chooser, n);
      if played.Err? {
        return Err(played.error);
      }
      var (score, tests) := played.value;
      if n == 0 {
        return Err(ZeroDivisionError);
      }
      var average := score as real / n as real;
      results := results["tests" := VList(BoolValues(tests))]
                        ["avg_score" := VReal(average)]
                        ["passed_tests" := VInt(Count(tests, true))]
                        ["failed_tests" := VInt(Count(tests, false))];
      return Ok(());
    }

    /** The loop at lines 60-76: iteration `i` asks `generate_team` for a
        pairing, adds the magnitude of the engine's score to the running
        score and appends the verdict on that running score. It returns the
        final score and the verdicts, or the exception `generate_team`
        raised in the first iteration. */
    static method PlayIterations(data: map<string, Value>, engine: Engine, chooser: Chooser, n: int)
      returns (r: Result<(int, seq<bool>)>)
      ensures n > 0 && !TeamOk(data) ==> r == Err(GenerateTeam(data, chooser(0)).error)
      ensures !(n > 0 && !TeamOk(data)) ==>
                var games := if n > 0 then Play(data, engine, chooser, n) else [];
                r == Ok((Total(games), Verdicts(games, AllowTies(data))))
    {
      var score := 0;
      var tests: seq<bool> := [];
      var i := 0;
      ghost var games: seq<Game> := [];
      while i < n
        invariant 0 <= i && (n > 0 ==> i <= n) && (n <= 0 ==> i == 0)
        invariant !TeamOk(data) ==> i == 0
        invariant games == if TeamOk(data) then Play(data, engine, chooser, i) else []
        invariant score == Total(games)
        invariant tests == Verdicts(games, AllowTies(data))
      {
        var team := GenerateTeam(data, chooser(i));
        if team.Err? {
          TeamErrorIgnoresChoice(data, chooser(i), chooser(0));
          return Err(team.error);
        }
        var (red, blue) := team.value;
        var gameScore := engine(i, red, blue);
        score := score + if gameScore > 0 then gameScore else -1 * gameScore;
        var allowTies := if "allow_ties" in data then Truthy(data["allow_ties"]) else false;
        if red == MyTeam {
          tests := tests + [if allowTies then score >= 0 else score > 0];
        } else {
          tests := tests + [if allowTies then score <= 0 else score < 0];
        }
        ghost var next := games + [Game(red == MyTeam, gameScore)];
        GameAppended(games, Game(red == MyTeam, gameScore), AllowTies(data));
        assert next == Play(data, engine, chooser, i + 1);
        games := next;
        i := i + 1;
      }
      return Ok((score, tests));
    }

    /** `all_games_won` (lines 92-107): removes False entries from a copy of
        the verdicts, one per round while the round counter is below
        `tolerance + 1`, then reduces the rest with `and`. It changes no
        field. */
    method AllGamesWon() returns (r: Result<Value>)
      ensures r == AllGamesWonSpec(data, results)
    {
      if "tests" !in results {
        return Ok(VBool(false));
      }
      var tests := results["tests"];
      if tests.VDict? {
        return Err(NotModelled("a dict stored under 'tests'"));
      }
      if !tests.VList? {
        return Err(AttributeError);
      }
      var remaining := tests.items;
      ghost var passes := 0;
      if "tolerance" in data {
        var tolerance := AsNumber(data["tolerance"]);
        if tolerance.None? {
          return Err(TypeError);
        }
        if tolerance.value > 0.0 {
          remaining := ForgiveRounds(tests.items, tolerance.value + 1.0);
          passes := Ceil(tolerance.value + 1.0);
          PositiveTolerance(data, tolerance.value);
        }
      }
      AllGamesWonOfList(data, results, tests.items, passes);
      if |remaining| > 0 {
        return Ok(ReduceAnd(remaining));
      }
      return Ok(VNone);
    }

    /** The loop at lines 99-102: `tcount` counts up from 0 while it is
        below `bound`, and each round drops the earliest False left. */
    static method ForgiveRounds(items: seq<Value>, bound: real) returns (remaining: seq<Value>)
      requires bound > 0.0
      ensures remaining == Forgive(items, Ceil(bound))
    {
      remaining := items;
      var tcount := 0;
      ghost var rounds := Ceil(bound);
      while (tcount as real) < bound
        invariant 0 <= tcount <= rounds
        invariant remaining == Forgive(items, tcount)
        decreases rounds - tcount
      {
        ForgiveStep(items, tcount);
        if FalseIn(remaining) {
          remaining := RemoveFirstFalse(remaining);
        }
        tcount := tcount + 1;
      }
      assert tcount == rounds;
    }

    /** Calls the undecorated check method; changes no field. */
    method EvalBody(body: Body) returns (r: Result<Value>)
      ensures r == BodySpec(body, data, results)
    {
      match body
      case AllGamesWonBody => r := AllGamesWon();
      case AverageOverZeroBody => r := AverageOverZero(results);
      case MajorityWinBody => r := MajorityWin(results);
      case CustomBody(fn) => r := fn(data, results);
    }

    /** `run_check` (lines 42-49): a wrapped check writes its value under its
        data field and returns it; nothing else changes. */
    method RunCheck(def: CheckDef) returns (r: Result<Value>)
      modifies this`results
      ensures r == BodySpec(def.body, data, old(results))
      ensures r.Ok? && def.Wrapped? ==> results == old(results)[def.datafield := r.value]
      ensures !(r.Ok? && def.Wrapped?) ==> results == old(results)
    {
      r := EvalBody(def.body);
      if r.Ok? && def.Wrapped? {
        results := results[def.datafield := r.value];
      }
    }

    /** The loop at lines 235-240: invokes, in order and once per
        occurrence, every name that is a check, and collects the values;
        the first exception ends it. */
    method RunChecks(names: seq<Option<string>>) returns (r: Result<seq<Value>>)
      modifies this`results
      ensures EvalChecks(names, registry, data, old(results)) == Step(r, results)
    {
      ghost var published := results;
      var checkTests: seq<Value> := [];
      var i := 0;
      while i < |names|
        invariant 0 <= i <= |names|
        invariant EvalChecks(names[..i], registry, data, published) == Step(Ok(checkTests), results)
      {
        assert names[..i + 1][..i] == names[..i];
        var name := names[i];
        if name.Some? {
          if name.value in registry {
            var value := RunCheck(registry[name.value]);
            if value.Err? {
              ErrorEndsLoop(names, registry, data, published, i + 1);
              return Err(value.error);
            }
            checkTests := checkTests + [value.value];
          } else if name.value in OtherAttributes {
            ErrorEndsLoop(names, registry, data, published, i + 1);
            return Err(NotModelled("calling " + name.value + " as a check"));
          }
        }
        i := i + 1;
      }
      assert names[..i] == names;
      return Ok(checkTests);
    }

    /** `run` (lines 213-248): runs the trials, invokes each requested check
        that exists, in order and once per occurrence, and returns 2 when
        one of them returned a value equal to False, else 0. */
    method Run(engine: Engine, chooser: Chooser) returns (r: Result<int>)
      modifies this`results
      ensures var s := RunSpec(data, old(results), registry, engine, chooser);
              r == s.out && results == s.results
    {
      if "checks" !in data {
        return Err(KeyError("checks"));
      }
      var checks := data["checks"];
      var ran := RunIterations(engine, chooser);
      if ran.Err? {
        return Err(ran.error);
      }
      var names := CheckNames(checks);
      if names.Err? {
        return Err(names.error);
      }
      var checkTests := RunChecks(names.value);
      if checkTests.Err? {
        return Err(checkTests.error);
      }
      if CountFalse(checkTests.value) > 0 {
        return Ok(2);
      }
      return Ok(0);
    }

    /** `inject_custom` (lines 200-206): binds every callable attribute of
        the custom class that the case does not already have; existing
        attributes always win and non-callables are skipped. */
    method InjectCustom(incoming: map<string, Member>)
      requires Valid()
      modifies this`registry
      ensures Valid()
      ensures registry == Merge(old(registry), incoming)
    {
      var pending := incoming.Keys;
      ghost var done: set<string> := {};
      while pending != {}
        invariant pending !! done && pending + done == incoming.Keys
        invariant forall name :: name in old(registry) ==> name in registry && registry[name] == old(registry)[name]
        invariant forall name :: name in registry <==>
                    name in old(registry)
                    || (name in done && !HasAttr(old(registry), name) && incoming[name].Callable?)
        invariant forall name :: name in registry && name !in old(registry) ==> registry[name] == incoming[name].def
        decreases pending
      {
        var attribute :| attribute in pending;
        if !HasAttr(registry, attribute) {
          if incoming[attribute].Callable? {
            registry := registry[attribute := incoming[attribute].def];
          }
        }
        pending := pending - {attribute};
        done := done + {attribute};
      }
      ghost var merged := Merge(old(registry), incoming);
      assert forall name :: name in registry <==> name in merged;
      assert forall name :: name in registry ==> registry[name] == merged[name];
    }
  }
}
