/** Checks as values: the three built-in checks, the `check` decorator's
    wrapper, the dispatch of `run` over the requested check names, the exit
    code, and the "existing wins" merge of `inject_custom`. Line numbers
    refer to `enrichment/test_case.py`. */
module Checks {
  import opened PyValues
  import opened Trials
  import opened Tolerance

  /** What a check computes from the case's `data` and `results`. A custom
      check is any such function. */
  datatype Body =
    | AllGamesWonBody
    | AverageOverZeroBody
    | MajorityWinBody
    | CustomBody(fn: (map<string, Value>, map<string, Value>) -> Result<Value>)

  /** A check attribute of a test case: a method wrapped by the `check`
      decorator, with the key it records under and its display texts, or a
      plain callable injected from a custom class. */
  datatype CheckDef =
    | Wrapped(datafield: string, title: string, passed: string, failed: string, body: Body)
    | Bare(body: Body)

  /** Python's `a > b` for numbers (bool, int, float). Two strings or two
      lists are ordered by Python but not by this model; any other pair
      raises TypeError. */
  function Greater(a: Value, b: Value): Result<Value> {
    match (AsNumber(a), AsNumber(b))
    case (Some(x), Some(y)) => Ok(VBool(x > y))
    case _ =>
      if (a.VStr? && b.VStr?) || (a.VList? && b.VList?) then Err(NotModelled("ordering of two strings or two lists"))
      else Err(TypeError)
  }

  /** The `average_over_zero` check (line 114): `results['avg_score'] > 0`. */
  function AverageOverZero(results: map<string, Value>): Result<Value> {
    if "avg_score" !in results then Err(KeyError("avg_score"))
    else Greater(results["avg_score"], VInt(0))
  }

  /** The `majority_win` check (line 121): `passed_tests > failed_tests`. */
  function MajorityWin(results: map<string, Value>): Result<Value> {
    if "passed_tests" !in results then Err(KeyError("passed_tests"))
    else if "failed_tests" !in results then Err(KeyError("failed_tests"))
    else Greater(results["passed_tests"], results["failed_tests"])
  }

  /** What calling the undecorated check method returns. */
  function BodySpec(body: Body, data: map<string, Value>, results: map<string, Value>): Result<Value> {
    match body
    case AllGamesWonBody => AllGamesWonSpec(data, results)
    case AverageOverZeroBody => AverageOverZero(results)
    case MajorityWinBody => MajorityWin(results)
    case CustomBody(fn) => fn(data, results)
  }

  /** What a call returned or raised, and `results` afterwards. */
  datatype Step<T> = Step(out: Result<T>, results: map<string, Value>)

  /** Invoking a check (`run_check`, lines 42-49): a wrapped check stores the
      predicate's value under its data field and returns that same value;
      no other key of `results` changes, and a check that raises, or one
      that is not wrapped, leaves `results` as it was. */
  function CheckSpec(def: CheckDef, data: map<string, Value>, results: map<string, Value>): (s: Step<Value>)
    ensures s.out == BodySpec(def.body, data, results)
    ensures def.Wrapped? && s.out.Ok? ==>
              def.datafield in s.results && s.results[def.datafield] == s.out.value
              && s.results - {def.datafield} == results - {def.datafield}
    ensures !(def.Wrapped? && s.out.Ok?) ==> s.results == results
  {
    var v := BodySpec(def.body, data, results);
    match def
    case Wrapped(datafield, _, _, _, _) =>
      if v.Ok? then Step(v, results[datafield := v.value]) else Step(v, results)
    case Bare(_) => Step(v, results)
  }

  /** The checks a fresh test case has, under their method names (lines 85-121). */
  const BuiltinChecks: map<string, CheckDef> := map[
    "all_games_won" := Wrapped("all_games_won", "Won All Games", "All games won!", "Check failed.", AllGamesWonBody),
    "average_over_zero" := Wrapped("average_over_zero", "Game Average Score", "Game average score over zero!", "Check failed.", AverageOverZeroBody),
    "majority_win" := Wrapped("majority_win", "Majority Win", "Won more games than lost!", "Check failed.", MajorityWinBody)
  ]

  /** The attributes of a test case that are not checks, as Python 3.13
      finds them: the class's own fields and methods, what the class body
      adds to the class namespace (`__annotations__` for the annotated
      `verbose`, `__firstlineno__`, `__static_attributes__`, `__module__`,
      `__doc__`, `__dict__`, `__weakref__`), and what every object inherits.
      `hasattr` finds them too. */
  const OtherAttributes: set<string> := {
    "data", "results", "verbose", "check", "__run_iterations__", "generate_team",
    "get_JSON_data", "exists", "is_compliant", "load", "inject_custom", "run",
    "__annotations__", "__firstlineno__", "__static_attributes__",
    "__class__", "__delattr__", "__dict__", "__dir__", "__doc__", "__eq__", "__format__",
    "__ge__", "__getattribute__", "__getstate__", "__gt__", "__hash__", "__init__", "__init_subclass__",
    "__le__", "__lt__", "__module__", "__ne__", "__new__", "__reduce__", "__reduce_ex__",
    "__repr__", "__setattr__", "__sizeof__", "__str__", "__subclasshook__", "__weakref__"
  }

  /** The names `for check in checks` visits: the entries of a list (an entry
      that is not a string formats to a name no attribute has, so it becomes
      None) or the characters of a string. `len(checks)` raises TypeError on
      anything without a length. */
  function CheckNames(checks: Value): Result<seq<Option<string>>> {
    match checks
    case VList(items) =>
      Ok(seq(|items|, i requires 0 <= i < |items| => if items[i].VStr? then Some(items[i].s) else None))
    case VStr(s) => Ok(seq(|s|, i requires 0 <= i < |s| => Some([s[i]])))
    case VDict(_) => Err(NotModelled("a dict of check names"))
    case _ => Err(TypeError)
  }

  /** The loop at lines 235-240 as a function: every name that is a check
      is invoked, once per occurrence, on the results left by the checks
      before it, and its value appended; a name with no attribute is skipped;
      the first exception ends the loop. */
  function EvalChecks(names: seq<Option<string>>, registry: map<string, CheckDef>,
                      data: map<string, Value>, results: map<string, Value>): (s: Step<seq<Value>>)
  {
    if names == [] then Step(Ok([]), results)
    else
      var n := |names| - 1;
      var prev := EvalChecks(names[..n], registry, data, results);
      if prev.out.Err? then prev
      else
        match names[n]
        case None => prev
        case Some(name) =>
          if name in registry then
            var step := CheckSpec(registry[name], data, prev.results);
            if step.out.Err? then Step(Err(step.out.error), step.results)
            else Step(Ok(prev.out.value + [step.out.value]), step.results)
          else if name in OtherAttributes then Step(Err(NotModelled("calling " + name + " as a check")), prev.results)
          else prev
  }

  /** How many checks the names invoke: one per occurrence of a check's name. */
  function Invocations(names: seq<Option<string>>, registry: map<string, CheckDef>): nat {
    if names == [] then 0
    else
      var n := |names| - 1;
      Invocations(names[..n], registry) + (if names[n].Some? && names[n].value in registry then 1 else 0)
  }

  /** A duplicated name is evaluated once per occurrence: a completed loop
      returns exactly one value per invoking name. */
  lemma {:induction false} OneValuePerInvocation(names: seq<Option<string>>, registry: map<string, CheckDef>,
                                                 data: map<string, Value>, results: map<string, Value>)
    requires EvalChecks(names, registry, data, results).out.Ok?
    ensures |EvalChecks(names, registry, data, results).out.value| == Invocations(names, registry)
  {
    if names != [] {
      OneValuePerInvocation(names[..|names| - 1], registry, data, results);
    }
  }

  /** Once a check raised, the rest of the names change nothing. */
  lemma {:induction false} ErrorEndsLoop(names: seq<Option<string>>, registry: map<string, CheckDef>,
                                         data: map<string, Value>, results: map<string, Value>, i: nat)
    requires i <= |names| && EvalChecks(names[..i], registry, data, results).out.Err?
    ensures EvalChecks(names, registry, data, results) == EvalChecks(names[..i], registry, data, results)
    decreases |names| - i
  {
    if i < |names| {
      assert names[..i + 1][..i] == names[..i];
      ErrorEndsLoop(names, registry, data, results, i + 1);
    } else {
      assert names[..i] == names;
    }
  }

  /** `__annotations__` is an attribute of the case (the class annotates
      `verbose`), so the check list `["__annotations__"]` is not skipped:
      calling the dict it names stops the loop with an error. */
  lemma AnnotationsAreNotSkipped(registry: map<string, CheckDef>, data: map<string, Value>,
                                 results: map<string, Value>)
    requires "__annotations__" !in registry
    ensures EvalChecks([Some("__annotations__")], registry, data, results)
            == Step(Err(NotModelled("calling __annotations__ as a check")), results)
  {
    assert [Some("__annotations__")][..0] == [];
    assert "__annotations__" in OtherAttributes;
    assert "calling " + "__annotations__" + " as a check" == "calling __annotations__ as a check";
  }

  /** A name that is neither a check nor any other attribute (or an entry
      that is not a string) is skipped: inserting it anywhere changes
      neither the values collected nor the results. */
  lemma {:induction false} UnknownNameIsSkipped(before: seq<Option<string>>, name: Option<string>,
                                                after: seq<Option<string>>, registry: map<string, CheckDef>,
                                                data: map<string, Value>, results: map<string, Value>)
    requires name.None? || (name.value !in registry && name.value !in OtherAttributes)
    ensures EvalChecks(before + [name] + after, registry, data, results)
            == EvalChecks(before + after, registry, data, results)
  {
    if after == [] {
      assert before + [name] + after == before + [name];
      assert (before + [name])[..|before|] == before;
      assert before + after == before;
    } else {
      var m := |after| - 1;
      UnknownNameIsSkipped(before, name, after[..m], registry, data, results);
      assert (before + [name] + after)[..|before| + 1 + m] == before + [name] + after[..m];
      assert (before + after)[..|before| + m] == before + after[..m];
    }
  }

  /** The exit code of lines 242-248: 2 when `check_tests.count(False) > 0`,
      else 0. So it is 2 exactly when some invoked check returned a value
      equal to False (False, 0 or 0.0; None is not). */
  function ExitCode(outcomes: seq<Value>): (code: int)
    ensures code == 0 || code == 2
    ensures code == 2 <==> exists i :: 0 <= i < |outcomes| && EqualsFalse(outcomes[i])
  {
    if CountFalse(outcomes) > 0 then 2 else 0
  }

  /** A check that returned None (as `all_games_won` does when the rounds
      leave nothing) is not counted as failed: appending it never changes
      the exit code. */
  lemma NoneIsNotAFailure(outcomes: seq<Value>)
    ensures ExitCode(outcomes + [VNone]) == ExitCode(outcomes)
  {
    var more := outcomes + [VNone];
    assert forall i :: 0 <= i < |outcomes| ==> more[i] == outcomes[i];
    assert !EqualsFalse(more[|outcomes|]);
  }

  /** An attribute of the object `inject_custom` copies from: a callable
      (a function, bound to the case by `types.MethodType`) or anything else,
      for which the binding raises and is skipped. */
  datatype Member = Callable(def: CheckDef) | NotCallable

  /** `hasattr(case, name)` for a case whose checks are `registry`. */
  predicate HasAttr(registry: map<string, CheckDef>, name: string) {
    name in registry || name in OtherAttributes
  }

  /** `inject_custom` (lines 200-206) as a function: an attribute is added
      exactly when the case has no attribute of that name and it is callable;
      every existing check keeps its binding. */
  function Merge(registry: map<string, CheckDef>, incoming: map<string, Member>): (merged: map<string, CheckDef>)
    ensures forall name :: name in registry ==> name in merged && merged[name] == registry[name]
    ensures forall name :: name in merged <==>
              name in registry || (name in incoming && !HasAttr(registry, name) && incoming[name].Callable?)
    ensures forall name :: name in merged && name !in registry ==> merged[name] == incoming[name].def
  {
    map name | name in registry.Keys + incoming.Keys
                 && (name in registry || (name in incoming && !HasAttr(registry, name) && incoming[name].Callable?))
      :: if name in registry then registry[name] else incoming[name].def
  }

  /** After a run, `majority_win` is a strict majority of the verdicts:
      True exactly when more than half of the games passed, so a 5-5 split
      is False. */
  lemma MajorityIsStrict(results: map<string, Value>, agg: Aggregate)
    ensures MajorityWin(Publish(results, agg)) == Ok(VBool(2 * Count(agg.tests, true) > |agg.tests|))
  {
    CountPartition(agg.tests);
  }

  /** After a completed run, `average_over_zero` holds exactly when some game
      had a non-zero score, whatever its sign, since the average adds score
      magnitudes. */
  lemma AverageOverZeroIffNonZeroGame(data: map<string, Value>, engine: Engine, chooser: Chooser,
                                      n: int, results: map<string, Value>)
    requires IterationCount(data) == Ok(n) && n > 0
    requires IterationsSpec(data, engine, chooser).Ok?
    ensures TeamOk(data)
    ensures AverageOverZero(Publish(results, IterationsSpec(data, engine, chooser).value))
            == Ok(VBool(exists k :: 0 <= k < n && Play(data, engine, chooser, n)[k].score != 0))
  {
    IterationsSummary(data, engine, chooser, n);
  }
}
