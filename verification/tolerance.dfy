/** The failure tolerance of the `all_games_won` check as a specification:
    how many removal rounds the tolerance buys, what the rounds leave of the
    verdict list, and what `reduce` makes of the rest. Line numbers refer
    to `enrichment/test_case.py`. */
module Tolerance {
  import opened PyValues

  /** `False in s`. */
  predicate FalseIn(s: seq<Value>) {
    exists i :: 0 <= i < |s| && EqualsFalse(s[i])
  }

  /** `s.remove(False)` guarded by `False in s`: drops the first element equal
      to False; a list without one is left as it is. */
  function RemoveFirstFalse(s: seq<Value>): (r: seq<Value>)
    ensures FalseIn(s) ==> |r| == |s| - 1 && CountFalse(r) == CountFalse(s) - 1
    ensures !FalseIn(s) ==> r == s
    ensures forall v :: v in r ==> v in s
  {
    if s == [] then []
    else if EqualsFalse(s[0]) then s[1..]
    else
      assert forall i :: 1 <= i < |s| ==> s[1..][i - 1] == s[i];
      [s[0]] + RemoveFirstFalse(s[1..])
  }

  /** `r` is `s` without its entry `i`, which is the earliest entry equal
      to False; every other entry keeps its place in the order. */
  predicate RemovedEarliestAt(s: seq<Value>, r: seq<Value>, i: int) {
    && 0 <= i < |s| && EqualsFalse(s[i])
    && (forall j :: 0 <= j < i ==> !EqualsFalse(s[j]))
    && r == s[..i] + s[i + 1..]
  }

  /** The entry `s.remove(False)` deletes is the earliest one equal to
      False, and every other entry keeps its place in the order. */
  lemma {:induction false} RemoveFirstFalseEarliest(s: seq<Value>)
    requires FalseIn(s)
    ensures exists i :: RemovedEarliestAt(s, RemoveFirstFalse(s), i)
  {
    if EqualsFalse(s[0]) {
      assert RemovedEarliestAt(s, RemoveFirstFalse(s), 0);
    } else {
      var i :| 0 <= i < |s| && EqualsFalse(s[i]);
      assert s[1..][i - 1] == s[i];
      RemoveFirstFalseEarliest(s[1..]);
      var k :| RemovedEarliestAt(s[1..], RemoveFirstFalse(s[1..]), k);
      assert s == [s[0]] + s[1..];
      EarliestAfterHead(s[0], s[1..], RemoveFirstFalse(s[1..]), k);
    }
  }

  /** A head that is not False stays in front of the removal. */
  lemma EarliestAfterHead(x: Value, t: seq<Value>, r: seq<Value>, k: int)
    requires !EqualsFalse(x) && RemovedEarliestAt(t, r, k)
    ensures RemovedEarliestAt([x] + t, [x] + r, k + 1)
  {
    var s := [x] + t;
    assert [x] + r == s[..k + 1] + s[k + 2..] by {
      assert s[..k + 1] == [x] + t[..k];
      assert s[k + 2..] == t[k + 1..];
    }
    assert forall j :: 0 < j < |s| ==> s[j] == t[j - 1];
  }

  /** The list after `passes` rounds of the loop at lines 99-102: each round
      removes the earliest remaining False, if any. So the rounds remove
      `min(passes, #False)` entries, all of them False. */
  function Forgive(s: seq<Value>, passes: nat): (r: seq<Value>)
    ensures CountFalse(r) == if CountFalse(s) <= passes then 0 else CountFalse(s) - passes
    ensures |r| == |s| - (if CountFalse(s) <= passes then CountFalse(s) else passes)
    ensures forall v :: v in r ==> v in s
  {
    if passes == 0 then s else RemoveFirstFalse(Forgive(s, passes - 1))
  }

  /** An independent reading of the rounds: one left-to-right pass that
      deletes the first `k` entries equal to False and keeps every other
      entry in its place in the order. */
  function DropFalse(s: seq<Value>, k: nat): seq<Value> {
    if s == [] then []
    else if EqualsFalse(s[0]) && k > 0 then DropFalse(s[1..], k - 1)
    else [s[0]] + DropFalse(s[1..], k)
  }

  /** Removing the earliest False after deleting the first `k` of them
      deletes the first `k + 1`. */
  lemma {:induction false} RemoveFirstFalseAfterDrop(s: seq<Value>, k: nat)
    ensures RemoveFirstFalse(DropFalse(s, k)) == DropFalse(s, k + 1)
  {
    if s != [] {
      var t := DropFalse(s[1..], k);
      if EqualsFalse(s[0]) && k > 0 {
        RemoveFirstFalseAfterDrop(s[1..], k - 1);
      } else if EqualsFalse(s[0]) {
        assert ([s[0]] + t)[0] == s[0] && ([s[0]] + t)[1..] == t;
      } else {
        RemoveFirstFalseAfterDrop(s[1..], k);
        assert ([s[0]] + t)[0] == s[0] && ([s[0]] + t)[1..] == t;
      }
    }
  }

  /** `passes` rounds of `if False in l: l.remove(False)` delete exactly the
      earliest `passes` entries equal to False (all of them, if there are
      fewer) and keep the rest in their original order. */
  lemma {:induction false} ForgiveDropsEarliest(s: seq<Value>, passes: nat)
    ensures Forgive(s, passes) == DropFalse(s, passes)
  {
    if passes == 0 {
      DropNothing(s);
    } else {
      assert Forgive(s, passes) == RemoveFirstFalse(Forgive(s, passes - 1));
      ForgiveDropsEarliest(s, passes - 1);
      RemoveFirstFalseAfterDrop(s, passes - 1);
    }
  }

  /** Deleting none of the False entries keeps the list. */
  lemma {:induction false} DropNothing(s: seq<Value>)
    ensures DropFalse(s, 0) == s
  {
    if s != [] {
      DropNothing(s[1..]);
    }
  }

  /** One round on `[0, False, True]` removes the `0`, which is the first
      entry equal to False, and the `False` stays. */
  lemma FirstFalseLikeGoes()
    ensures Forgive([VInt(0), VBool(false), VBool(true)], 1) == [VBool(false), VBool(true)]
  {
    ForgiveDropsEarliest([VInt(0), VBool(false), VBool(true)], 1);
    var s := [VInt(0), VBool(false), VBool(true)];
    assert s[1..] == [VBool(false), VBool(true)];
    assert s[1..][1..] == [VBool(true)];
    assert s[1..][1..][1..] == [];
  }

  /** One more round removes the earliest False, when there is one. */
  lemma ForgiveStep(s: seq<Value>, passes: nat)
    ensures Forgive(s, passes + 1)
            == if FalseIn(Forgive(s, passes)) then RemoveFirstFalse(Forgive(s, passes)) else Forgive(s, passes)
  {
  }

  /** The least integer not below `x`. */
  function Ceil(x: real): (c: int)
    ensures c as real >= x && (c - 1) as real < x
  {
    if x.Floor as real == x then x.Floor else x.Floor + 1
  }

  /** How many removal rounds lines 96-102 run. With a tolerance above zero
      the counter runs while it is below `tolerance + 1`, so an int tolerance
      `t` buys `t + 1` rounds, not `t`; otherwise there are none. A tolerance
      that cannot be compared with 0 raises TypeError. */
  function TolerancePasses(data: map<string, Value>): (r: Result<nat>)
    ensures "tolerance" !in data ==> r == Ok(0)
    ensures "tolerance" in data && data["tolerance"].VInt? ==>
              r == Ok(if data["tolerance"].i > 0 then data["tolerance"].i + 1 else 0)
  {
    if "tolerance" !in data then Ok(0)
    else
      match AsNumber(data["tolerance"])
      case None => Err(TypeError)
      case Some(t) =>
        if t > 0.0 then
          assert data["tolerance"].VInt? ==> Ceil(t + 1.0) == data["tolerance"].i + 1 by {
            if data["tolerance"].VInt? {
              CeilOfInt(data["tolerance"].i + 1);
            }
          }
          Ok(Ceil(t + 1.0))
        else Ok(0)
  }

  /** An integer is its own ceiling. */
  lemma CeilOfInt(n: int)
    ensures Ceil(n as real) == n
  {
    var c := Ceil(n as real);
    assert c as real >= n as real && (c - 1) as real < n as real;
  }

  /** `reduce(add_bool, acc_and_rest)` from accumulator `acc`: Python's `and`
      keeps the accumulator when it is falsy, else takes the next element.
      The result is one of the inputs and is truthy exactly when all are. */
  function FoldAnd(acc: Value, rest: seq<Value>): (r: Value)
    ensures r == acc || r in rest
    ensures Truthy(r) <==> Truthy(acc) && forall i :: 0 <= i < |rest| ==> Truthy(rest[i])
    decreases |rest|
  {
    if rest == [] then acc
    else
      assert forall i :: 1 <= i < |rest| ==> rest[1..][i - 1] == rest[i];
      FoldAnd(if Truthy(acc) then rest[0] else acc, rest[1..])
  }

  /** `reduce(add_bool, s)` on a non-empty list. */
  function ReduceAnd(s: seq<Value>): (r: Value)
    requires |s| > 0
    ensures r in s
    ensures Truthy(r) <==> forall i :: 0 <= i < |s| ==> Truthy(s[i])
  {
    assert forall i :: 1 <= i < |s| ==> s[1..][i - 1] == s[i];
    FoldAnd(s[0], s[1..])
  }

  /** The `all_games_won` check (lines 92-107) as a function of the state it
      reads. It copies `results['tests']`, forgives according to the
      tolerance, and reduces what is left; an empty remainder falls off the
      end of the method and yields None. */
  function AllGamesWonSpec(data: map<string, Value>, results: map<string, Value>): (r: Result<Value>)
    ensures "tests" !in results ==> r == Ok(VBool(false))
    ensures r == Ok(VBool(true)) ==> "tests" in results && results["tests"].VList?
                                      && |results["tests"].items| > 0
  {
    if "tests" !in results then Ok(VBool(false))
    else
      match results["tests"]
      case VList(items) =>
        (match TolerancePasses(data)
         case Err(e) => Err(e)
         case Ok(passes) =>
           var rest := Forgive(items, passes);
           if |rest| > 0 then Ok(ReduceAnd(rest)) else Ok(VNone))
      case VDict(_) => Err(NotModelled("a dict stored under 'tests'"))
      case _ => Err(AttributeError)
  }

  /** `all_games_won` on a `tests` list once the number of rounds is known. */
  lemma AllGamesWonOfList(data: map<string, Value>, results: map<string, Value>, items: seq<Value>, passes: nat)
    requires "tests" in results && results["tests"] == VList(items)
    requires TolerancePasses(data) == Ok(passes)
    ensures AllGamesWonSpec(data, results)
            == if |Forgive(items, passes)| > 0 then Ok(ReduceAnd(Forgive(items, passes))) else Ok(VNone)
  {
  }

  /** A positive numeric tolerance buys `Ceil(tolerance + 1)` rounds. */
  lemma PositiveTolerance(data: map<string, Value>, t: real)
    requires "tolerance" in data && AsNumber(data["tolerance"]) == Some(t) && t > 0.0
    ensures TolerancePasses(data) == Ok(Ceil(t + 1.0))
  {
  }

  /** On a list of bools, `reduce` yields True exactly when no entry is False. */
  lemma ReduceAndOfBools(s: seq<Value>)
    requires |s| > 0 && forall v :: v in s ==> v.VBool?
    ensures ReduceAnd(s) == VBool(CountFalse(s) == 0)
  {
    var r := ReduceAnd(s);
    if CountFalse(s) == 0 {
      assert forall i :: 0 <= i < |s| ==> s[i] in s && !EqualsFalse(s[i]) && Truthy(s[i]);
    } else {
      var i :| 0 <= i < |s| && EqualsFalse(s[i]);
      assert !Truthy(s[i]);
    }
  }

  /** `all_games_won` on the verdicts a run publishes, with `k` removal
      rounds: False when more than `k` games failed; otherwise True when some
      game passed, and None when none did. */
  lemma AllGamesWonOnVerdicts(data: map<string, Value>, results: map<string, Value>, tests: seq<bool>)
    requires "tests" in results && results["tests"] == VList(BoolValues(tests))
    requires TolerancePasses(data).Ok?
    ensures var k := TolerancePasses(data).value;
            AllGamesWonSpec(data, results) ==
              if Count(tests, false) > k then Ok(VBool(false))
              else if Count(tests, true) > 0 then Ok(VBool(true))
              else Ok(VNone)
  {
    var k := TolerancePasses(data).value;
    var items := BoolValues(tests);
    CountFalseOfBools(tests);
    CountPartition(tests);
    var rest := Forgive(items, k);
    assert forall v :: v in items ==> v.VBool?;
    if |rest| > 0 {
      ReduceAndOfBools(rest);
    }
  }

  /** The tolerance forgives one failure more than it says: with an int
      tolerance `t > 0`, exactly `t + 1` failed games and one passed game
      still count as all games won. */
  lemma ToleranceForgivesOneMore(data: map<string, Value>, results: map<string, Value>,
                                 tests: seq<bool>, t: int)
    requires "tests" in results && results["tests"] == VList(BoolValues(tests))
    requires "tolerance" in data && data["tolerance"] == VInt(t) && t > 0
    requires Count(tests, false) == t + 1 && Count(tests, true) > 0
    ensures AllGamesWonSpec(data, results) == Ok(VBool(true))
  {
    AllGamesWonOnVerdicts(data, results, tests);
  }

  /** Without a positive tolerance nothing is forgiven: the check is True
      exactly when the run has games and all of them passed. */
  lemma NoToleranceNeedsEveryGame(data: map<string, Value>, results: map<string, Value>, tests: seq<bool>)
    requires "tests" in results && results["tests"] == VList(BoolValues(tests))
    requires "tolerance" !in data || (data["tolerance"].VInt? && data["tolerance"].i <= 0)
    ensures AllGamesWonSpec(data, results) == Ok(VBool(true)) <==>
              |tests| > 0 && forall i :: 0 <= i < |tests| ==> tests[i]
  {
    AllGamesWonOnVerdicts(data, results, tests);
    CountPartition(tests);
  }

  /** When the rounds remove every verdict (all games failed, and no more of
      them than the rounds), the check returns None rather than False. */
  lemma ForgivenToNothingIsNone(data: map<string, Value>, results: map<string, Value>, tests: seq<bool>)
    requires "tests" in results && results["tests"] == VList(BoolValues(tests))
    requires TolerancePasses(data).Ok? && Count(tests, false) <= TolerancePasses(data).value
    requires forall i :: 0 <= i < |tests| ==> !tests[i]
    ensures AllGamesWonSpec(data, results) == Ok(VNone)
  {
    AllGamesWonOnVerdicts(data, results, tests);
  }
}
