/** `TestCase.is_compliant` over an already-decoded test-case file: which
    configurations the engine accepts before running anything. Line numbers
    refer to `enrichment/test_case.py`. */
module Config {
  import opened PyValues
  import opened Trials
  import opened Tolerance

  /** The keys every test case must have (line 159). */
  const RequiredKeys: seq<string> := ["iterations", "checks", "team"]

  /** Lines 159-180 on a decoded JSON object: a required key is missing, or
      `allow_ties` / `print_avg_score` is present but not a bool, or
      `tolerance` is present but not an int (a bool is not: `type(True)` is
      `bool`). The required keys' values are never examined. A compliant
      configuration has every required key, and its tolerance never makes
      `all_games_won` raise. */
  function Compliant(json: map<string, Value>): (ok: bool)
    ensures ok ==> forall i :: 0 <= i < |RequiredKeys| ==> RequiredKeys[i] in json
    ensures ok ==> TolerancePasses(json).Ok?
    ensures !ok <==> (exists i :: 0 <= i < |RequiredKeys| && RequiredKeys[i] !in json)
                     || ("allow_ties" in json && !json["allow_ties"].VBool?)
                     || ("tolerance" in json && !json["tolerance"].VInt?)
                     || ("print_avg_score" in json && !json["print_avg_score"].VBool?)
  {
    if exists i :: 0 <= i < |RequiredKeys| && RequiredKeys[i] !in json then false
    else if "allow_ties" in json && !json["allow_ties"].VBool? then false
    else if "tolerance" in json && !json["tolerance"].VInt? then false
    else if "print_avg_score" in json && !json["print_avg_score"].VBool? then false
    else true
  }

  /** `is_compliant(name)`: `file` is the decoded test-case file, None when
      it does not exist. A file whose top level is not an object raises
      AttributeError at `json.keys()`. */
  function IsCompliant(file: Option<Value>): (r: Result<bool>)
    ensures file.None? ==> r == Ok(false)
    ensures r == Ok(true) <==> file.Some? && file.value.VDict? && Compliant(file.value.entries)
  {
    match file
    case None => Ok(false)
    case Some(VDict(json)) => Ok(Compliant(json))
    case Some(_) => Err(AttributeError)
  }

  /** Compliance never looks at what the required keys hold: replacing the
      value of one of them does not change the verdict. */
  lemma RequiredValuesUnchecked(json: map<string, Value>, i: nat, v: Value)
    requires i < |RequiredKeys| && RequiredKeys[i] in json
    ensures Compliant(json[RequiredKeys[i] := v]) == Compliant(json)
  {
    var json' := json[RequiredKeys[i] := v];
    assert forall j :: 0 <= j < |RequiredKeys| ==> (RequiredKeys[j] in json' <==> RequiredKeys[j] in json);
  }

  /** A compliant configuration can still fail to run: zero iterations pass
      the check and then divide by zero at line 78. */
  lemma CompliantZeroIterations(engine: Engine, chooser: Chooser)
    ensures var json := map["iterations" := VInt(0), "checks" := VList([]), "team" := VStr("random")];
            Compliant(json) && IterationsSpec(json, engine, chooser) == Err(ZeroDivisionError)
  {
    var json := map["iterations" := VInt(0), "checks" := VList([]), "team" := VStr("random")];
    assert forall j :: 0 <= j < |RequiredKeys| ==> RequiredKeys[j] in json;
  }
}
