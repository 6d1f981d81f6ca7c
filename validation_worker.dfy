/** The validation worker: three judges (theorem checker, numerical validator, symbolic
    verifier), the dispatch of a request to the worker's judge with ack or nack, the
    per-equation verdict hash and success/failure counters kept in Redis, and the
    `validated_equations` table with its `ON CONFLICT ... GREATEST` upsert. */
module Validation {
  import opened Strings
  import opened Json

  const THEOREM_CHECKER: string := "theorem_checker"
  const NUMERICAL_VALIDATOR: string := "numerical_validator"
  const SYMBOLIC_VERIFIER: string := "symbolic_verifier"

  /** The words of the routing key every validation queue binds to on the discovery
      exchange. */
  const REQUEST_BINDING_WORDS: seq<string> := ["validation", "request"]

  /** The binding itself, `validation.request`. */
  const REQUEST_BINDING: string := Join(REQUEST_BINDING_WORDS, '.')

  lemma RequestBindingText()
    ensures REQUEST_BINDING == "validation.request"
  {
  }

  /** `str(mp.dps)`: the working precision, in decimal digits, of the numerical validator. */
  const PRECISION: string := "50"

  const PHI_CHAR: char := 'φ'

  // ---------------------------------------------------------------- well-formedness

  /** An equation is well formed when it has an `=`, no prefix closes more parentheses than
      it opens, and the whole string closes exactly as many as it opens. */
  predicate WellFormed(equation: string)
  {
    && '=' in equation
    && PrefixesBalanced(equation, |equation|)
    && CountChar(equation, '(') == CountChar(equation, ')')
  }

  /** Opening minus closing parentheses in `s`. */
  function Balance(s: string): int
  {
    CountChar(s, '(') - CountChar(s, ')')
  }

  /** No prefix of length up to `n` closes more parentheses than it opens. */
  predicate PrefixesBalanced(s: string, n: nat)
    requires n <= |s|
  {
    forall k | 0 <= k <= n :: CountChar(s[..k], ')') <= CountChar(s[..k], '(')
  }

  /** Extending a prefix by one character adds that character to its count. */
  lemma PrefixCountStep(s: string, i: nat, c: char)
    requires i < |s|
    ensures CountChar(s[..i + 1], c) == CountChar(s[..i], c) + (if s[i] == c then 1 else 0)
  {
    assert s[..i + 1] == s[..i] + [s[i]];
    CountCharAppend(s[..i], [s[i]], c);
  }

  /** One more character of the scan: the balance moves by that character, and the prefixes
      stay balanced exactly when the new balance is not negative. */
  lemma ScanStep(s: string, i: nat)
    requires i < |s| && PrefixesBalanced(s, i)
    ensures Balance(s[..i + 1]) == Balance(s[..i]) + (if s[i] == '(' then 1 else if s[i] == ')' then -1 else 0)
    ensures PrefixesBalanced(s, i + 1) <==> Balance(s[..i + 1]) >= 0
  {
    PrefixCountStep(s, i, '(');
    PrefixCountStep(s, i, ')');
  }

  /** `_is_well_formed`: reject an empty string or one without `=`, then scan once keeping the
      running parenthesis count and stop as soon as it drops below zero. */
  method IsWellFormed(equation: string) returns (ok: bool)
    ensures ok == WellFormed(equation)
    ensures |equation| == 0 || '=' !in equation ==> !ok
  {
    if |equation| == 0 || '=' !in equation {
      return false;
    }
    var parenCount := 0;
    for i := 0 to |equation|
      invariant parenCount == Balance(equation[..i])
      invariant PrefixesBalanced(equation, i)
    {
      var c := equation[i];
      if c == '(' {
        parenCount := parenCount + 1;
      } else if c == ')' {
        parenCount := parenCount - 1;
      }
      ScanStep(equation, i);
      if parenCount < 0 {
        return false;
      }
    }
    assert equation[..|equation|] == equation;
    return parenCount == 0;
  }

  /** `_check_dimensions`: a placeholder that accepts every equation. */
  function CheckDimensions(equation: string): (consistent: bool)
    ensures consistent
  {
    true
  }

  // ---------------------------------------------------------------- judges

  /** `{**data, **updates}` where `updates` has exactly the keys `names`: the judge's own keys
      are added or overwritten, every other input field is kept. */
  predicate Extends(result: Message, data: Message, names: set<string>)
  {
    && result.Keys == data.Keys + names
    && forall k | k in data && k !in names :: result[k] == data[k]
  }

  /** A judge's result as the rest of the worker reads it. */
  predicate Judged(result: Message)
  {
    && "equation" in result
    && "validation_type" in result && result["validation_type"].Str?
    && "valid" in result && result["valid"].Bool?
    && "confidence" in result && result["confidence"].Num?
    && "timestamp" in result && result["timestamp"].Str?
  }

  /** True when every check passed (`all(...)`). */
  function AllTrue(checks: seq<bool>): (r: bool)
    ensures r <==> forall i | 0 <= i < |checks| :: checks[i]
  {
    if checks == [] then true else checks[0] && AllTrue(checks[1..])
  }

  /** The number of checks that passed (`sum(...)` over booleans). */
  function TrueCount(checks: seq<bool>): (n: nat)
    ensures n <= |checks|
    ensures n == |checks| <==> AllTrue(checks)
  {
    if checks == [] then 0 else (if checks[0] then 1 else 0) + TrueCount(checks[1..])
  }

  const THEOREM_KEYS: set<string> := {"validation_type", "valid", "confidence", "checks", "timestamp"}

  /** `_check_theorem`: three checks, of which only well-formedness can fail; the verdict is
      their conjunction and the confidence the fraction that passed. The clock reading
      `now` becomes a parameter. */
  function CheckTheorem(data: Message, now: string): (r: Result<Message>)
    ensures r.Ok? <==> EquationOf(data).Ok?
    ensures "equation" !in data ==> r == Err(KeyError("equation"))
    ensures r.Ok? ==> Extends(r.value, data, THEOREM_KEYS) && Judged(r.value)
    ensures r.Ok? ==> var wf := WellFormed(EquationOf(data).value);
      && r.value["validation_type"] == Str("theorem")
      && r.value["valid"] == Bool(wf)
      && r.value["confidence"] == Num(if wf then 1.0 else 2.0 / 3.0)
      && r.value["timestamp"] == Str(now)
  {
    var equation :- EquationOf(data);
    var wellFormed := WellFormed(equation);
    var dimensional := CheckDimensions(equation);
    var checks := [wellFormed, dimensional, true];
    var valid := AllTrue(checks);
    var confidence := TrueCount(checks) as real / |checks| as real;
    assert valid == wellFormed && confidence == if wellFormed then 1.0 else 2.0 / 3.0 by {
      assert checks[1..] == [dimensional, true] && checks[1..][1..] == [true];
    }
    var updates := map[
      "validation_type" := Str("theorem"),
      "valid" := Bool(valid),
      "confidence" := Num(confidence),
      "checks" := Object(map[
        "well_formed" := Bool(wellFormed),
        "dimensionally_consistent" := Bool(dimensional),
        "mathematically_valid" := Bool(true)]),
      "timestamp" := Str(now)];
    assert updates.Keys == THEOREM_KEYS;
    Ok(Merge(data, updates))
  }

  /** The numerical test applies to equations with `φ` or the letters `phi` (case-sensitive). */
  predicate MentionsPhi(equation: string)
  {
    PHI_CHAR in equation || Contains(equation, "phi")
  }

  const NUMERICAL_KEYS: set<string> := {"validation_type", "valid", "confidence", "precision", "test_results", "timestamp"}

  /** `_validate_numerical`: equations mentioning `φ` or `phi` (case-sensitive) run the
      identity test φ² = φ + 1 at 50 digits; the outcome of that multi-precision test is the
      parameter `phiIdentityHolds`. */
  function ValidateNumerical(data: Message, now: string, phiIdentityHolds: bool): (r: Result<Message>)
    ensures r.Ok? <==> EquationOf(data).Ok?
    ensures r.Ok? ==> Extends(r.value, data, NUMERICAL_KEYS) && Judged(r.value)
    ensures r.Ok? ==>
      var equation := EquationOf(data).value;
      var tested := MentionsPhi(equation);
      && r.value["validation_type"] == Str("numerical")
      && r.value["valid"] == Bool(!tested || phiIdentityHolds)
      && r.value["confidence"] == Num(if !tested || phiIdentityHolds then 1.0 else 0.5)
      && r.value["precision"] == Str(PRECISION)
      && r.value["test_results"] == List(if tested then [List([Str("phi_identity"), Bool(phiIdentityHolds)])] else [])
  {
    var equation :- EquationOf(data);
    var tested := MentionsPhi(equation);
    var tests := if tested then [("phi_identity", phiIdentityHolds)] else [];
    var valid := forall i | 0 <= i < |tests| :: tests[i].1;
    assert valid == (!tested || phiIdentityHolds) by {
      if tested {
        assert tests[0].1 == phiIdentityHolds;
      }
    }
    var results := seq(|tests|, i requires 0 <= i < |tests| => List([Str(tests[i].0), Bool(tests[i].1)]));
    assert results == if tested then [List([Str("phi_identity"), Bool(phiIdentityHolds)])] else [];
    var updates := map[
      "validation_type" := Str("numerical"),
      "valid" := Bool(valid),
      "confidence" := Num(if valid then 1.0 else 0.5),
      "precision" := Str(PRECISION),
      "test_results" := List(results),
      "timestamp" := Str(now)];
    assert updates.Keys == NUMERICAL_KEYS;
    Ok(Merge(data, updates))
  }

  const SYMBOLIC_KEYS: set<string> := {"validation_type", "valid", "confidence", "symbolic_form", "timestamp"}

  /** `_verify_symbolic`: valid with confidence 0.9 when the equation is a string containing
      `=`. Any other equation value makes the `in` test or the `split` raise inside the
      judge's own `try`, which turns it into an invalid verdict with confidence 0.0. */
  function VerifySymbolic(data: Message, now: string): (r: Result<Message>)
    ensures r.Ok? <==> "equation" in data
    ensures r.Err? ==> r.error == KeyError("equation")
    ensures r.Ok? ==> Extends(r.value, data, SYMBOLIC_KEYS) && Judged(r.value)
    ensures r.Ok? ==>
      var valid := data["equation"].Str? && '=' in data["equation"].s;
      && r.value["validation_type"] == Str("symbolic")
      && r.value["valid"] == Bool(valid)
      && r.value["confidence"] == Num(if valid then 0.9 else 0.0)
      && r.value["symbolic_form"] == data["equation"]
  {
    if "equation" !in data then Err(KeyError("equation"))
    else
      var equation := data["equation"];
      var valid := match equation
        case Str(s) => '=' in s
        case _ => false;
      Ok(Merge(data, map[
        "validation_type" := Str("symbolic"),
        "valid" := Bool(valid),
        "confidence" := Num(if valid then 0.9 else 0.0),
        "symbolic_form" := equation,
        "timestamp" := Str(now)]))
  }

  /** The `if/elif` dispatch of `process_validation`: a worker type outside the three known
      ones assigns no `result`, and reading it raises UnboundLocalError. */
  function Judge(workerType: string, data: Message, now: string, phiIdentityHolds: bool): (r: Result<Message>)
    ensures workerType == THEOREM_CHECKER ==> r == CheckTheorem(data, now)
    ensures workerType == NUMERICAL_VALIDATOR ==> r == ValidateNumerical(data, now, phiIdentityHolds)
    ensures workerType == SYMBOLIC_VERIFIER ==> r == VerifySymbolic(data, now)
    ensures workerType !in {THEOREM_CHECKER, NUMERICAL_VALIDATOR, SYMBOLIC_VERIFIER} ==> r == Err(UnboundLocalError("result"))
    ensures r.Ok? ==> Judged(r.value) && r.value["equation"] == data["equation"]
    ensures r.Ok? <==>
      && workerType in {THEOREM_CHECKER, NUMERICAL_VALIDATOR, SYMBOLIC_VERIFIER}
      && "equation" in data
      && (workerType == SYMBOLIC_VERIFIER || data["equation"].Str?)
  {
    if workerType == THEOREM_CHECKER then CheckTheorem(data, now)
    else if workerType == NUMERICAL_VALIDATOR then ValidateNumerical(data, now, phiIdentityHolds)
    else if workerType == SYMBOLIC_VERIFIER then VerifySymbolic(data, now)
    else Err(UnboundLocalError("result"))
  }

  /** Whatever the judge, a valid verdict is about a string equation; so only string
      equations ever reach the table. */
  lemma ValidVerdictHasStringEquation(workerType: string, data: Message, now: string, phiIdentityHolds: bool)
    requires Judge(workerType, data, now, phiIdentityHolds).Ok?
    requires Judge(workerType, data, now, phiIdentityHolds).value["valid"] == Bool(true)
    ensures data["equation"].Str?
  {
  }

  /** The theorem checker accepts exactly the well-formed equations, with full confidence,
      and gives a well-formedness failure two thirds. */
  lemma TheoremVerdictIsWellFormedness(data: Message, now: string, equation: string)
    requires "equation" in data && data["equation"] == Str(equation)
    ensures CheckTheorem(data, now).Ok?
    ensures CheckTheorem(data, now).value["valid"] == Bool(WellFormed(equation))
    ensures (CheckTheorem(data, now).value["confidence"] == Num(1.0)) == WellFormed(equation)
  {
  }

  /** What `process_validation` decides for one delivery: the body must decode to an object
      and the worker's judge must return a result; any exception on the way means nack. */
  function ValidationOutcome(workerType: string, body: Option<Value>, now: string, phiIdentityHolds: bool): (r: Result<Message>)
    ensures r.Ok? ==> Judged(r.value)
    ensures body.None? ==> r == Err(DecodeError)
    ensures workerType !in {THEOREM_CHECKER, NUMERICAL_VALIDATOR, SYMBOLIC_VERIFIER} ==> r.Err?
    ensures r.Ok? ==>
      && body.Some? && body.value.Object? && "equation" in body.value.fields
      && r.value["equation"] == body.value.fields["equation"]
    ensures AsMessage(body).Ok? ==> r == Judge(workerType, AsMessage(body).value, now, phiIdentityHolds)
    ensures r.Ok? <==>
      && body.Some? && body.value.Object?
      && workerType in {THEOREM_CHECKER, NUMERICAL_VALIDATOR, SYMBOLIC_VERIFIER}
      && "equation" in body.value.fields
      && (workerType == SYMBOLIC_VERIFIER || body.value.fields["equation"].Str?)
  {
    var data :- AsMessage(body);
    Judge(workerType, data, now, phiIdentityHolds)
  }

  // ---------------------------------------------------------------- the result store

  /** A row of `validated_equations`. */
  datatype StoredEquation = StoredEquation(confidence: real, validationType: string, metadata: Message)

  /** One insert request: the values of the `INSERT` statement. */
  datatype Row = Row(equation: string, confidence: real, validationType: string, metadata: Message)

  function Max(a: real, b: real): real
  {
    if a >= b then a else b
  }

  /** `INSERT ... ON CONFLICT (equation) DO UPDATE`: one record per equation; a new equation
      is inserted as given, an existing one takes the greater confidence and the new metadata
      and keeps the validation type it was first inserted with. */
  function Upsert(table: map<string, StoredEquation>, row: Row): (r: map<string, StoredEquation>)
    ensures r.Keys == table.Keys + {row.equation}
    ensures row.equation !in table ==> r[row.equation] == StoredEquation(row.confidence, row.validationType, row.metadata)
    ensures row.equation in table ==>
      r[row.equation] == StoredEquation(Max(table[row.equation].confidence, row.confidence), table[row.equation].validationType, row.metadata)
    ensures forall e | e in table && e != row.equation :: r[e] == table[e]
  {
    var stored := if row.equation in table
      then StoredEquation(Max(table[row.equation].confidence, row.confidence), table[row.equation].validationType, row.metadata)
      else StoredEquation(row.confidence, row.validationType, row.metadata);
    table[row.equation := stored]
  }

  /** Storing the same result twice is the same as storing it once. */
  lemma UpsertIdempotent(table: map<string, StoredEquation>, row: Row)
    ensures Upsert(Upsert(table, row), row) == Upsert(table, row)
  {
    var once := Upsert(table, row);
    var twice := Upsert(once, row);
    assert twice.Keys == once.Keys;
    forall e | e in once
      ensures twice[e] == once[e]
    {
    }
  }

  /** No stored confidence ever decreases, and no record is ever removed. */
  lemma UpsertMonotone(table: map<string, StoredEquation>, row: Row)
    ensures forall e | e in table :: e in Upsert(table, row) && Upsert(table, row)[e].confidence >= table[e].confidence
  {
  }

  /** The table after a series of stores, in order. */
  function StoreAll(table: map<string, StoredEquation>, rows: seq<Row>): map<string, StoredEquation>
  {
    if rows == [] then table else Upsert(StoreAll(table, rows[..|rows| - 1]), rows[|rows| - 1])
  }

  /** Row `i` of `rows` is a store request for equation `e`. */
  predicate Offered(rows: seq<Row>, e: string, i: int)
  {
    0 <= i < |rows| && rows[i].equation == e
  }

  /** After any series of stores the table has a record for exactly the equations it had or
      was given; each record's confidence is the greatest confidence it had or was given, and
      its validation type is the one it had before the series, if it had one. */
  lemma {:induction false} StoreAllKeepsGreatest(table: map<string, StoredEquation>, rows: seq<Row>, e: string)
    ensures e in StoreAll(table, rows) <==> e in table || exists i :: Offered(rows, e, i)
    ensures e in StoreAll(table, rows) ==>
      && (e in table ==> table[e].confidence <= StoreAll(table, rows)[e].confidence)
      && (forall i | Offered(rows, e, i) :: rows[i].confidence <= StoreAll(table, rows)[e].confidence)
    ensures e in StoreAll(table, rows) ==>
      || (e in table && StoreAll(table, rows)[e].confidence == table[e].confidence)
      || (exists i :: Offered(rows, e, i) && rows[i].confidence == StoreAll(table, rows)[e].confidence)
    ensures e in table ==> StoreAll(table, rows)[e].validationType == table[e].validationType
  {
    if rows != [] {
      var init := rows[..|rows| - 1];
      var last := rows[|rows| - 1];
      StoreAllKeepsGreatest(table, init, e);
      var before := StoreAll(table, init);
      var after := StoreAll(table, rows);
      assert after == Upsert(before, last);
      OfferedInSeries(rows, init, e);
      if e in after {
        forall i | Offered(rows, e, i)
          ensures rows[i].confidence <= after[e].confidence
        {
          if i < |rows| - 1 {
            assert Offered(init, e, i);
          }
        }
        if last.equation == e && after[e].confidence == last.confidence {
          assert Offered(rows, e, |rows| - 1);
        } else if exists i :: Offered(init, e, i) && init[i].confidence == before[e].confidence {
          var i :| Offered(init, e, i) && init[i].confidence == before[e].confidence;
          assert Offered(rows, e, i);
        }
      }
    }
  }

  /** An equation is offered by a series of rows exactly when it is offered by all rows but
      the last, or by the last. */
  lemma OfferedInSeries(rows: seq<Row>, init: seq<Row>, e: string)
    requires rows != [] && init == rows[..|rows| - 1]
    ensures (exists i :: Offered(rows, e, i)) <==> (exists i :: Offered(init, e, i)) || rows[|rows| - 1].equation == e
  {
    if exists i :: Offered(init, e, i) {
      var i :| Offered(init, e, i);
      assert Offered(rows, e, i);
    }
    if rows[|rows| - 1].equation == e {
      assert Offered(rows, e, |rows| - 1);
    }
    if exists i :: Offered(rows, e, i) {
      var i :| Offered(rows, e, i);
      if i < |rows| - 1 {
        assert Offered(init, e, i);
      }
    }
  }

  // ---------------------------------------------------------------- the worker

  /** The Redis hash `validation:{worker}:{equation}`; field values are written as text. */
  datatype ValidationEntry = ValidationEntry(valid: string, confidence: real, timestamp: string)

  /** A stored record is the metadata of a valid verdict about its own equation, whose
      confidence is at most the stored (greatest) confidence. */
  predicate StoredRecord(equation: string, stored: StoredEquation)
  {
    && "equation" in stored.metadata && stored.metadata["equation"] == Str(equation)
    && "valid" in stored.metadata && stored.metadata["valid"] == Bool(true)
    && "confidence" in stored.metadata && stored.metadata["confidence"].Num?
    && stored.metadata["confidence"].n <= stored.confidence
  }

  /** One validation worker process with the Redis and PostgreSQL state it writes. */
  class ValidationWorker {
    const workerType: string
    /** The verdict hashes, keyed by the equation value (the worker's name being fixed). */
    var validationState: map<Value, ValidationEntry>
    /** `validations:success` and `validations:failed`. */
    var successCount: nat
    var failedCount: nat
    /** `validated_equations`, keyed by its unique `equation` column. */
    var validatedEquations: map<string, StoredEquation>

    /** Only valid verdicts are stored, each under its own equation. */
    ghost predicate Valid()
      reads this
    {
      forall e | e in validatedEquations :: StoredRecord(e, validatedEquations[e])
    }

    constructor(workerType: string)
      ensures Valid()
      ensures this.workerType == workerType
      ensures validationState == map[] && validatedEquations == map[]
      ensures successCount == 0 && failedCount == 0
    {
      this.workerType := workerType;
      validationState := map[];
      successCount := 0;
      failedCount := 0;
      validatedEquations := map[];
    }

    /** `_update_validation_state`: overwrite the verdict hash of the result's equation and
        add one to exactly one of the two counters. */
    method UpdateValidationState(result: Message)
      requires Judged(result)
      modifies this
      ensures validationState == old(validationState)[result["equation"] :=
        ValidationEntry(BoolStr(result["valid"].b), result["confidence"].n, result["timestamp"].s)]
      ensures successCount == old(successCount) + (if result["valid"].b then 1 else 0)
      ensures failedCount == old(failedCount) + (if result["valid"].b then 0 else 1)
      ensures validatedEquations == old(validatedEquations)
    {
      validationState := validationState[result["equation"] :=
        ValidationEntry(BoolStr(result["valid"].b), result["confidence"].n, result["timestamp"].s)];
      if result["valid"].b {
        successCount := successCount + 1;
      } else {
        failedCount := failedCount + 1;
      }
    }

    /** `_store_validated_equation`: the upsert of the result, with the whole result as metadata. */
    method StoreValidatedEquation(result: Message)
      requires Valid()
      requires Judged(result) && result["equation"].Str?
      requires result["valid"] == Bool(true)
      modifies this
      ensures Valid()
      ensures validatedEquations == Upsert(old(validatedEquations),
        Row(result["equation"].s, result["confidence"].n, result["validation_type"].s, result))
      ensures validationState == old(validationState)
      ensures successCount == old(successCount) && failedCount == old(failedCount)
    {
      var row := Row(result["equation"].s, result["confidence"].n, result["validation_type"].s, result);
      validatedEquations := Upsert(validatedEquations, row);
    }

    /** `process_validation`: judge the request; on any exception nack and change nothing;
        otherwise record the verdict, store it if valid, and ack. */
    method ProcessValidation(body: Option<Value>, now: string, phiIdentityHolds: bool) returns (d: Delivery)
      requires Valid()
      modifies this
      ensures Valid()
      ensures var r := ValidationOutcome(workerType, body, now, phiIdentityHolds);
        r.Err? ==> d == Nack && unchanged(this)
      ensures var r := ValidationOutcome(workerType, body, now, phiIdentityHolds);
        r.Ok? ==> var result := r.value; var valid := result["valid"].b;
          && d == Ack
          && validationState == old(validationState)[result["equation"] :=
               ValidationEntry(BoolStr(valid), result["confidence"].n, result["timestamp"].s)]
          && successCount == old(successCount) + (if valid then 1 else 0)
          && failedCount == old(failedCount) + (if valid then 0 else 1)
          && validatedEquations == (if valid then
               Upsert(old(validatedEquations), Row(result["equation"].s, result["confidence"].n, result["validation_type"].s, result))
             else old(validatedEquations))
    {
      var outcome := ValidationOutcome(workerType, body, now, phiIdentityHolds);
      if outcome.Err? {
        return Nack;
      }
      var result := outcome.value;
      UpdateValidationState(result);
      if result["valid"].b {
        var data := AsMessage(body).value;
        ValidVerdictHasStringEquation(workerType, data, now, phiIdentityHolds);
        StoreValidatedEquation(result);
      }
      return Ack;
    }
  }
}
