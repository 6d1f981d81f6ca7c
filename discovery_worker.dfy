/** The discovery worker: the worker's phase and binding key, the Python Betti vector and
    the `chi > 1` rejection gate, the three pipeline stages (pattern recognition, equation
    generation, phase optimisation), the Redis state a stage's result is written to, and the
    routing key the result is published under. */
module Discovery {
  import opened Strings
  import opened Json

  const PATTERN_RECOGNIZER: string := "pattern_recognizer"
  const EQUATION_GENERATOR: string := "equation_generator"
  const PHASE_OPTIMIZER: string := "phase_optimizer"

  const KNOWN_WORKERS: set<string> := {PATTERN_RECOGNIZER, EQUATION_GENERATOR, PHASE_OPTIMIZER}

  /** The worker module's PSI constant, as the decimal it writes. */
  const PSI: real := 0.618033988749894

  const PHI_CHAR: char := 'φ'
  const INTEGRAL: char := '∫'

  /** The two equations derived from the golden-ratio pattern. */
  const PHI_SQUARED: string := "φ² = φ + 1"
  const PHI_CLOSED_FORM: string := "φ = (1 + √5)/2"

  // ---------------------------------------------------------------- phase and binding

  /** `_determine_phase`: the three known workers have their own phase; any other name is
      treated as the present. */
  function DeterminePhase(workerType: string): (phase: string)
    ensures phase == "past" <==> workerType == PATTERN_RECOGNIZER
    ensures phase == "future" <==> workerType == PHASE_OPTIMIZER
    ensures phase == "present" <==> workerType != PATTERN_RECOGNIZER && workerType != PHASE_OPTIMIZER
  {
    var phases := map[PATTERN_RECOGNIZER := "past", EQUATION_GENERATOR := "present", PHASE_OPTIMIZER := "future"];
    if workerType in phases then phases[workerType] else "present"
  }

  /** The binding key `discovery.{phase}.*` of the worker's queue on the discovery
      exchange, written as its dot-separated words. */
  function DiscoveryBinding(phase: string): string
  {
    Join(["discovery", phase, "*"], '.')
  }

  /** The binding key is the text `discovery.`, the phase, then `.*`. */
  lemma DiscoveryBindingText(phase: string)
    ensures DiscoveryBinding(phase) == "discovery." + phase + ".*"
  {
    var words := ["discovery", phase, "*"];
    assert words[1..] == [phase, "*"];
    assert [phase, "*"][1..] == ["*"];
    assert Join([phase, "*"], '.') == phase + ['.'] + "*";
    assert Join(words, '.') == "discovery" + ['.'] + Join([phase, "*"], '.');
    assert "discovery." == "discovery" + ['.'];
    assert ".*" == ['.'] + "*";
  }

  /** The words of the routing key `_route_discovery` chooses from the result's `phase`. */
  function RoutingKeyWords(phase: Value): seq<string>
  {
    if phase == Str("past") then ["discovery", "present", "equation"]
    else if phase == Str("present") then ["discovery", "future", "optimize"]
    else ["validation", "request"]
  }

  /** `_route_discovery`: the routing key chosen from the result's `phase` field. */
  function RoutingKey(phase: Value): string
  {
    Join(RoutingKeyWords(phase), '.')
  }

  /** The routing keys spelled out; first the pattern recognizer's. */
  lemma PastRoutingKeyText()
    ensures RoutingKey(Str("past")) == "discovery.present.equation"
  {
  }

  /** The equation generator's key. */
  lemma PresentRoutingKeyText()
    ensures RoutingKey(Str("present")) == "discovery.future.optimize"
  {
  }

  /** The key for any other phase. */
  lemma OtherRoutingKeyText(phase: Value)
    requires phase != Str("past") && phase != Str("present")
    ensures RoutingKey(phase) == "validation.request"
  {
    assert RoutingKeyWords(phase) == ["validation", "request"];
    assert Join(["validation", "request"], '.') == "validation.request";
  }

  // ---------------------------------------------------------------- topology gate

  /** `[B0, B1, B2]` as the Python worker counts them. */
  datatype Betti = Betti(b0: nat, b1: nat, b2: nat)

  /** `compute_betti_vector`: one more than the `=` signs, half the opening parentheses
      (rounded down), and the integral signs. */
  function ComputeBettiVector(equation: string): (v: Betti)
    ensures v.b0 >= 1
  {
    Betti(CountChar(equation, '=') + 1, CountChar(equation, '(') / 2, CountChar(equation, INTEGRAL))
  }

  /** B0 - B1 + B2. */
  function Chi(v: Betti): int
  {
    v.b0 - v.b1 + v.b2
  }

  /** The message passes the gate when its chi is at most 1. */
  predicate PassesTopologyGate(equation: string)
  {
    Chi(ComputeBettiVector(equation)) <= 1
  }

  /** The gate lets an equation through exactly when its opening parentheses number at least
      twice its `=` and integral signs together; in particular no equation with an `=`
      passes without at least two opening parentheses. */
  lemma GateCounts(equation: string)
    ensures PassesTopologyGate(equation) <==>
      2 * (CountChar(equation, '=') + CountChar(equation, INTEGRAL)) <= CountChar(equation, '(')
    ensures '=' in equation && CountChar(equation, '(') < 2 ==> !PassesTopologyGate(equation)
  {
    var p := CountChar(equation, '(');
    assert p / 2 * 2 <= p < p / 2 * 2 + 2;
  }

  // ---------------------------------------------------------------- stages

  /** The rank of each recognisable pattern in the fixed order of the checks. */
  function PatternRank(pattern: string): nat
  {
    if pattern == "golden_ratio" then 0 else if pattern == "laplacian" then 1 else 2
  }

  /** The three pattern names are distinct and ranked 0, 1, 2. */
  lemma PatternNames()
    ensures "golden_ratio" != "laplacian" && "golden_ratio" != "integral" && "laplacian" != "integral"
    ensures PatternRank("golden_ratio") == 0 && PatternRank("laplacian") == 1 && PatternRank("integral") == 2
  {
  }

  /** The patterns `_recognize_patterns` finds: golden ratio for `φ` or a case-insensitive
      `phi`, laplacian for `∇²` or `d²/dx²`, integral for `∫`, each at most once and in that
      order. */
  function PatternsOf(equation: string): (patterns: seq<string>)
    ensures "golden_ratio" in patterns <==> PHI_CHAR in equation || Contains(ToLower(equation), "phi")
    ensures "laplacian" in patterns <==> Contains(equation, "∇²") || Contains(equation, "d²/dx²")
    ensures "integral" in patterns <==> INTEGRAL in equation
    ensures forall i | 0 <= i < |patterns| :: patterns[i] in {"golden_ratio", "laplacian", "integral"}
    ensures forall i, j | 0 <= i < j < |patterns| :: PatternRank(patterns[i]) < PatternRank(patterns[j])
  {
    var golden := PHI_CHAR in equation || Contains(ToLower(equation), "phi");
    var laplacian := exists op | op in ["∇²", "d²/dx²"] :: Contains(equation, op);
    var integral := INTEGRAL in equation;
    PatternList(golden, laplacian, integral)
  }

  /** The names of the patterns found, in the order of the checks. */
  function PatternList(golden: bool, laplacian: bool, integral: bool): (patterns: seq<string>)
    ensures "golden_ratio" in patterns <==> golden
    ensures "laplacian" in patterns <==> laplacian
    ensures "integral" in patterns <==> integral
    ensures forall i | 0 <= i < |patterns| :: patterns[i] in {"golden_ratio", "laplacian", "integral"}
    ensures forall i, j | 0 <= i < j < |patterns| :: PatternRank(patterns[i]) < PatternRank(patterns[j])
  {
    PatternNames();
    (if golden then ["golden_ratio"] else [])
      + (if laplacian then ["laplacian"] else [])
      + (if integral then ["integral"] else [])
  }

  /** A list of strings as a JSON value. */
  function StrList(items: seq<string>): (v: Value)
    ensures v.List? && |v.items| == |items|
    ensures forall i | 0 <= i < |items| :: v.items[i] == Str(items[i])
  {
    List(seq(|items|, i requires 0 <= i < |items| => Str(items[i])))
  }

  /** `{**data, **updates}` where `updates` has exactly the keys `names`. */
  predicate Extends(result: Message, data: Message, names: set<string>)
  {
    && result.Keys == data.Keys + names
    && forall k | k in data && k !in names :: result[k] == data[k]
  }

  const RECOGNIZE_KEYS: set<string> := {"patterns", "phase", "timestamp", "worker"}

  /** `_recognize_patterns` (the past phase); the clock reading `now` is a parameter. */
  function RecognizePatterns(data: Message, workerType: string, now: string): (r: Result<Message>)
    ensures r.Ok? <==> EquationOf(data).Ok?
    ensures r.Ok? ==>
      && Extends(r.value, data, RECOGNIZE_KEYS)
      && r.value["patterns"] == StrList(PatternsOf(EquationOf(data).value))
      && r.value["phase"] == Str("past")
      && r.value["timestamp"] == Str(now)
      && r.value["worker"] == Str(workerType)
  {
    var equation :- EquationOf(data);
    Ok(Merge(data, map[
      "patterns" := StrList(PatternsOf(equation)),
      "phase" := Str("past"),
      "timestamp" := Str(now),
      "worker" := Str(workerType)]))
  }

  /** Python's `needle in container` for a string needle: list membership, substring, or
      dict key; any other container raises TypeError. */
  function PyContains(container: Value, needle: string): (r: Result<bool>)
    ensures container.List? ==> r == Ok(Str(needle) in container.items)
    ensures container.Str? ==> r == Ok(Contains(container.s, needle))
    ensures container.Object? ==> r == Ok(needle in container.fields)
    ensures r.Err? <==> !(container.List? || container.Str? || container.Object?)
  {
    match container
    case List(items) => Ok(Str(needle) in items)
    case Str(s) => Ok(Contains(s, needle))
    case Object(fields) => Ok(needle in fields)
    case _ => Err(TypeError)
  }

  const GENERATE_KEYS: set<string> := {"derived_equations", "phase", "confidence", "worker"}

  /** `_generate_equations` (the present phase): the golden-ratio pattern yields its two
      identities. The random draw in [0, 1) behind the confidence is the parameter `draw`. */
  function GenerateEquations(data: Message, workerType: string, draw: real): (r: Result<Message>)
    requires 0.0 <= draw < 1.0
    ensures r.Ok? <==> PyContains(Get(data, "patterns", List([])), "golden_ratio").Ok?
    ensures r.Ok? ==>
      var golden := PyContains(Get(data, "patterns", List([])), "golden_ratio").value;
      && Extends(r.value, data, GENERATE_KEYS)
      && r.value["derived_equations"] == StrList(if golden then [PHI_SQUARED, PHI_CLOSED_FORM] else [])
      && r.value["phase"] == Str("present")
      && r.value["confidence"].Num? && 0.8 <= r.value["confidence"].n < 1.0
      && r.value["worker"] == Str(workerType)
  {
    var patterns := Get(data, "patterns", List([]));
    var golden :- PyContains(patterns, "golden_ratio");
    var derived := if golden then [PHI_SQUARED, PHI_CLOSED_FORM] else [];
    Ok(Merge(data, map[
      "derived_equations" := StrList(derived),
      "phase" := Str("present"),
      "confidence" := Num(0.8 + draw * 0.2),
      "worker" := Str(workerType)]))
  }

  const OPTIMIZE_KEYS: set<string> := {"phase_lock", "implications", "phase", "optimized", "worker"}

  /** `_optimize_phase` (the future phase): a confidence above PSI implies the golden
      structure. The phase-lock coherence, computed from other workers' Redis entries, is
      the parameter `coherence`; comparing a non-numeric confidence raises TypeError. */
  function OptimizePhase(data: Message, workerType: string, coherence: real): (r: Result<Message>)
    ensures r.Ok? <==> NumberOf(Get(data, "confidence", Num(0.0))).Some?
    ensures r.Ok? ==>
      var above := NumberOf(Get(data, "confidence", Num(0.0))).value > PSI;
      && Extends(r.value, data, OPTIMIZE_KEYS)
      && r.value["implications"] == StrList(if above then ["validates_golden_structure"] else [])
      && r.value["phase_lock"] == Num(coherence)
      && r.value["phase"] == Str("future")
      && r.value["optimized"] == Bool(true)
      && r.value["worker"] == Str(workerType)
  {
    var confidence := NumberOf(Get(data, "confidence", Num(0.0)));
    if confidence.None? then Err(TypeError)
    else
      var implications := if confidence.value > PSI then ["validates_golden_structure"] else [];
      Ok(Merge(data, map[
        "phase_lock" := Num(coherence),
        "implications" := StrList(implications),
        "phase" := Str("future"),
        "optimized" := Bool(true),
        "worker" := Str(workerType)]))
  }

  /** Every stage writes `phase` and none writes `equation`. */
  lemma StageKeys()
    ensures "phase" in RECOGNIZE_KEYS && "phase" in GENERATE_KEYS && "phase" in OPTIMIZE_KEYS
    ensures "equation" !in RECOGNIZE_KEYS && "equation" !in GENERATE_KEYS && "equation" !in OPTIMIZE_KEYS
  {
  }

  /** The stage dispatch of `process_discovery`: an unknown worker type assigns no `result`. */
  function Stage(workerType: string, data: Message, now: string, draw: real, coherence: real): (r: Result<Message>)
    requires 0.0 <= draw < 1.0
    ensures workerType !in KNOWN_WORKERS ==> r == Err(UnboundLocalError("result"))
    ensures r.Ok? ==> "phase" in r.value && r.value["phase"] == Str(DeterminePhase(workerType))
    ensures r.Ok? && "equation" in data ==> "equation" in r.value && r.value["equation"] == data["equation"]
    ensures workerType == PATTERN_RECOGNIZER ==> r == RecognizePatterns(data, workerType, now)
    ensures workerType == EQUATION_GENERATOR ==> r == GenerateEquations(data, workerType, draw)
    ensures workerType == PHASE_OPTIMIZER ==> r == OptimizePhase(data, workerType, coherence)
    ensures r.Ok? <==>
      || (workerType == PATTERN_RECOGNIZER && EquationOf(data).Ok?)
      || (workerType == EQUATION_GENERATOR && PyContains(Get(data, "patterns", List([])), "golden_ratio").Ok?)
      || (workerType == PHASE_OPTIMIZER && NumberOf(Get(data, "confidence", Num(0.0))).Some?)
  {
    StageKeys();
    if workerType == PATTERN_RECOGNIZER then RecognizePatterns(data, workerType, now)
    else if workerType == EQUATION_GENERATOR then GenerateEquations(data, workerType, draw)
    else if workerType == PHASE_OPTIMIZER then OptimizePhase(data, workerType, coherence)
    else Err(UnboundLocalError("result"))
  }

  /** How far one delivery gets before any Redis write. */
  datatype Prepared =
    | Failed(error: PyError)   // an exception before any write
    | Rejected(chi: int)       // the topology gate nacks it
    | Staged(result: Message)  // the stage's result, to be recorded and routed

  /** Decode the body, read its equation, apply the gate, run the worker's stage. */
  function Prepare(workerType: string, body: Option<Value>, now: string, draw: real, coherence: real): (p: Prepared)
    requires 0.0 <= draw < 1.0
    ensures p.Staged? ==>
      && workerType in KNOWN_WORKERS
      && "phase" in p.result && p.result["phase"] == Str(DeterminePhase(workerType))
      && "equation" in p.result && p.result["equation"].Str?
      && PassesTopologyGate(p.result["equation"].s)
    ensures p.Rejected? <==>
      && AsMessage(body).Ok? && EquationOf(AsMessage(body).value).Ok?
      && !PassesTopologyGate(EquationOf(AsMessage(body).value).value)
    ensures p.Rejected? ==> p.chi > 1
    ensures p.Staged? <==>
      && AsMessage(body).Ok? && EquationOf(AsMessage(body).value).Ok?
      && PassesTopologyGate(EquationOf(AsMessage(body).value).value)
      && Stage(workerType, AsMessage(body).value, now, draw, coherence).Ok?
    ensures p.Staged? ==> p.result == Stage(workerType, AsMessage(body).value, now, draw, coherence).value
  {
    match AsMessage(body)
    case Err(e) => Failed(e)
    case Ok(data) =>
      match EquationOf(data)
      case Err(e) => Failed(e)
      case Ok(equation) =>
        var chi := Chi(ComputeBettiVector(equation));
        if chi > 1 then Rejected(chi)
        else match Stage(workerType, data, now, draw, coherence)
          case Err(e) => Failed(e)
          case Ok(result) => Staged(result)
  }

  // ---------------------------------------------------------------- shared state

  /** The `last_discovery` hash. */
  datatype LastDiscovery = LastDiscovery(equation: Value, confidence: Value, timestamp: Value)

  /** One message published on the discovery exchange. */
  datatype Publication = Publication(routingKey: string, body: Message)

  /** The Redis key of a worker's phase stamp. */
  function PhaseKey(workerType: string): string
  {
    "phase:" + workerType
  }

  /** The `last_discovery` write of `_update_shared_state`: none when the confidence (default
      0) is at most PSI, the three fields otherwise; an error when the confidence is not a
      number or a field it reads is missing. */
  function LastDiscoveryUpdate(result: Message): (r: Result<Option<LastDiscovery>>)
    ensures r.Err? <==>
      || NumberOf(Get(result, "confidence", Num(0.0))).None?
      || (NumberOf(Get(result, "confidence", Num(0.0))).value > PSI && ("equation" !in result || "timestamp" !in result))
    ensures r.Ok? && r.value.Some? <==> r.Ok? && NumberOf(Get(result, "confidence", Num(0.0))).value > PSI
    ensures r.Ok? && r.value.Some? ==>
      r.value.value == LastDiscovery(result["equation"], result["confidence"], result["timestamp"])
  {
    var confidence := NumberOf(Get(result, "confidence", Num(0.0)));
    if confidence.None? then Err(TypeError)
    else if confidence.value <= PSI then Ok(None)
    else if "equation" !in result then Err(KeyError("equation"))
    else if "timestamp" !in result then Err(KeyError("timestamp"))
    else Ok(Some(LastDiscovery(result["equation"], result["confidence"], result["timestamp"])))
  }

  /** The `chi_current` write: none without a `betti` field; otherwise B0 - B1 + B2 of its
      first three entries, which fails unless it is a list of at least three numbers. */
  function ChiUpdate(result: Message): (r: Result<Option<real>>)
    ensures "betti" !in result ==> r == Ok(None)
    ensures "betti" in result ==> (r.Ok? <==>
      && result["betti"].List? && |result["betti"].items| >= 3
      && NumberOf(result["betti"].items[0]).Some?
      && NumberOf(result["betti"].items[1]).Some?
      && NumberOf(result["betti"].items[2]).Some?)
    ensures "betti" in result && r.Ok? ==> var items := result["betti"].items;
      r == Ok(Some(NumberOf(items[0]).value - NumberOf(items[1]).value + NumberOf(items[2]).value))
  {
    if "betti" !in result then Ok(None)
    else match result["betti"]
      case List(items) =>
        if |items| < 3 then Err(IndexError)
        else
          var b0, b1, b2 := NumberOf(items[0]), NumberOf(items[1]), NumberOf(items[2]);
          if b0.Some? && b1.Some? && b2.Some? then Ok(Some(b0.value - b1.value + b2.value))
          else Err(TypeError)
      case _ => Err(TypeError)
  }

  /** What the model publishes: the worker's phase, a string equation that passed the gate,
      and the routing key of that phase. The string part holds because the model fails every
      non-string equation at `data['equation']`. */
  predicate Forwarded(publication: Publication, phase: string)
  {
    && "phase" in publication.body && publication.body["phase"] == Str(phase)
    && publication.routingKey == RoutingKey(Str(phase))
    && "equation" in publication.body && publication.body["equation"].Str?
    && PassesTopologyGate(publication.body["equation"].s)
  }

  /** One discovery worker process with the Redis state it writes and the messages it has
      published. */
  class DiscoveryWorker {
    const workerType: string
    const phase: string
    /** `phase:{worker}`: the clock reading of the worker's last processed message. */
    var phaseStamps: map<string, real>
    var lastDiscovery: Option<LastDiscovery>
    var chiCurrent: Option<real>
    var published: seq<Publication>

    ghost predicate Valid()
      reads this
    {
      && phase == DeterminePhase(workerType)
      && forall i | 0 <= i < |published| :: Forwarded(published[i], phase)
    }

    constructor(workerType: string)
      ensures Valid()
      ensures this.workerType == workerType && phase == DeterminePhase(workerType)
      ensures phaseStamps == map[] && lastDiscovery == None && chiCurrent == None && published == []
    {
      this.workerType := workerType;
      phase := DeterminePhase(workerType);
      phaseStamps := map[];
      lastDiscovery := None;
      chiCurrent := None;
      published := [];
    }

    /** `_update_shared_state`: stamp the phase, then write `last_discovery`, then
        `chi_current`; an exception stops the sequence with the earlier writes kept. */
    method UpdateSharedState(result: Message, clock: real) returns (ok: bool)
      modifies this
      ensures phaseStamps == old(phaseStamps)[PhaseKey(workerType) := clock]
      ensures var ld := LastDiscoveryUpdate(result);
        lastDiscovery == (if ld.Ok? && ld.value.Some? then ld.value else old(lastDiscovery))
      ensures var ld, cu := LastDiscoveryUpdate(result), ChiUpdate(result);
        chiCurrent == (if ld.Ok? && cu.Ok? && cu.value.Some? then cu.value else old(chiCurrent))
      ensures ok <==> LastDiscoveryUpdate(result).Ok? && ChiUpdate(result).Ok?
      ensures published == old(published)
    {
      phaseStamps := phaseStamps[PhaseKey(workerType) := clock];
      var last := LastDiscoveryUpdate(result);
      if last.Err? {
        return false;
      }
      if last.value.Some? {
        lastDiscovery := last.value;
      }
      var chi := ChiUpdate(result);
      if chi.Err? {
        return false;
      }
      if chi.value.Some? {
        chiCurrent := chi.value;
      }
      return true;
    }

    /** `_route_discovery`: publish the result under the key its phase selects. */
    method RouteDiscovery(result: Message)
      requires "phase" in result
      modifies this
      ensures published == old(published) + [Publication(RoutingKey(result["phase"]), result)]
      ensures phaseStamps == old(phaseStamps) && lastDiscovery == old(lastDiscovery) && chiCurrent == old(chiCurrent)
    {
      published := published + [Publication(RoutingKey(result["phase"]), result)];
    }

    /** `process_discovery`: nack, changing nothing, on a decoding error, a missing
        equation, the topology gate or a stage error; otherwise write the shared state and,
        if that raised nothing, publish the result and ack. */
    method ProcessDiscovery(body: Option<Value>, now: string, clock: real, draw: real, coherence: real)
      returns (d: Delivery)
      requires Valid()
      requires 0.0 <= draw < 1.0
      modifies this
      ensures Valid()
      ensures var p := Prepare(workerType, body, now, draw, coherence);
        !p.Staged? ==> d == Nack && unchanged(this)
      ensures var p := Prepare(workerType, body, now, draw, coherence);
        p.Staged? ==>
          var ld, cu := LastDiscoveryUpdate(p.result), ChiUpdate(p.result);
          && phaseStamps == old(phaseStamps)[PhaseKey(workerType) := clock]
          && lastDiscovery == (if ld.Ok? && ld.value.Some? then ld.value else old(lastDiscovery))
          && chiCurrent == (if ld.Ok? && cu.Ok? && cu.value.Some? then cu.value else old(chiCurrent))
          && (d == Ack <==> ld.Ok? && cu.Ok?)
          && published == (if d == Ack then old(published) + [Publication(RoutingKey(Str(phase)), p.result)]
                           else old(published))
    {
      var prepared := Prepare(workerType, body, now, draw, coherence);
      if !prepared.Staged? {
        return Nack;
      }
      var result := prepared.result;
      var ok := UpdateSharedState(result, clock);
      if !ok {
        return Nack;
      }
      RouteDiscovery(result);
      assert Forwarded(published[|published| - 1], phase);
      return Ack;
    }
  }
}
