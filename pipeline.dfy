/** Properties that connect the pieces: which worker each published routing key reaches on
    the topic exchange, the three hops from pattern recognition to validation, and how the
    Rust and Python Betti vectors of one equation compare. */
module Pipeline {
  import opened Strings
  import opened Json
  import opened TopicRouting
  import opened Discovery
  import Validation
  import PhiTopology

  /** A phase is a single word without wildcards. */
  lemma PhaseIsPlainWord(workerType: string)
    ensures var phase := DeterminePhase(workerType);
      '.' !in phase && phase != "*" && phase != "#"
  {
    var phase := DeterminePhase(workerType);
    assert phase == "past" || phase == "present" || phase == "future";
  }

  /** The words of a discovery binding: the plain prefix `discovery`, the phase, then `*`. */
  lemma DiscoveryPrefix(phase: string)
    requires '.' !in phase && phase != "*" && phase != "#"
    ensures var prefix := ["discovery", phase];
      && DiscoveryBinding(phase) == Join(prefix + ["*"], '.')
      && Literal(prefix) && HashFree(prefix + ["*"])
      && forall i | 0 <= i < |prefix| + 1 :: '.' !in (prefix + ["*"])[i]
  {
    var prefix := ["discovery", phase];
    assert prefix + ["*"] == ["discovery", phase, "*"];
  }

  /** A binding `discovery.{phase}.*` matches a three-word key exactly when the key's first
      word is `discovery` and its second is the phase. */
  lemma BindingMatchesKey(phase: string, key: seq<string>)
    requires '.' !in phase && phase != "*" && phase != "#"
    requires |key| == 3 && forall i | 0 <= i < 3 :: '.' !in key[i]
    ensures TopicMatches(DiscoveryBinding(phase), Join(key, '.')) <==> key[0] == "discovery" && key[1] == phase
  {
    var prefix := ["discovery", phase];
    DiscoveryPrefix(phase);
    PrefixStarTopic(prefix, key);
    TwoWordPrefix(key, "discovery", phase);
  }

  /** A key starts with the words `a`, `b` exactly when its first two words are `a` and `b`. */
  lemma TwoWordPrefix(key: seq<string>, a: string, b: string)
    requires |key| >= 2
    ensures key[..2] == [a, b] <==> key[0] == a && key[1] == b
  {
    assert key[..2] == [key[0], key[1]];
  }

  /** A binding `discovery.{phase}.*` matches no two-word key. */
  lemma BindingMissesShortKey(phase: string, key: seq<string>)
    requires '.' !in phase && phase != "*" && phase != "#"
    requires |key| == 2 && forall i | 0 <= i < 2 :: '.' !in key[i]
    ensures !TopicMatches(DiscoveryBinding(phase), Join(key, '.'))
  {
    var prefix := ["discovery", phase];
    DiscoveryPrefix(phase);
    PrefixStarTopic(prefix, key);
  }

  /** A binding made of dot-free literal words and a final `*`, against a key made of dot-free
      words: it matches the keys of one more word that start with those words. */
  lemma PrefixStarTopic(prefix: seq<string>, key: seq<string>)
    requires Literal(prefix)
    requires forall i | 0 <= i < |prefix| + 1 :: '.' !in (prefix + ["*"])[i]
    requires |key| >= 1 && forall i | 0 <= i < |key| :: '.' !in key[i]
    ensures TopicMatches(Join(prefix + ["*"], '.'), Join(key, '.')) <==> |key| == |prefix| + 1 && key[..|prefix|] == prefix
  {
    TopicMatchesJoined(prefix + ["*"], key);
    PrefixStarMatches(prefix, key);
  }

  /** A binding without wildcards matches only the key made of its own words. */
  lemma LiteralBindingMatches(binding: seq<string>, key: seq<string>)
    requires |binding| >= 1 && forall i | 0 <= i < |binding| :: '.' !in binding[i]
    requires |key| >= 1 && forall i | 0 <= i < |key| :: '.' !in key[i]
    requires Literal(binding)
    ensures TopicMatches(Join(binding, '.'), Join(key, '.')) <==> key == binding
  {
    TopicMatchesJoined(binding, key);
    LiteralMatchesItself(binding, key);
  }

  /** The validation binding `validation.request` matches only the key of those two words. */
  lemma RequestMatchesKey(key: seq<string>)
    requires |key| >= 1 && forall i | 0 <= i < |key| :: '.' !in key[i]
    ensures TopicMatches(Validation.REQUEST_BINDING, Join(key, '.')) <==> key == ["validation", "request"]
  {
    RequestWordsArePlain();
    LiteralBindingMatches(Validation.REQUEST_BINDING_WORDS, key);
  }

  /** The validation binding's words are dot-free and without wildcards. */
  lemma RequestWordsArePlain()
    ensures var words := Validation.REQUEST_BINDING_WORDS;
      && |words| >= 1 && (forall i | 0 <= i < |words| :: '.' !in words[i]) && Literal(words)
  {
  }

  /** The workers (known or not) whose queue a routing key reaches. */
  predicate Receives(workerType: string, routingKey: string)
  {
    TopicMatches(DiscoveryBinding(DeterminePhase(workerType)), routingKey)
  }

  /** The key a known worker publishes under reaches exactly the next stage: the pattern
      recognizer's reaches the workers whose phase is the present (the equation generator, and
      any worker of unknown type, which is also given that phase), the equation generator's
      reaches the phase optimizer alone, and the phase optimizer's reaches no discovery worker.
      Only the phase optimizer's key reaches the validation queues. */
  lemma RoutingReachesNextStage(from: string, to: string)
    requires from in KNOWN_WORKERS
    ensures Receives(to, RoutingKey(Str(DeterminePhase(from)))) <==>
      || (from == PATTERN_RECOGNIZER && DeterminePhase(to) == "present")
      || (from == EQUATION_GENERATOR && to == PHASE_OPTIMIZER)
    ensures TopicMatches(Validation.REQUEST_BINDING, RoutingKey(Str(DeterminePhase(from)))) <==> from == PHASE_OPTIMIZER
  {
    var phase := DeterminePhase(to);
    PhaseIsPlainWord(to);
    var words := RoutingKeyWords(Str(DeterminePhase(from)));
    if from == PATTERN_RECOGNIZER {
      HopWithinDiscovery(phase, "present", "equation", words);
    } else if from == EQUATION_GENERATOR {
      HopWithinDiscovery(phase, "future", "optimize", words);
      assert phase == "future" <==> to == PHASE_OPTIMIZER;
    } else {
      HopFromFuture(phase, words);
    }
  }

  /** A key `discovery.{next}.{last}` reaches the phase `next` alone, and not validation. */
  lemma HopWithinDiscovery(phase: string, next: string, last: string, words: seq<string>)
    requires '.' !in phase && phase != "*" && phase != "#"
    requires '.' !in next && '.' !in last
    requires words == ["discovery", next, last]
    ensures TopicMatches(DiscoveryBinding(phase), Join(words, '.')) <==> phase == next
    ensures !TopicMatches(Validation.REQUEST_BINDING, Join(words, '.'))
  {
    BindingMatchesKey(phase, words);
    RequestMatchesKey(words);
  }

  /** The phase optimizer's key reaches validation, and no discovery phase. */
  lemma HopFromFuture(phase: string, words: seq<string>)
    requires '.' !in phase && phase != "*" && phase != "#"
    requires words == ["validation", "request"]
    ensures !TopicMatches(DiscoveryBinding(phase), Join(words, '.'))
    ensures TopicMatches(Validation.REQUEST_BINDING, Join(words, '.'))
  {
    BindingMissesShortKey(phase, words);
    RequestMatchesKey(words);
  }

  /** The known workers a routing key reaches. */
  function KnownReceivers(routingKey: string): set<string>
  {
    set w | w in KNOWN_WORKERS && Receives(w, routingKey)
  }

  /** A message that enters at the pattern recognizer is published three times: to the
      equation generator, then to the phase optimizer, then to validation, and at each hop to
      that receiver alone; the last key is the validation binding itself. */
  lemma ThreeHopsToValidation()
    ensures var hop1 := RoutingKey(Str(DeterminePhase(PATTERN_RECOGNIZER)));
      KnownReceivers(hop1) == {EQUATION_GENERATOR} && !TopicMatches(Validation.REQUEST_BINDING, hop1)
    ensures var hop2 := RoutingKey(Str(DeterminePhase(EQUATION_GENERATOR)));
      KnownReceivers(hop2) == {PHASE_OPTIMIZER} && !TopicMatches(Validation.REQUEST_BINDING, hop2)
    ensures var hop3 := RoutingKey(Str(DeterminePhase(PHASE_OPTIMIZER)));
      KnownReceivers(hop3) == {} && TopicMatches(Validation.REQUEST_BINDING, hop3)
    ensures RoutingKey(Str(DeterminePhase(PHASE_OPTIMIZER))) == Validation.REQUEST_BINDING
  {
    FirstHop();
    SecondHop();
    LastHop();
    FinalKeyIsRequestBinding();
  }

  /** The pattern recognizer's key reaches the equation generator alone. */
  lemma FirstHop()
    ensures var hop1 := RoutingKey(Str(DeterminePhase(PATTERN_RECOGNIZER)));
      KnownReceivers(hop1) == {EQUATION_GENERATOR} && !TopicMatches(Validation.REQUEST_BINDING, hop1)
  {
    OneHop(PATTERN_RECOGNIZER);
  }

  /** The equation generator's key reaches the phase optimizer alone. */
  lemma SecondHop()
    ensures var hop2 := RoutingKey(Str(DeterminePhase(EQUATION_GENERATOR)));
      KnownReceivers(hop2) == {PHASE_OPTIMIZER} && !TopicMatches(Validation.REQUEST_BINDING, hop2)
  {
    OneHop(EQUATION_GENERATOR);
  }

  /** The phase optimizer's key reaches the validation queues and no discovery worker. */
  lemma LastHop()
    ensures var hop3 := RoutingKey(Str(DeterminePhase(PHASE_OPTIMIZER)));
      KnownReceivers(hop3) == {} && TopicMatches(Validation.REQUEST_BINDING, hop3)
  {
    OneHop(PHASE_OPTIMIZER);
  }

  /** The phase optimizer publishes under the validation binding itself. */
  lemma FinalKeyIsRequestBinding()
    ensures RoutingKey(Str(DeterminePhase(PHASE_OPTIMIZER))) == Validation.REQUEST_BINDING
  {
    assert RoutingKeyWords(Str(DeterminePhase(PHASE_OPTIMIZER))) == Validation.REQUEST_BINDING_WORDS;
  }

  /** Among the known workers only the equation generator has the present phase. */
  lemma PresentAmongKnown(w: string)
    ensures w in KNOWN_WORKERS ==> (DeterminePhase(w) == "present" <==> w == EQUATION_GENERATOR)
  {
  }

  /** The known workers that consume what a known worker publishes. */
  function NextStages(from: string): set<string>
  {
    if from == PATTERN_RECOGNIZER then {EQUATION_GENERATOR}
    else if from == EQUATION_GENERATOR then {PHASE_OPTIMIZER}
    else {}
  }

  /** The known receivers of one worker's key are its next stages. */
  lemma OneHop(from: string)
    requires from in KNOWN_WORKERS
    ensures KnownReceivers(RoutingKey(Str(DeterminePhase(from)))) == NextStages(from)
    ensures TopicMatches(Validation.REQUEST_BINDING, RoutingKey(Str(DeterminePhase(from)))) <==> from == PHASE_OPTIMIZER
  {
    var key := RoutingKey(Str(DeterminePhase(from)));
    forall w
      ensures w in KnownReceivers(key) <==> w in NextStages(from)
    {
      ReceiverIsNextStage(from, w);
    }
    RoutingReachesNextStage(from, from);
  }

  /** One worker receives a known worker's key exactly when it is a next stage. */
  lemma ReceiverIsNextStage(from: string, w: string)
    requires from in KNOWN_WORKERS
    ensures w in KnownReceivers(RoutingKey(Str(DeterminePhase(from)))) <==> w in NextStages(from)
  {
    PresentAmongKnown(w);
    RoutingReachesNextStage(from, w);
  }

  /** Every stage keeps the message's equation, so each hop applies the gate to the same
      equation: a message forwarded once passes the gate at every later hop. */
  lemma GateStableAlongPipeline(workerType: string, data: Message, now: string, draw: real, coherence: real)
    requires 0.0 <= draw < 1.0
    requires Stage(workerType, data, now, draw, coherence).Ok?
    requires "equation" in data && data["equation"].Str? && PassesTopologyGate(data["equation"].s)
    ensures var next := Stage(workerType, data, now, draw, coherence).value;
      EquationOf(next) == EquationOf(data) && PassesTopologyGate(EquationOf(next).value)
  {
  }

  /** The Rust and Python workers count cycles differently: Rust halves all parentheses,
      Python halves the opening ones. On a well-formed equation (balanced parentheses), Rust's
      B1 is the number of opening parentheses and Python's is half of it, so the two agree
      exactly when there are no parentheses; B0 and B2 always agree. */
  lemma RustAndPythonBetti(equation: string)
    requires |equation| < PhiTopology.U32_MODULUS - 1
    requires Validation.WellFormed(equation)
    ensures var rust, python := PhiTopology.ComputeBettiVector(equation), ComputeBettiVector(equation);
      && rust.b0 == python.b0 && rust.b2 == python.b2
      && rust.b1 == CountChar(equation, '(')
      && python.b1 == CountChar(equation, '(') / 2
      && (rust.b1 == python.b1 <==> '(' !in equation)
  {
    PhiTopology.BettiVectorCounts(equation);
  }
}
