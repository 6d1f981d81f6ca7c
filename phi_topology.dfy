/** The "Betti topology" checks of the Rust base library: the character-counting
    Betti vector of an equation, the Euler-characteristic check of a node, and the
    orchestrator's acceptance test and topology check.

    Widths are written out: counts are cast to u32 (`as u32` keeps the low 32 bits), the
    u32 addition and the i32 arithmetic of the Euler characteristic wrap around, as they
    do in a release build. */
module PhiTopology {
  import opened Strings

  const U32_MODULUS: int := 0x1_0000_0000
  const I32_HALF: int := 0x8000_0000

  type u32 = x: int | 0 <= x < U32_MODULUS
  type i32 = x: int | -I32_HALF <= x < I32_HALF

  /** The integral sign that counts a "void". */
  const INTEGRAL: char := '\U{222B}'

  /** `n as u32`: the low 32 bits. */
  function AsU32(n: nat): (r: u32)
    ensures n < U32_MODULUS ==> r == n
  {
    n % U32_MODULUS
  }

  /** u32 addition that wraps around. */
  function WrappingAddU32(a: u32, b: u32): (r: u32)
    ensures a + b < U32_MODULUS ==> r == a + b
    ensures a + b >= U32_MODULUS ==> r == a + b - U32_MODULUS
  {
    (a + b) % U32_MODULUS
  }

  /** The i32 value congruent to `x` modulo 2^32 (two's-complement wrap-around). */
  function WrapI32(x: int): (r: i32)
    ensures -I32_HALF <= x < I32_HALF ==> r == x
  {
    (x + I32_HALF) % U32_MODULUS - I32_HALF
  }

  /** `x as i32` for a u32: the same bits read as two's complement. */
  function AsI32(x: u32): (r: i32)
    ensures x < I32_HALF ==> r == x
    ensures x >= I32_HALF ==> r == x - U32_MODULUS
  {
    WrapI32(x)
  }

  /** Wrapping only subtracts a multiple of 2^32. */
  lemma WrapI32Shift(x: int)
    ensures WrapI32(x) == x - U32_MODULUS * ((x + I32_HALF) / U32_MODULUS)
  {
  }

  /** Adding a multiple of 2^32 does not change the wrapped value. */
  lemma WrapI32Periodic(x: int, t: int)
    ensures WrapI32(x + U32_MODULUS * t) == WrapI32(x)
  {
    var q := (x + I32_HALF) / U32_MODULUS;
    var r := (x + I32_HALF) % U32_MODULUS;
    assert x + U32_MODULUS * t + I32_HALF == U32_MODULUS * (q + t) + r;
  }

  /** `[B0, B1, B2]`. */
  datatype BettiVector = BettiVector(b0: u32, b1: u32, b2: u32)

  /** `compute_betti_vector`: components are one more than the `=` signs, cycles are half of
      all parentheses `(` and `)` together, voids are the integral signs. */
  function ComputeBettiVector(equation: string): BettiVector
  {
    BettiVector(
      WrappingAddU32(AsU32(CountChar(equation, '=')), 1),
      AsU32(CountChar(equation, '(') + CountChar(equation, ')')) / 2,
      AsU32(CountChar(equation, INTEGRAL)))
  }

  /** For any equation shorter than 2^32 - 1 characters nothing is truncated: the vector is
      made of the plain counts, and B0 is at least 1. */
  lemma BettiVectorCounts(equation: string)
    requires |equation| < U32_MODULUS - 1
    ensures ComputeBettiVector(equation).b0 == CountChar(equation, '=') + 1 >= 1
    ensures ComputeBettiVector(equation).b1 == (CountChar(equation, '(') + CountChar(equation, ')')) / 2
    ensures ComputeBettiVector(equation).b2 == CountChar(equation, INTEGRAL)
  {
    CountCharAppend([], equation, '(');
    CountsWithinLength(equation, '(', ')');
  }

  /** Two different characters together occur no more often than the string is long. */
  lemma {:induction false} CountsWithinLength(s: string, c: char, d: char)
    requires c != d
    ensures CountChar(s, c) + CountChar(s, d) <= |s|
  {
    if s != [] {
      CountsWithinLength(s[1..], c, d);
    }
  }

  /** A string of 2^32 - 1 equals signs wraps B0 around to 0. */
  lemma BettiB0Wraps(equation: string)
    requires CountChar(equation, '=') == U32_MODULUS - 1
    ensures ComputeBettiVector(equation).b0 == 0
  {
  }

  /** The Euler characteristic B0 - B1 + B2 computed as the source does: each count cast to
      i32, then two wrapping i32 operations. */
  function EulerCharacteristic(b0: u32, b1: u32, b2: u32): i32
  {
    WrapI32(WrapI32(AsI32(b0) - AsI32(b1)) + AsI32(b2))
  }

  /** The source's i32 arithmetic computes B0 - B1 + B2 modulo 2^32, and computes it exactly
      whenever that value lies in the i32 range. */
  lemma EulerCharacteristicExact(b0: u32, b1: u32, b2: u32)
    ensures EulerCharacteristic(b0, b1, b2) == WrapI32(b0 - b1 + b2)
    ensures -I32_HALF <= b0 - b1 + b2 < I32_HALF ==> EulerCharacteristic(b0, b1, b2) == b0 - b1 + b2
  {
    WrapI32Shift(b0);
    WrapI32Shift(b1);
    WrapI32Shift(b2);
    var k0 := (b0 + I32_HALF) / U32_MODULUS;
    var k1 := (b1 + I32_HALF) / U32_MODULUS;
    var k2 := (b2 + I32_HALF) / U32_MODULUS;
    var d := AsI32(b0) - AsI32(b1);
    WrapI32Shift(d);
    var kd := (d + I32_HALF) / U32_MODULUS;
    assert WrapI32(d) + AsI32(b2) == (b0 - b1 + b2) + U32_MODULUS * (k1 - k0 - kd - k2);
    WrapI32Periodic(b0 - b1 + b2, k1 - k0 - kd - k2);
  }

  datatype Phase = Past | Present | Future

  /** A discovery frame as the nodes exchange it. */
  datatype BettiFrame = BettiFrame(
    equation: string,
    bettiVector: BettiVector,
    chi: i32,
    phase: Phase,
    phiIndex: u32,
    timestamp: nat,
    naturalFlow: bool,
    dependencies: seq<string>,
    implications: seq<string>)

  /** `MCPNode::validate_topology`: the frame's chi is the Euler characteristic of its vector. */
  function ValidateTopology(frame: BettiFrame): bool
  {
    var v := frame.bettiVector;
    frame.chi == EulerCharacteristic(v.b0, v.b1, v.b2)
  }

  /** Away from i32 overflow, `validate_topology` holds exactly when chi == B0 - B1 + B2. */
  lemma ValidateTopologyIff(frame: BettiFrame)
    requires var v := frame.bettiVector; -I32_HALF <= v.b0 - v.b1 + v.b2 < I32_HALF
    ensures ValidateTopology(frame) <==> frame.chi == frame.bettiVector.b0 - frame.bettiVector.b1 + frame.bettiVector.b2
  {
    var v := frame.bettiVector;
    EulerCharacteristicExact(v.b0, v.b1, v.b2);
  }

  datatype MCPError =
    | PhaseLockFailure(coherence: real)
    | TopologyViolation(expected: i32, found: i32)
    | ValidationError(message: string)
    | DiscoveryTimeout(fibIndex: u32)

  /** `Result<(), MCPError>`. */
  datatype Outcome = Pass | Fail(error: MCPError)

  /** The orchestrator's topology: counts and the Euler characteristic it must keep. */
  datatype BettiTopology = BettiTopology(b0: u32, b1: u32, b2: u32, targetChi: i32)

  /** `DiscoveryOrchestrator::validate_discovery`. */
  function ValidateDiscovery(topology: BettiTopology, frame: BettiFrame): bool
  {
    frame.chi <= topology.targetChi && frame.naturalFlow && frame.bettiVector.b0 > 0
  }

  /** `DiscoveryOrchestrator::ensure_euler_characteristic`: passes iff the current Euler
      characteristic is the target; otherwise reports (target, current). */
  function EnsureEulerCharacteristic(topology: BettiTopology): Outcome
  {
    var currentChi := EulerCharacteristic(topology.b0, topology.b1, topology.b2);
    if currentChi != topology.targetChi then Fail(TopologyViolation(topology.targetChi, currentChi))
    else Pass
  }

  /** Away from i32 overflow the orchestrator's check passes iff B0 - B1 + B2 is the target,
      that is, iff a frame with the orchestrator's counts and chi = target passes the node check. */
  lemma EnsureEulerCharacteristicIff(topology: BettiTopology, frame: BettiFrame)
    requires -I32_HALF <= topology.b0 - topology.b1 + topology.b2 < I32_HALF
    requires frame.bettiVector == BettiVector(topology.b0, topology.b1, topology.b2)
    requires frame.chi == topology.targetChi
    ensures EnsureEulerCharacteristic(topology).Pass? <==> topology.b0 - topology.b1 + topology.b2 == topology.targetChi
    ensures EnsureEulerCharacteristic(topology).Pass? <==> ValidateTopology(frame)
    ensures EnsureEulerCharacteristic(topology).Fail? ==>
      EnsureEulerCharacteristic(topology).error == TopologyViolation(topology.targetChi, topology.b0 - topology.b1 + topology.b2)
  {
    EulerCharacteristicExact(topology.b0, topology.b1, topology.b2);
  }

  /** For any counts, the orchestrator's check compares the target with B0 - B1 + B2 taken
      modulo 2^32 into the i32 range, and reports that wrapped value when they differ. */
  lemma EnsureEulerCharacteristicWraps(topology: BettiTopology)
    ensures EnsureEulerCharacteristic(topology).Pass? <==> WrapI32(topology.b0 - topology.b1 + topology.b2) == topology.targetChi
    ensures EnsureEulerCharacteristic(topology).Fail? ==>
      EnsureEulerCharacteristic(topology).error == TopologyViolation(topology.targetChi, WrapI32(topology.b0 - topology.b1 + topology.b2))
  {
    EulerCharacteristicExact(topology.b0, topology.b1, topology.b2);
  }

  /** `create_initial_frame`: an empty equation with vector [1, 0, 0] and chi 1;
      the clock reading becomes a parameter. */
  function CreateInitialFrame(timestamp: nat): BettiFrame
  {
    BettiFrame("", BettiVector(1, 0, 0), 1, Present, 1, timestamp, true, [], [])
  }

  /** The initial frame is topologically consistent, and the orchestrator accepts it
      exactly when its target characteristic is at least 1. */
  lemma InitialFrameChecks(topology: BettiTopology, timestamp: nat)
    ensures ValidateTopology(CreateInitialFrame(timestamp))
    ensures ValidateDiscovery(topology, CreateInitialFrame(timestamp)) <==> topology.targetChi >= 1
  {
    EulerCharacteristicExact(1, 0, 0);
  }

  /** A frame whose vector was computed from an equation (of realistic length) always has
      B0 > 0, so the orchestrator accepts it iff chi <= target and the flow is natural. */
  lemma ValidateDiscoveryOfComputedFrame(topology: BettiTopology, frame: BettiFrame)
    requires |frame.equation| < U32_MODULUS - 1
    requires frame.bettiVector == ComputeBettiVector(frame.equation)
    ensures ValidateDiscovery(topology, frame) <==> frame.chi <= topology.targetChi && frame.naturalFlow
  {
    BettiVectorCounts(frame.equation);
  }

  /** A topologically consistent frame computed from an equation (shorter than 2^31 - 1
      characters) is accepted exactly when its flow is natural and the Betti counts of its
      equation give B0 - B1 + B2 no greater than the target. */
  lemma ComputedFrameAcceptance(topology: BettiTopology, frame: BettiFrame)
    requires |frame.equation| < I32_HALF - 1
    requires frame.bettiVector == ComputeBettiVector(frame.equation)
    requires ValidateTopology(frame)
    ensures var e := frame.equation;
      ValidateDiscovery(topology, frame) <==>
        && (CountChar(e, '=') + 1) - (CountChar(e, '(') + CountChar(e, ')')) / 2 + CountChar(e, INTEGRAL) <= topology.targetChi
        && frame.naturalFlow
  {
    BettiVectorCounts(frame.equation);
    CountsWithinLength(frame.equation, '=', INTEGRAL);
    ValidateTopologyIff(frame);
  }
}
