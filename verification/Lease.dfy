/**
 * The live-execution lease of a run: a loopback port out of a deterministic
 * sequence, claimed, probed, released and lost by any number of processes in
 * any order.
 */
module Lease {
  import opened Wrappers

  const PORT_START := 49_152
  const PORT_COUNT := 8_192
  const CANDIDATE_LIMIT := 64

  /** Two words of the digest of the base directory and the run id. */
  datatype Digest = Digest(first: nat, second: nat)

  function Stride(d: Digest): nat {
    var r := d.second % PORT_COUNT;
    if r % 2 == 0 then r + 1 else r
  }

  function Candidate(d: Digest, index: nat): nat {
    PORT_START + (d.first % PORT_COUNT + index * Stride(d)) % PORT_COUNT
  }

  // ---------------------------------------------------------------- the sequence

  /** The sequence starts at the first word and moves by the least odd number not below the second. */
  lemma SequenceFollowsDigest(d: Digest, k: nat)
    ensures Candidate(d, 0) == 49_152 + d.first % 8_192
    ensures exists odd: nat, q: int ::
              && odd % 2 == 1 && d.second % 8_192 <= odd
              && (forall n: nat :: n % 2 == 1 && d.second % 8_192 <= n ==> odd <= n)
              && Candidate(d, k + 1) + q * 8_192 == Candidate(d, k) + odd
  {
    var odd, offset := Stride(d), d.first % PORT_COUNT;
    assert odd % 2 == 1;
    assert offset + (k + 1) * odd == offset + k * odd + odd;
    var q := RemainderSteps(offset + k * odd, odd, PORT_COUNT);
  }

  lemma RemainderSteps(x: nat, s: nat, m: nat) returns (q: int)
    requires m > 0
    ensures (x + s) % m + q * m == x % m + s
  {
    var a, b := (x + s) / m, x / m;
    assert x + s == m * a + (x + s) % m && x == m * b + x % m;
    assert x % m + s - (x + s) % m == (a - b) * m;
    q := a - b;
  }

  function Pow2(k: nat): (p: nat)
    ensures p > 0
  {
    if k == 0 then 1 else 2 * Pow2(k - 1)
  }

  /** An odd factor does not help a power of two to divide. */
  lemma {:induction false} OddFactor(k: nat, d: int, s: int, q: int) returns (r: int)
    requires s % 2 == 1 && d * s == q * Pow2(k)
    ensures d == r * Pow2(k)
    decreases k
  {
    if k == 0 {
      r := d;
    } else {
      OddTimesOdd(d, s);
      var half := Pow2(k - 1);
      assert q * Pow2(k) == 2 * (q * half);
      var h := d / 2;
      assert d == 2 * h;
      assert 2 * (h * s) == 2 * (q * half);
      r := OddFactor(k - 1, h, s, q);
      assert d == r * (2 * half);
    }
  }

  lemma OddTimesOdd(d: int, s: int)
    requires s % 2 == 1
    ensures d % 2 == 1 ==> (d * s) % 2 == 1
  {
    if d % 2 == 1 {
      var a, b := d / 2, s / 2;
      assert d * s == 2 * (2 * a * b + a + b) + 1;
    }
  }

  lemma SameRemainder(x: int, y: int, m: int) returns (q: int)
    requires m > 0 && x % m == y % m
    ensures x - y == q * m
  {
    q := x / m - y / m;
    assert x == m * (x / m) + x % m && y == m * (y / m) + y % m;
  }

  /** Every run of up to 8192 candidates is in range and free of repetition. */
  lemma CandidatesDiffer(d: Digest, i: nat, j: nat)
    requires i < j < PORT_COUNT
    ensures PORT_START <= Candidate(d, i) < PORT_START + PORT_COUNT
    ensures Candidate(d, i) != Candidate(d, j)
  {
    var o, s := d.first % PORT_COUNT, Stride(d);
    if Candidate(d, i) == Candidate(d, j) {
      var q := SameRemainder(o + j * s, o + i * s, PORT_COUNT);
      assert (j - i) * s == q * PORT_COUNT;
      assert Pow2(13) == PORT_COUNT;
      var r := OddFactor(13, j - i, s, q);
    }
  }

  predicate InRange(port: nat, n: nat) {
    PORT_START <= port < PORT_START + n
  }

  function PortsUpTo(n: nat): set<nat> {
    set port: nat | port < PORT_START + n && InRange(port, n)
  }

  function Tried(d: Digest, n: nat): set<nat> {
    set k | 0 <= k < n :: Candidate(d, k)
  }

  lemma {:induction false} PortsCount(n: nat)
    ensures |PortsUpTo(n)| == n
    decreases n
  {
    if n > 0 {
      PortsCount(n - 1);
      assert PortsUpTo(n) == PortsUpTo(n - 1) + {PORT_START + n - 1};
    }
  }

  lemma {:induction false} TriedCount(d: Digest, n: nat)
    requires n <= PORT_COUNT
    ensures |Tried(d, n)| == n
    decreases n
  {
    if n > 0 {
      TriedCount(d, n - 1);
      forall k | 0 <= k < n - 1
        ensures Candidate(d, k) != Candidate(d, n - 1)
      {
        CandidatesDiffer(d, k, n - 1);
      }
      assert Tried(d, n) == Tried(d, n - 1) + {Candidate(d, n - 1)};
    }
  }

  lemma SubsetOfSameSize(a: set<nat>, b: set<nat>)
    requires a <= b && |a| == |b|
    ensures a == b
  {
    assert b == a + (b - a);
    assert |b| == |a| + |b - a|;
  }

  /** The sequence visits every port of the range once before repeating. */
  lemma SequenceCoversRange(d: Digest)
    ensures Tried(d, PORT_COUNT) == PortsUpTo(PORT_COUNT)
  {
    TriedCount(d, PORT_COUNT);
    PortsCount(PORT_COUNT);
    SubsetOfSameSize(Tried(d, PORT_COUNT), PortsUpTo(PORT_COUNT));
  }

  // ---------------------------------------------------------------- processes and ports

  type Process = nat

  /** A process acquires for one run, known by its identity line: the whole digest. */
  datatype Run = Run(digest: Digest, rest: string)

  /** Who listens on a port; a free one has no entry. */
  datatype Occupant = Stranger | Lease(holder: Process)

  datatype Phase =
    | Trying(index: nat)
    | Probing(index: nat)
    | Holding(index: nat)
    | InProgress
    | Unavailable

  datatype State = State(ports: map<nat, Occupant>, phases: map<Process, Phase>)

  datatype Step =
    | Acquire(p: Process)
    | Listen(p: Process)
    | ListenFails(p: Process)
    | Probe(p: Process, answered: bool)
    | Release(p: Process)
    | Exit(p: Process)
    | StrangerBinds(port: nat)
    | StrangerLeaves(port: nat)

  type Runs = map<Process, Run>

  function PortAt(runs: Runs, p: Process, index: nat): nat
    requires p in runs
  {
    Candidate(runs[p].digest, index)
  }

  function After(index: nat): Phase {
    if index + 1 < CANDIDATE_LIMIT then Trying(index + 1) else Unavailable
  }

  /** The process `p` listens with the identity of the run of `q`. */
  predicate SameRunHolds(runs: Runs, s: State, port: nat, q: Process)
    requires q in runs
  {
    && port in s.ports
    && s.ports[port].Lease?
    && s.ports[port].holder in runs
    && runs[s.ports[port].holder] == runs[q]
  }

  predicate Enabled(runs: Runs, s: State, step: Step) {
    match step
    case Acquire(p) => p in runs && p !in s.phases
    case Listen(p) => p in runs && p in s.phases && s.phases[p].Trying?
    case ListenFails(p) => p in runs && p in s.phases && s.phases[p].Trying?
    case Probe(p, _) => p in runs && p in s.phases && s.phases[p].Probing?
    case Release(p) => p in runs && p in s.phases && s.phases[p].Holding?
    case Exit(p) => p in runs && p in s.phases
    case StrangerBinds(port) => port !in s.ports
    case StrangerLeaves(port) => port in s.ports && s.ports[port].Stranger?
  }

  /** The ports a process frees by ending. */
  function Vacated(runs: Runs, s: State, p: Process): map<nat, Occupant> {
    map port | port in s.ports && s.ports[port] != Lease(p) :: s.ports[port]
  }

  function Next(runs: Runs, s: State, step: Step): State
    requires Enabled(runs, s, step)
  {
    match step
    case Acquire(p) => s.(phases := s.phases[p := Trying(0)])
    case Listen(p) =>
      var index := s.phases[p].index;
      var port := PortAt(runs, p, index);
      if port in s.ports then s.(phases := s.phases[p := Probing(index)])
      else State(s.ports[port := Lease(p)], s.phases[p := Holding(index)])
    case ListenFails(p) => s.(phases := s.phases[p := Unavailable])
    case Probe(p, answered) =>
      var index := s.phases[p].index;
      if answered && SameRunHolds(runs, s, PortAt(runs, p, index), p) then s.(phases := s.phases[p := InProgress])
      else s.(phases := s.phases[p := After(index)])
    case Release(p) => State(Vacated(runs, s, p), s.phases - {p})
    case Exit(p) => State(Vacated(runs, s, p), s.phases - {p})
    case StrangerBinds(port) => s.(ports := s.ports[port := Stranger])
    case StrangerLeaves(port) => s.(ports := s.ports - {port})
  }

  // ---------------------------------------------------------------- what the environment must keep

  /** Somebody other than a process of the run of `p` listens on `port`. */
  predicate Foreign(runs: Runs, s: State, p: Process, port: nat)
    requires p in runs
  {
    port in s.ports && !SameRunHolds(runs, s, port, p)
  }

  /** How many candidates a live process has passed over. */
  function Skipped(phase: Phase): nat {
    match phase
    case Trying(index) => index
    case Probing(index) => index
    case Holding(index) => index
    case InProgress => 0
    case Unavailable => 0
  }

  predicate HasSkipped(runs: Runs, s: State, p: Process, port: nat)
    requires p in runs
  {
    p in s.phases && exists k :: 0 <= k < Skipped(s.phases[p]) && PortAt(runs, p, k) == port
  }

  /** Another process works on the run of `p`. */
  ghost predicate HasRival(runs: Runs, p: Process)
    requires p in runs
  {
    exists q :: q in runs && q != p && runs[q] == runs[p]
  }

  /** No live process with a rival passed over `port`. */
  ghost predicate Unneeded(runs: Runs, s: State, port: nat) {
    forall p :: p in runs && HasRival(runs, p) ==> !HasSkipped(runs, s, p, port)
  }

  /** The ports `p` holds are unneeded. */
  ghost predicate MayLeave(runs: Runs, s: State, p: Process) {
    forall port :: port in s.ports && s.ports[port] == Lease(p) ==> Unneeded(runs, s, port)
  }

  datatype Condition = Answered | Occupied | Kept

  /**
   * What the environment must keep: a live holder of the run answers its
   * rival's probe, a rival's probe finds the port still occupied, and nobody
   * leaves a port that a live rival passed over.
   */
  ghost predicate Meets(runs: Runs, s: State, step: Step, c: Condition)
    requires Enabled(runs, s, step)
  {
    match c
    case Answered =>
      step.Probe? && SameRunHolds(runs, s, PortAt(runs, step.p, s.phases[step.p].index), step.p) ==> step.answered
    case Occupied =>
      step.Probe? && HasRival(runs, step.p) ==> PortAt(runs, step.p, s.phases[step.p].index) in s.ports
    case Kept =>
      && (step.Release? || step.Exit? ==> MayLeave(runs, s, step.p))
      && (step.StrangerLeaves? ==> Unneeded(runs, s, step.port))
  }

  /** The step meets every condition that is not waived. */
  ghost predicate Fair(runs: Runs, s: State, step: Step, waived: set<Condition>)
    requires Enabled(runs, s, step)
  {
    forall c :: c !in waived ==> Meets(runs, s, step, c)
  }

  const START := State(map[], map[])

  /** The state after `steps`; none if one of them is impossible or unfair. */
  ghost function Reached(runs: Runs, steps: seq<Step>, waived: set<Condition>): Option<State> {
    if steps == [] then Some(START)
    else
      var s, step := Reached(runs, steps[..|steps| - 1], waived), steps[|steps| - 1];
      if s.Some? && Enabled(runs, s.value, step) && Fair(runs, s.value, step, waived)
      then Some(Next(runs, s.value, step)) else None
  }

  predicate Holds(s: State, p: Process) {
    p in s.phases && s.phases[p].Holding?
  }

  /** Two processes work on one run. */
  predicate Share(runs: Runs, p: Process, q: Process) {
    p in runs && q in runs && p != q && runs[p] == runs[q]
  }

  ghost predicate AtMostOneLease(runs: Runs, s: State) {
    forall p, q :: Share(runs, p, q) ==> !(Holds(s, p) && Holds(s, q))
  }

  /** Holders listen where they say, and whatever a rival passed over is still foreign. */
  ghost predicate Sound(runs: Runs, s: State) {
    && (forall p :: Holds(s, p) && p in runs ==>
          PortAt(runs, p, s.phases[p].index) in s.ports && s.ports[PortAt(runs, p, s.phases[p].index)] == Lease(p))
    && forall p, port :: p in runs && HasRival(runs, p) && HasSkipped(runs, s, p, port) ==> Foreign(runs, s, p, port)
  }

  lemma SoundMeansOne(runs: Runs, s: State)
    requires Sound(runs, s)
    ensures AtMostOneLease(runs, s)
  {
    forall p, q | Share(runs, p, q) && Holds(s, p) && Holds(s, q)
      ensures s.phases[p].index <= s.phases[q].index
    {
      var j, port := s.phases[q].index, PortAt(runs, q, s.phases[q].index);
      assert HasRival(runs, p);
      if j < s.phases[p].index {
        assert PortAt(runs, p, j) == port && HasSkipped(runs, s, p, port);
      }
    }
  }

  lemma ArrivalKeeps(runs: Runs, s: State, step: Step)
    requires Sound(runs, s) && Enabled(runs, s, step)
    requires step.Acquire? || step.Listen? || step.ListenFails? || step.StrangerBinds?
    ensures Sound(runs, Next(runs, s, step))
  {
    var t := Next(runs, s, step);
    hide HasRival;
    forall p, port | p in runs && HasRival(runs, p) && HasSkipped(runs, t, p, port)
      ensures Foreign(runs, t, p, port)
    {
      assert HasSkipped(runs, s, p, port);
    }
  }

  lemma ProbeKeeps(runs: Runs, s: State, step: Step)
    requires Sound(runs, s) && Enabled(runs, s, step) && step.Probe? && Fair(runs, s, step, {})
    ensures Sound(runs, Next(runs, s, step))
  {
    var p := step.p;
    var index := s.phases[p].index;
    var t := Next(runs, s, step);
    assert Meets(runs, s, step, Answered) && Meets(runs, s, step, Occupied);
    hide HasRival, Fair;
    forall q, port | q in runs && HasRival(runs, q) && HasSkipped(runs, t, q, port)
      ensures Foreign(runs, t, q, port)
    {
      var k :| 0 <= k < Skipped(t.phases[q]) && PortAt(runs, q, k) == port;
      if q != p || k < index {
        assert HasSkipped(runs, s, q, port);
      }
    }
  }

  lemma LeavingKeeps(runs: Runs, s: State, step: Step)
    requires Sound(runs, s) && Enabled(runs, s, step) && Fair(runs, s, step, {})
    requires step.Release? || step.Exit? || step.StrangerLeaves?
    ensures Sound(runs, Next(runs, s, step))
  {
    var t := Next(runs, s, step);
    assert Meets(runs, s, step, Kept);
    hide HasRival, Fair;
    forall q, port | q in runs && HasRival(runs, q) && HasSkipped(runs, t, q, port)
      ensures Foreign(runs, t, q, port)
    {
      assert HasSkipped(runs, s, q, port);
      assert !Unneeded(runs, s, port);
    }
  }

  lemma StepKeeps(runs: Runs, s: State, step: Step)
    requires Sound(runs, s) && Enabled(runs, s, step) && Fair(runs, s, step, {})
    ensures Sound(runs, Next(runs, s, step))
  {
    hide Sound, Next, Fair;
    match step
    case Probe(_, _) => ProbeKeeps(runs, s, step);
    case Release(_) => LeavingKeeps(runs, s, step);
    case Exit(_) => LeavingKeeps(runs, s, step);
    case StrangerLeaves(_) => LeavingKeeps(runs, s, step);
    case _ => ArrivalKeeps(runs, s, step);
  }

  lemma {:induction false} FairRunKeeps(runs: Runs, steps: seq<Step>)
    ensures Reached(runs, steps, {}).Some? ==> Sound(runs, Reached(runs, steps, {}).value)
    decreases |steps|
  {
    hide Sound, Next, Fair;
    if steps == [] {
      StartSound(runs);
    } else {
      var front, last := steps[..|steps| - 1], steps[|steps| - 1];
      FairRunKeeps(runs, front);
      if Reached(runs, steps, {}).Some? {
        StepKeeps(runs, Reached(runs, front, {}).value, last);
      }
    }
  }

  lemma StartSound(runs: Runs)
    ensures Sound(runs, START)
  {}

  /** Waiving more allows no less. */
  lemma {:induction false} WaivingMore(runs: Runs, steps: seq<Step>, few: set<Condition>, many: set<Condition>)
    requires few <= many
    ensures Reached(runs, steps, few).Some? ==> Reached(runs, steps, many) == Reached(runs, steps, few)
    decreases |steps|
  {
    hide Enabled, Next, Meets;
    if steps != [] {
      WaivingMore(runs, steps[..|steps| - 1], few, many);
    }
  }

  // ---------------------------------------------------------------- each condition is needed

  /** Every fair run over `steps` ends with at most one lease per run. */
  ghost predicate EndsWithOne(runs: Runs, steps: seq<Step>, waived: set<Condition>) {
    forall s :: Reached(runs, steps, waived) == Some(s) ==> AtMostOneLease(runs, s)
  }

  /** One step, fair but for the waived conditions. */
  ghost predicate Moves(runs: Runs, s: State, step: Step, waived: set<Condition>, t: State) {
    Enabled(runs, s, step) && Fair(runs, s, step, waived) && Next(runs, s, step) == t
  }

  ghost predicate Trace(runs: Runs, states: seq<State>, steps: seq<Step>, waived: set<Condition>) {
    && |states| == |steps| + 1 && states[0] == START
    && forall k :: 0 <= k < |steps| ==> Moves(runs, states[k], steps[k], waived, states[k + 1])
  }

  lemma {:induction false} TraceEnds(runs: Runs, states: seq<State>, steps: seq<Step>, waived: set<Condition>)
    requires Trace(runs, states, steps, waived)
    ensures Reached(runs, steps, waived) == Some(states[|steps|])
    decreases |steps|
  {
    if steps != [] {
      var n := |steps| - 1;
      assert Moves(runs, states[n], steps[n], waived, states[n + 1]);
      hide Enabled, Fair, Next;
      TraceEnds(runs, states[..n + 1], steps[..n], waived);
    }
  }

  lemma BothHold(runs: Runs, states: seq<State>, steps: seq<Step>, waived: set<Condition>, p: Process, q: Process)
    requires Trace(runs, states, steps, waived)
    requires Share(runs, p, q) && Holds(states[|steps|], p) && Holds(states[|steps|], q)
    ensures !EndsWithOne(runs, steps, waived)
  {
    var s := states[|steps|];
    hide Trace, Reached;
    TraceEnds(runs, states, steps, waived);
    assert !AtMostOneLease(runs, s);
  }

  predicate NothingSkipped(s: State) {
    forall p :: p in s.phases ==> Skipped(s.phases[p]) == 0
  }

  /** Whether the step is plainly fair, or what it needs is waived. */
  predicate PlainlyFair(runs: Runs, s: State, step: Step, waived: set<Condition>)
    requires Enabled(runs, s, step)
  {
    match step
    case Probe(p, answered) =>
      && (answered || Answered in waived)
      && (PortAt(runs, p, s.phases[p].index) in s.ports || Occupied in waived)
    case Release(_) => Kept in waived || NothingSkipped(s)
    case Exit(_) => Kept in waived
    case StrangerLeaves(_) => Kept in waived
    case _ => true
  }

  lemma PlainMoves(runs: Runs, s: State, step: Step, waived: set<Condition>, t: State)
    requires Enabled(runs, s, step) && Next(runs, s, step) == t && PlainlyFair(runs, s, step, waived)
    ensures Moves(runs, s, step, waived, t)
  {
    hide Candidate, SameRunHolds;
    assert step.Release? && Kept !in waived ==> forall port :: Unneeded(runs, s, port);
  }

  function Unanswered(p: Process, q: Process): seq<Step> {
    [Acquire(p), Listen(p), Acquire(q), Listen(q), Probe(q, false), Listen(q)]
  }

  /** Without an answer within the time limit a live holder is passed over. */
  lemma UnansweredProbeBreaksIt(runs: Runs, p: Process, q: Process)
    requires Share(runs, p, q)
    ensures !EndsWithOne(runs, Unanswered(p, q), {Answered})
  {
    var a, b := PortAt(runs, p, 0), PortAt(runs, p, 1);
    CandidatesDiffer(runs[p].digest, 0, 1);
    hide Candidate, Moves;
    var s1, s2 := State(map[], map[p := Trying(0)]), State(map[a := Lease(p)], map[p := Holding(0)]);
    var s3 := State(map[a := Lease(p)], map[p := Holding(0), q := Trying(0)]);
    var s4 := State(map[a := Lease(p)], map[p := Holding(0), q := Probing(0)]);
    var s5 := State(map[a := Lease(p)], map[p := Holding(0), q := Trying(1)]);
    var s6 := State(map[a := Lease(p), b := Lease(q)], map[p := Holding(0), q := Holding(1)]);
    PlainMoves(runs, START, Acquire(p), {Answered}, s1);
    PlainMoves(runs, s1, Listen(p), {Answered}, s2);
    PlainMoves(runs, s2, Acquire(q), {Answered}, s3);
    PlainMoves(runs, s3, Listen(q), {Answered}, s4);
    PlainMoves(runs, s4, Probe(q, false), {Answered}, s5);
    PlainMoves(runs, s5, Listen(q), {Answered}, s6);
    hide Next;
    BothHold(runs, [START, s1, s2, s3, s4, s5, s6], Unanswered(p, q), {Answered}, p, q);
  }

  lemma PassesStranger(runs: Runs, p: Process, q: Process, s: State, t: State, u: State)
    requires Share(runs, p, q) && s == State(map[PortAt(runs, p, 0) := Stranger], map[q := Trying(0)])
    requires t == s.(phases := map[q := Probing(0)]) && u == s.(phases := map[q := Trying(1)])
    ensures Moves(runs, s, Listen(q), {Kept}, t) && Moves(runs, t, Probe(q, true), {Kept}, u)
  {
    hide Candidate, Moves;
    PlainMoves(runs, s, Listen(q), {Kept}, t);
    PlainMoves(runs, t, Probe(q, true), {Kept}, u);
  }

  lemma EntersBehind(runs: Runs, p: Process, q: Process, s: State, t: State, u: State, v: State)
    requires Share(runs, p, q)
    requires var port := PortAt(runs, p, 1);
             && t == State(map[port := Lease(q)], map[q := Holding(1)])
             && u == State(map[port := Lease(q)], map[q := Holding(1), p := Trying(0)])
    requires s == t.(ports := t.ports[PortAt(runs, p, 0) := Stranger])
    requires v == State(t.ports[PortAt(runs, p, 0) := Lease(p)], map[q := Holding(1), p := Holding(0)])
    ensures Moves(runs, s, StrangerLeaves(PortAt(runs, p, 0)), {Kept}, t)
    ensures Moves(runs, t, Acquire(p), {Kept}, u) && Moves(runs, u, Listen(p), {Kept}, v)
  {
    CandidatesDiffer(runs[p].digest, 0, 1);
    hide Candidate, Moves;
    PlainMoves(runs, s, StrangerLeaves(PortAt(runs, p, 0)), {Kept}, t);
    PlainMoves(runs, t, Acquire(p), {Kept}, u);
    PlainMoves(runs, u, Listen(p), {Kept}, v);
  }

  function Deserted(p: Process, q: Process, port: nat): seq<Step> {
    [StrangerBinds(port), Acquire(q), Listen(q), Probe(q, true), Listen(q), StrangerLeaves(port), Acquire(p), Listen(p)]
  }

  /** A stranger that leaves a port already passed over lets a second process in. */
  lemma LeavingStrangerBreaksIt(runs: Runs, p: Process, q: Process)
    requires Share(runs, p, q)
    ensures !EndsWithOne(runs, Deserted(p, q, PortAt(runs, p, 0)), {Kept})
  {
    var a, b := PortAt(runs, p, 0), PortAt(runs, p, 1);
    CandidatesDiffer(runs[p].digest, 0, 1);
    hide Candidate, Moves;
    var s1, s2 := State(map[a := Stranger], map[]), State(map[a := Stranger], map[q := Trying(0)]);
    var s3, s4 := State(map[a := Stranger], map[q := Probing(0)]), State(map[a := Stranger], map[q := Trying(1)]);
    var s5 := State(map[a := Stranger, b := Lease(q)], map[q := Holding(1)]);
    var s6 := State(map[b := Lease(q)], map[q := Holding(1)]);
    var s7 := State(map[b := Lease(q)], map[q := Holding(1), p := Trying(0)]);
    var s8 := State(map[b := Lease(q), a := Lease(p)], map[q := Holding(1), p := Holding(0)]);
    PlainMoves(runs, START, StrangerBinds(a), {Kept}, s1);
    PlainMoves(runs, s1, Acquire(q), {Kept}, s2);
    PassesStranger(runs, p, q, s2, s3, s4);
    PlainMoves(runs, s4, Listen(q), {Kept}, s5);
    EntersBehind(runs, p, q, s5, s6, s7, s8);
    hide Next;
    BothHold(runs, [START, s1, s2, s3, s4, s5, s6, s7, s8], Deserted(p, q, a), {Kept}, p, q);
  }

  function Overtaken(p: Process, q: Process): seq<Step> {
    [Acquire(p), Listen(p), Acquire(q), Listen(q), Release(p), Probe(q, true), Acquire(p), Listen(p), Listen(q)]
  }

  lemma PassesFreePort(runs: Runs, p: Process, q: Process, s: State, t: State, u: State)
    requires Share(runs, p, q)
    requires s == State(map[PortAt(runs, p, 0) := Lease(p)], map[p := Holding(0), q := Probing(0)])
    requires t == State(map[], map[q := Probing(0)]) && u == State(map[], map[q := Trying(1)])
    ensures Moves(runs, s, Release(p), {Occupied}, t) && Moves(runs, t, Probe(q, true), {Occupied}, u)
  {
    hide Candidate, Moves;
    PlainMoves(runs, s, Release(p), {Occupied}, t);
    PlainMoves(runs, t, Probe(q, true), {Occupied}, u);
  }

  lemma BothListen(runs: Runs, p: Process, q: Process, s: State, t: State, u: State, v: State)
    requires Share(runs, p, q) && s == State(map[], map[q := Trying(1)])
    requires t == State(map[], map[p := Trying(0), q := Trying(1)])
    requires u == State(map[PortAt(runs, p, 0) := Lease(p)], map[p := Holding(0), q := Trying(1)])
    requires v == State(map[PortAt(runs, p, 0) := Lease(p), PortAt(runs, p, 1) := Lease(q)],
                        map[p := Holding(0), q := Holding(1)])
    ensures Moves(runs, s, Acquire(p), {Occupied}, t)
    ensures Moves(runs, t, Listen(p), {Occupied}, u) && Moves(runs, u, Listen(q), {Occupied}, v)
  {
    CandidatesDiffer(runs[p].digest, 0, 1);
    hide Candidate, Moves;
    PlainMoves(runs, s, Acquire(p), {Occupied}, t);
    PlainMoves(runs, t, Listen(p), {Occupied}, u);
    PlainMoves(runs, u, Listen(q), {Occupied}, v);
  }

  /**
   * Even when every probe of a live holder is answered and no port is left
   * after it was passed over: a holder that leaves between the failed bind and
   * the probe makes the probe pass over a free port.
   */
  lemma ReleaseBeforeProbeBreaksIt(runs: Runs, p: Process, q: Process)
    requires Share(runs, p, q)
    ensures !EndsWithOne(runs, Overtaken(p, q), {Occupied})
  {
    var a, b := PortAt(runs, p, 0), PortAt(runs, p, 1);
    CandidatesDiffer(runs[p].digest, 0, 1);
    hide Candidate, Moves;
    var s1, s2 := State(map[], map[p := Trying(0)]), State(map[a := Lease(p)], map[p := Holding(0)]);
    var s3 := State(map[a := Lease(p)], map[p := Holding(0), q := Trying(0)]);
    var s4 := State(map[a := Lease(p)], map[p := Holding(0), q := Probing(0)]);
    var s5, s6 := State(map[], map[q := Probing(0)]), State(map[], map[q := Trying(1)]);
    var s7 := State(map[], map[p := Trying(0), q := Trying(1)]);
    var s8 := State(map[a := Lease(p)], map[p := Holding(0), q := Trying(1)]);
    var s9 := State(map[a := Lease(p), b := Lease(q)], map[p := Holding(0), q := Holding(1)]);
    PlainMoves(runs, START, Acquire(p), {Occupied}, s1);
    PlainMoves(runs, s1, Listen(p), {Occupied}, s2);
    PlainMoves(runs, s2, Acquire(q), {Occupied}, s3);
    PlainMoves(runs, s3, Listen(q), {Occupied}, s4);
    PassesFreePort(runs, p, q, s4, s5, s6);
    BothListen(runs, p, q, s6, s7, s8, s9);
    hide Next;
    BothHold(runs, [START, s1, s2, s3, s4, s5, s6, s7, s8, s9], Overtaken(p, q), {Occupied}, p, q);
  }

  // ---------------------------------------------------------------- at most one lease

  /** In every run that meets the conditions that are not waived. */
  ghost predicate AlwaysOneLease(runs: Runs, waived: set<Condition>) {
    forall steps :: EndsWithOne(runs, steps, waived)
  }

  /**
   * At most one process ever holds the lease of a run, whatever interleaving
   * meets the conditions that are not waived, if and only if none is waived or
   * no two processes share a run.
   */
  lemma OneLeasePerRun(runs: Runs, waived: set<Condition>)
    ensures AlwaysOneLease(runs, waived) <==> waived == {} || !exists p, q :: Share(runs, p, q)
  {
    hide Reached;
    if waived == {} {
      forall steps
        ensures EndsWithOne(runs, steps, {})
      {
        FairRunKeeps(runs, steps);
        if s :| Reached(runs, steps, {}) == Some(s) {
          SoundMeansOne(runs, s);
        }
      }
    } else if p, q :| Share(runs, p, q) {
      var c :| c in waived;
      var steps := match c
        case Answered => Unanswered(p, q)
        case Occupied => Overtaken(p, q)
        case Kept => Deserted(p, q, PortAt(runs, p, 0));
      match c {
        case Answered => UnansweredProbeBreaksIt(runs, p, q);
        case Occupied => ReleaseBeforeProbeBreaksIt(runs, p, q);
        case Kept => LeavingStrangerBreaksIt(runs, p, q);
      }
      WaivingMore(runs, steps, {c}, waived);
      assert !EndsWithOne(runs, steps, waived);
    }
  }

  // ---------------------------------------------------------------- giving up

  ghost predicate TakenAt(runs: Runs, steps: seq<Step>, waived: set<Condition>, port: nat, n: nat)
    requires n <= |steps|
  {
    var s := Reached(runs, steps[..n], waived);
    s.Some? && port in s.value.ports
  }

  /** At some moment of the run somebody listened on `port`. */
  ghost predicate SeenTaken(runs: Runs, steps: seq<Step>, waived: set<Condition>, port: nat) {
    exists n :: 0 <= n <= |steps| && TakenAt(runs, steps, waived, port, n)
  }

  /** Candidates a process found taken, the one it probes included. */
  function Tested(phase: Phase): nat {
    if phase.Probing? then phase.index + 1 else Skipped(phase)
  }

  lemma {:induction false} TestedWereTaken(runs: Runs, steps: seq<Step>, waived: set<Condition>, p: Process, k: nat)
    requires p in runs && Reached(runs, steps, waived).Some?
    requires var phases := Reached(runs, steps, waived).value.phases; p in phases && k < Tested(phases[p])
    ensures SeenTaken(runs, steps, waived, PortAt(runs, p, k))
    decreases |steps|
  {
    if steps != [] {
      var front, port := steps[..|steps| - 1], PortAt(runs, p, k);
      var s := Reached(runs, front, waived).value;
      hide Candidate, Fair;
      if p in s.phases && k < Tested(s.phases[p]) {
        TestedWereTaken(runs, front, waived, p, k);
        var n :| 0 <= n <= |front| && TakenAt(runs, front, waived, port, n);
        assert steps[..n] == front[..n];
        assert TakenAt(runs, steps, waived, port, n);
      } else {
        assert port in s.ports;
        assert TakenAt(runs, steps, waived, port, |front|);
      }
    }
  }

  /**
   * Giving up means that each of 64 different ports was in use when it was
   * tried; for a process with a rival, and under all the conditions, that each
   * of them still belongs to somebody else.
   */
  lemma UnavailableMeansAllTaken(runs: Runs, steps: seq<Step>, waived: set<Condition>, s: State, probe: Step)
    requires Reached(runs, steps, waived) == Some(s) && probe.Probe? && Enabled(runs, s, probe)
    requires Next(runs, s, probe).phases[probe.p] == Unavailable
    ensures |Tried(runs[probe.p].digest, 64)| == 64
    ensures forall port :: port in Tried(runs[probe.p].digest, 64) ==>
              && SeenTaken(runs, steps, waived, port)
              && (waived == {} && Fair(runs, s, probe, {}) && HasRival(runs, probe.p) ==>
                    Foreign(runs, s, probe.p, port))
  {
    var p := probe.p;
    TriedCount(runs[p].digest, CANDIDATE_LIMIT);
    FairRunKeeps(runs, steps);
    hide Reached, SeenTaken, Candidate;
    forall port | port in Tried(runs[p].digest, CANDIDATE_LIMIT)
      ensures SeenTaken(runs, steps, waived, port)
      ensures waived == {} && Fair(runs, s, probe, {}) && HasRival(runs, p) ==> Foreign(runs, s, p, port)
    {
      var k :| 0 <= k < CANDIDATE_LIMIT && Candidate(runs[p].digest, k) == port;
      assert PortAt(runs, p, k) == port;
      TestedWereTaken(runs, steps, waived, p, k);
      if waived == {} && Fair(runs, s, probe, {}) && HasRival(runs, p) {
        assert Meets(runs, s, probe, Answered) && Meets(runs, s, probe, Occupied);
        assert k < s.phases[p].index ==> HasSkipped(runs, s, p, port);
      }
    }
  }

  /** A process tries candidates 0 to 63 and no further. */
  lemma {:induction false} NeverPastTheLimit(runs: Runs, steps: seq<Step>, waived: set<Condition>, p: Process)
    requires Reached(runs, steps, waived).Some? && p in Reached(runs, steps, waived).value.phases
    ensures var phase := Reached(runs, steps, waived).value.phases[p];
            phase.Trying? || phase.Probing? || phase.Holding? ==> phase.index < 64
    decreases |steps|
  {
    if steps != [] {
      var front := steps[..|steps| - 1];
      hide Candidate, Fair;
      if p in Reached(runs, front, waived).value.phases {
        NeverPastTheLimit(runs, front, waived, p);
      }
    }
  }

  // ---------------------------------------------------------------- finding a rival

  /** A port named for a process is the candidate it holds. */
  ghost predicate LeasesAreHeld(runs: Runs, s: State) {
    forall port :: port in s.ports && s.ports[port].Lease? ==>
      var q := s.ports[port].holder;
      q in runs && Holds(s, q) && PortAt(runs, q, s.phases[q].index) == port
  }

  lemma {:induction false} LeasesStayHeld(runs: Runs, steps: seq<Step>, waived: set<Condition>)
    requires Reached(runs, steps, waived).Some?
    ensures LeasesAreHeld(runs, Reached(runs, steps, waived).value)
    decreases |steps|
  {
    if steps != [] {
      LeasesStayHeld(runs, steps[..|steps| - 1], waived);
      hide Candidate, Fair;
    }
  }

  /** Another process of the run of `p` holds its lease on `port`. */
  ghost predicate RivalHolds(runs: Runs, s: State, p: Process, port: nat)
    requires p in runs
  {
    exists q :: Share(runs, p, q) && Holds(s, q) && PortAt(runs, q, s.phases[q].index) == port &&
                port in s.ports && s.ports[port] == Lease(q)
  }

  /** In every interleaving a process reports its run in progress exactly when a rival's holder answers its probe. */
  lemma InProgressMeansHeld(runs: Runs, steps: seq<Step>, waived: set<Condition>, s: State, probe: Step)
    requires Reached(runs, steps, waived) == Some(s) && probe.Probe? && Enabled(runs, s, probe)
    ensures Next(runs, s, probe).phases[probe.p] == InProgress <==>
            probe.answered && RivalHolds(runs, s, probe.p, PortAt(runs, probe.p, s.phases[probe.p].index))
  {
    LeasesStayHeld(runs, steps, waived);
    hide Candidate, Reached;
    var port := PortAt(runs, probe.p, s.phases[probe.p].index);
    if SameRunHolds(runs, s, port, probe.p) {
      assert Share(runs, probe.p, s.ports[port].holder);
    }
  }
}
