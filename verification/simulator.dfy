/**
  The `QuantumSimulator` builder and the two protocols composed from it
  (Bell pair and teleportation).  Each builder call returns the updated
  simulator, which stands for the program returning `self` for chaining.
  The execution engine the builder hands its circuit to is external and is
  not part of this model.
 */
module Simulator {
  import opened Angles
  import opened Circuit

  /** A simulator: its qubit count and the circuit it is building. */
  datatype QuantumSimulator = QuantumSimulator(numQubits: nat, circuit: Circuit) {

    /** The circuit has one quantum and one classical bit per declared qubit. */
    predicate Consistent() {
      circuit.qubits == numQubits && circuit.clbits == numQubits
    }

    /** Direct access to the circuit: append records to its log. */
    function Emit(gs: seq<Gate>): (r: QuantumSimulator)
      ensures r.numQubits == numQubits
      ensures Extends(circuit, r.circuit, gs)
      ensures circuit.WellFormed() && (forall j :: 0 <= j < |gs| ==> gs[j].ValidFor(circuit.qubits, circuit.clbits))
              ==> r.circuit.WellFormed()
    {
      QuantumSimulator(numQubits, circuit.Append(gs))
    }
  }

  /** A fresh simulator over `numQubits` qubits: an empty log with as many
      classical bits as qubits. */
  function New(numQubits: nat): (s: QuantumSimulator)
    ensures s.numQubits == numQubits
    ensures s.circuit.qubits == numQubits && s.circuit.clbits == numQubits
    ensures s.circuit.ops == []
    ensures s.Consistent() && s.circuit.WellFormed()
  {
    QuantumSimulator(numQubits, Circuit(numQubits, numQubits, []))
  }

  /** Hadamard on `qubit`: exactly one record `H(qubit)` is appended. */
  function ApplyHadamard(s: QuantumSimulator, qubit: int): (r: QuantumSimulator)
    ensures r.numQubits == s.numQubits
    ensures Extends(s.circuit, r.circuit, [H(qubit)])
    ensures s.circuit.WellFormed() && 0 <= qubit < s.circuit.qubits ==> r.circuit.WellFormed()
  {
    s.Emit([H(qubit)])
  }

  /** Controlled-X: exactly one record `CX(control, target)` is appended. */
  function ApplyCnot(s: QuantumSimulator, control: int, target: int): (r: QuantumSimulator)
    ensures r.numQubits == s.numQubits
    ensures Extends(s.circuit, r.circuit, [CX(control, target)])
    ensures s.circuit.WellFormed() && 0 <= control < s.circuit.qubits
            && 0 <= target < s.circuit.qubits && control != target
            ==> r.circuit.WellFormed()
  {
    s.Emit([CX(control, target)])
  }

  /** Phase rotation: the caller names the qubit first and the angle second;
      the appended record is a Z rotation by `angle` on `qubit`. */
  function ApplyPhase(s: QuantumSimulator, qubit: int, angle: Angle): (r: QuantumSimulator)
    ensures r.numQubits == s.numQubits
    ensures Extends(s.circuit, r.circuit, [RZ(angle, qubit)])
    ensures s.circuit.WellFormed() && 0 <= qubit < s.circuit.qubits ==> r.circuit.WellFormed()
  {
    s.Emit([RZ(angle, qubit)])
  }

  /** Measurement of `qubit` into `clbit`: exactly one record is appended. */
  function MeasureQubit(s: QuantumSimulator, qubit: int, clbit: int): (r: QuantumSimulator)
    ensures r.numQubits == s.numQubits
    ensures Extends(s.circuit, r.circuit, [Measure(qubit, clbit)])
    ensures s.circuit.WellFormed() && 0 <= qubit < s.circuit.qubits
            && 0 <= clbit < s.circuit.clbits
            ==> r.circuit.WellFormed()
  {
    s.Emit([Measure(qubit, clbit)])
  }

  /** The records `measure_all` emits for `n` qubits: qubit i into classical
      bit i, in ascending order of i. */
  function MeasureAllGates(n: nat): (gs: seq<Gate>)
    ensures |gs| == n
    ensures forall i :: 0 <= i < n ==> gs[i] == Measure(i, i)
  {
    if n == 0 then [] else MeasureAllGates(n - 1) + [Measure(n - 1, n - 1)]
  }

  /** Measures every qubit into its own classical bit, one `measure` call per
      qubit in ascending order: exactly `numQubits` records are appended,
      `Measure(i, i)` for ascending `i`, and earlier records stay in place. */
  method MeasureAll(s: QuantumSimulator) returns (r: QuantumSimulator)
    ensures r.numQubits == s.numQubits
    ensures |r.circuit.ops| == |s.circuit.ops| + s.numQubits
    ensures forall i :: 0 <= i < |s.circuit.ops| ==> r.circuit.ops[i] == s.circuit.ops[i]
    ensures forall i :: 0 <= i < s.numQubits ==> r.circuit.ops[|s.circuit.ops| + i] == Measure(i, i)
    ensures Extends(s.circuit, r.circuit, MeasureAllGates(s.numQubits))
    ensures s.Consistent() && s.circuit.WellFormed() ==> r.Consistent() && r.circuit.WellFormed()
  {
    r := s;
    var i := 0;
    while i < s.numQubits
      invariant 0 <= i <= s.numQubits
      invariant r.numQubits == s.numQubits
      invariant Extends(s.circuit, r.circuit, MeasureAllGates(i))
      invariant s.Consistent() && s.circuit.WellFormed() ==> r.Consistent() && r.circuit.WellFormed()
    {
      var next := MeasureQubit(r, i, i);
      ExtendsTransitive(s.circuit, r.circuit, next.circuit, MeasureAllGates(i), [Measure(i, i)]);
      r := next;
      i := i + 1;
    }
    assert forall j :: 0 <= j < s.numQubits ==> r.circuit.ops[|s.circuit.ops| + j] == MeasureAllGates(s.numQubits)[j];
  }

  /** Bell pair on qubits 0 and 1: exactly `H(0)` then `CX(0, 1)` is appended. */
  function CreateBellPair(s: QuantumSimulator): (r: QuantumSimulator)
    ensures r.numQubits == s.numQubits
    ensures Extends(s.circuit, r.circuit, [H(0), CX(0, 1)])
    ensures s.circuit.WellFormed() && s.circuit.qubits >= 2 ==> r.circuit.WellFormed()
  {
    var s1 := ApplyHadamard(s, 0);
    var r := ApplyCnot(s1, 0, 1);
    ExtendsTransitive(s.circuit, s1.circuit, r.circuit, [H(0)], [CX(0, 1)]);
    r
  }

  /** Preparation of qubit 0 from the two numbers describing the state to
      teleport: a bit flip when the first is non-zero, then a Z rotation by the
      second when that one is non-zero. */
  function TeleportPreparation(a: real, b: real): seq<Gate> {
    (if a != 0.0 then [X(0)] else []) + (if b != 0.0 then [RZ(Rad(b), 0)] else [])
  }

  /** What follows the preparation: the channel between qubits 1 and 2, the
      Bell-basis rotation of qubits 0 and 1, and their measurement.  There are
      no correction gates on qubit 2. */
  const TeleportChannelAndMeasure: seq<Gate> :=
    [H(1), CX(1, 2), CX(0, 1), H(0), Measure(0, 0), Measure(1, 1)]

  /** Every record `quantum_teleportation` appends. */
  function TeleportationGates(a: real, b: real): seq<Gate> {
    TeleportPreparation(a, b) + TeleportChannelAndMeasure
  }

  /** The teleportation circuit for the state described by `(a, b)`. */
  function QuantumTeleportation(s: QuantumSimulator, a: real, b: real): (r: QuantumSimulator)
    ensures r.numQubits == s.numQubits
    ensures Extends(s.circuit, r.circuit, TeleportationGates(a, b))
    ensures s.circuit.WellFormed() && s.circuit.qubits >= 3 && s.circuit.clbits >= 2
            ==> r.circuit.WellFormed()
  {
    var gs := TeleportationGates(a, b);
    s.Emit(gs)
  }

  /** The preparation step: `X(0)` is emitted iff the first number is non-zero,
      `RZ(Rad(b), 0)` iff the second is, the flip before the rotation when both are,
      and the fixed six-record tail follows, for 6 to 8 records in all. */
  lemma {:induction false} TeleportationPreparesQubitZero(a: real, b: real)
    ensures var gs := TeleportationGates(a, b);
      && (X(0) in gs <==> a != 0.0)
      && (RZ(Rad(b), 0) in gs <==> b != 0.0)
      && (a != 0.0 && b != 0.0 ==> gs[0] == X(0) && gs[1] == RZ(Rad(b), 0))
      && |gs| == 6 + (if a != 0.0 then 1 else 0) + (if b != 0.0 then 1 else 0)
      && 6 <= |gs| <= 8
      && gs[|gs| - 6..] == [H(1), CX(1, 2), CX(0, 1), H(0), Measure(0, 0), Measure(1, 1)]
  {
    var gs := TeleportationGates(a, b);
    if a != 0.0 && b != 0.0 {
      assert gs == [X(0), RZ(Rad(b), 0), H(1), CX(1, 2), CX(0, 1), H(0), Measure(0, 0), Measure(1, 1)];
    } else if a != 0.0 {
      assert gs == [X(0), H(1), CX(1, 2), CX(0, 1), H(0), Measure(0, 0), Measure(1, 1)];
    } else if b != 0.0 {
      assert gs == [RZ(Rad(b), 0), H(1), CX(1, 2), CX(0, 1), H(0), Measure(0, 0), Measure(1, 1)];
    } else {
      assert gs == [H(1), CX(1, 2), CX(0, 1), H(0), Measure(0, 0), Measure(1, 1)];
    }
  }

  /** Qubit 2 is touched by one record only, the `CX(1, 2)` that builds the
      channel, which is fifth from the end; the last two records measure
      qubits 0 and 1; no X or Z gate ever acts on qubit 2, so no correction
      is applied to it. */
  lemma {:induction false} TeleportationLeavesQubitTwoUncorrected(a: real, b: real)
    ensures var gs := TeleportationGates(a, b);
      && gs[|gs| - 5] == CX(1, 2)
      && (forall i :: 0 <= i < |gs| && 2 in gs[i].Qubits() ==> i == |gs| - 5)
      && (forall i :: 0 <= i < |gs| && (gs[i].X? || gs[i].RZ?) ==> gs[i].qubit == 0)
      && gs[|gs| - 2] == Measure(0, 0) && gs[|gs| - 1] == Measure(1, 1)
  {
    var gs := TeleportationGates(a, b);
    var prep := TeleportPreparation(a, b);
    var k := |prep|;
    assert forall i :: 0 <= i < k ==> gs[i] == prep[i] && gs[i].qubit == 0;
    assert forall j :: 0 <= j < 6 ==> gs[k + j] == TeleportChannelAndMeasure[j];
    forall i | 0 <= i < |gs| && 2 in gs[i].Qubits()
      ensures i == |gs| - 5
    {
      if i >= k {
        assert gs[k + (i - k)] == TeleportChannelAndMeasure[i - k];
      }
    }
  }
}
