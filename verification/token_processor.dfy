/**
  The token processor: three ways of turning an integer token id into gate
  records on an n-qubit circuit (amplitude, phase and hybrid), the choice of
  scheme by name with hybrid as the fallback, and the per-token pipeline that
  builds a fresh circuit, encodes the token and measures every qubit.
  Tokenization, authentication and the execution of the circuit are external
  and not part of this model.
 */
module TokenProcessor {
  import opened Angles
  import opened Arith
  import opened Circuit
  import Simulator

  // ---------------------------------------------------------------- schemes

  /** The encoding schemes the processor knows. */
  datatype Scheme = Amplitude | Phase | Hybrid

  /** The keys of the scheme table, in registration order. */
  const RegisteredNames: seq<string> := ["amplitude", "phase", "hybrid"]

  /** The key under which each scheme is registered: one of the table's keys,
      and no two schemes share one. */
  function SchemeName(s: Scheme): (name: string)
    ensures name in RegisteredNames
  {
    match s
    case Amplitude => "amplitude"
    case Phase => "phase"
    case Hybrid => "hybrid"
  }

  /** Looking a scheme up by name: the two named non-default schemes are found
      by their names, and every other name, registered or not, selects hybrid. */
  function SchemeFromName(name: string): (s: Scheme)
    ensures s == Amplitude <==> name == SchemeName(Amplitude)
    ensures s == Phase <==> name == SchemeName(Phase)
    ensures s == Hybrid <==> name != SchemeName(Amplitude) && name != SchemeName(Phase)
  {
    if name == "amplitude" then Amplitude
    else if name == "phase" then Phase
    else Hybrid
  }

  /** Distinct schemes are registered under distinct keys. */
  lemma SchemeNameInjective(a: Scheme, b: Scheme)
    ensures SchemeName(a) == SchemeName(b) <==> a == b
  {
  }

  /** Every scheme is found again under its own registered name. */
  lemma SchemeLookupRoundTrip(s: Scheme)
    ensures SchemeFromName(SchemeName(s)) == s
  {
  }

  // ----------------------------------------------------------------- angles

  /** The residue of a token modulo 2^n as a fraction of 2^n, in [0, 1). */
  function Fraction(tokenId: int, n: nat): (f: real)
    ensures 0.0 <= f < 1.0
  {
    var f := (tokenId % Pow2(n)) as real / Pow2(n) as real;
    ScaledFractionBounds((tokenId % Pow2(n)) as real, Pow2(n) as real, 1.0);
    assert f * 1.0 == f;
    f
  }

  /** Two tokens have the same fraction exactly when they agree modulo 2^n. */
  lemma FractionIdentifiesResidue(t1: int, t2: int, n: nat)
    ensures Fraction(t1, n) == Fraction(t2, n) <==> t1 % Pow2(n) == t2 % Pow2(n)
  {
    var x1, x2, d := (t1 % Pow2(n)) as real, (t2 % Pow2(n)) as real, Pow2(n) as real;
    ScaleInjective(x1, x2, d, 1.0);
  }

  /** RY angle of amplitude encoding: the fraction times pi, a multiple of pi
      in [0, 1), so an angle in [0, pi). */
  function AmplitudeAngle(tokenId: int, n: nat): (theta: Angle)
    ensures theta.PiTimes? && 0.0 <= theta.multiple < 1.0
    ensures 0.0 <= theta.Value() < PI
  {
    var theta := PiTimes(Fraction(tokenId, n));
    PiTimesBounds(theta.multiple, 1.0);
    theta
  }

  /** RZ angle of phase encoding: the fraction times 2 pi, a multiple of pi in
      [0, 2), so an angle in [0, 2 pi). */
  function PhaseAngle(tokenId: int, n: nat): (phi: Angle)
    ensures phi.PiTimes? && 0.0 <= phi.multiple < 2.0
    ensures 0.0 <= phi.Value() < 2.0 * PI
  {
    var phi := PiTimes(Fraction(tokenId, n) * 2.0);
    PiTimesBounds(phi.multiple, 2.0);
    phi
  }

  /** Two tokens get the same amplitude angle exactly when they agree modulo
      2^n, both as recorded and as a value in radians. */
  lemma AmplitudeAngleIdentifiesResidue(t1: int, t2: int, n: nat)
    ensures AmplitudeAngle(t1, n) == AmplitudeAngle(t2, n) <==> t1 % Pow2(n) == t2 % Pow2(n)
    ensures AmplitudeAngle(t1, n).Value() == AmplitudeAngle(t2, n).Value() <==> t1 % Pow2(n) == t2 % Pow2(n)
  {
    FractionIdentifiesResidue(t1, t2, n);
    PiTimesValueInjective(Fraction(t1, n), Fraction(t2, n));
  }

  /** Two tokens get the same phase angle exactly when they agree modulo 2^n,
      both as recorded and as a value in radians. */
  lemma PhaseAngleIdentifiesResidue(t1: int, t2: int, n: nat)
    ensures PhaseAngle(t1, n) == PhaseAngle(t2, n) <==> t1 % Pow2(n) == t2 % Pow2(n)
    ensures PhaseAngle(t1, n).Value() == PhaseAngle(t2, n).Value() <==> t1 % Pow2(n) == t2 % Pow2(n)
  {
    FractionIdentifiesResidue(t1, t2, n);
    PiTimesValueInjective(Fraction(t1, n) * 2.0, Fraction(t2, n) * 2.0);
  }

  // ---------------------------------------------------------- gate sequences

  /** The entangling chain `CX(i, i + 1)` for i = 0 .. n - 2, in order. */
  function CnotChain(n: nat): (gs: seq<Gate>)
    ensures |gs| == if n == 0 then 0 else n - 1
    ensures forall i :: 0 <= i < |gs| ==> gs[i] == CX(i, i + 1)
  {
    if n <= 1 then [] else CnotChain(n - 1) + [CX(n - 2, n - 1)]
  }

  /** A Hadamard on every qubit, `H(i)` for i = 0 .. n - 1, in order. */
  function HadamardLayer(n: nat): (gs: seq<Gate>)
    ensures |gs| == n
    ensures forall i :: 0 <= i < n ==> gs[i] == H(i)
  {
    if n == 0 then [] else HadamardLayer(n - 1) + [H(n - 1)]
  }

  /** Amplitude encoding: one Y rotation of qubit 0 by the amplitude angle,
      then the entangling chain; n records in all for n >= 1. */
  function AmplitudeGates(tokenId: int, n: nat): (gs: seq<Gate>)
    ensures |gs| == if n == 0 then 1 else n
    ensures gs[0] == RY(AmplitudeAngle(tokenId, n), 0)
    ensures forall i :: 1 <= i < |gs| ==> gs[i] == CX(i - 1, i)
  {
    [RY(AmplitudeAngle(tokenId, n), 0)] + CnotChain(n)
  }

  /** Phase encoding: a Hadamard on every qubit, one Z rotation of qubit 0 by
      the phase angle, then the entangling chain; 2n records for n >= 1. */
  function PhaseGates(tokenId: int, n: nat): (gs: seq<Gate>)
    ensures |gs| == if n == 0 then 1 else 2 * n
    ensures forall i :: 0 <= i < n ==> gs[i] == H(i)
    ensures gs[n] == RZ(PhaseAngle(tokenId, n), 0)
    ensures forall i :: n + 1 <= i < |gs| ==> gs[i] == CX(i - n - 1, i - n)
  {
    var gs := HadamardLayer(n) + [RZ(PhaseAngle(tokenId, n), 0)] + CnotChain(n);
    assert forall i :: n + 1 <= i < |gs| ==> gs[i] == CnotChain(n)[i - n - 1];
    gs
  }

  /** The hybrid split of a token: the low part modulo 2^(n-1) and the
      quotient by 2^(n-1), which recombine to the token. */
  function HybridSplit(tokenId: int, n: nat): (parts: (int, int))
    requires n >= 1
    ensures 0 <= parts.0 < Pow2(n - 1)
    ensures parts.0 + parts.1 * Pow2(n - 1) == tokenId
  {
    (tokenId % Pow2(n - 1), tokenId / Pow2(n - 1))
  }

  /** The split is the only pair with a low part in range that recombines to
      the token. */
  lemma HybridSplitUnique(tokenId: int, n: nat, amp: int, ph: int)
    requires n >= 1
    requires 0 <= amp < Pow2(n - 1) && amp + ph * Pow2(n - 1) == tokenId
    ensures HybridSplit(tokenId, n) == (amp, ph)
  {
    DivModUnique(tokenId, Pow2(n - 1), ph, amp);
  }

  /** Hybrid encoding: the amplitude records of the low part followed by the
      phase records of the high part, 3n records; its Y rotation is strictly
      below pi / 2 because the low part is below half the modulus. */
  function HybridGates(tokenId: int, n: nat): (gs: seq<Gate>)
    requires n >= 1
    ensures |gs| == 3 * n
    ensures gs[..n] == AmplitudeGates(HybridSplit(tokenId, n).0, n)
    ensures gs[n..] == PhaseGates(HybridSplit(tokenId, n).1, n)
    ensures gs[0].RY? && gs[0].qubit == 0
    ensures gs[0].theta.PiTimes? && 0.0 <= gs[0].theta.multiple < 0.5
    ensures 0.0 <= gs[0].theta.Value() < PI / 2.0
  {
    var parts := HybridSplit(tokenId, n);
    var gs := AmplitudeGates(parts.0, n) + PhaseGates(parts.1, n);
    HybridAngleBelowHalfPi(parts.0, n);
    gs
  }

  lemma HybridAngleBelowHalfPi(amp: int, n: nat)
    requires n >= 1 && 0 <= amp < Pow2(n - 1)
    ensures AmplitudeAngle(amp, n).multiple < 0.5
    ensures AmplitudeAngle(amp, n).Value() < PI / 2.0
  {
    HybridFractionBelowHalf(amp, n);
    PiTimesBounds(Fraction(amp, n), 0.5);
  }

  /** A low part below 2^(n-1) is its own residue modulo 2^n, so its fraction
      of 2^n is below one half. */
  lemma HybridFractionBelowHalf(amp: int, n: nat)
    requires n >= 1 && 0 <= amp < Pow2(n - 1)
    ensures Fraction(amp, n) < 0.5
  {
    assert Pow2(n) == 2 * Pow2(n - 1);
    DivModUnique(amp, Pow2(n), 0, amp);
    var d := Pow2(n) as real;
    var half := Pow2(n - 1) as real;
    assert half / d == 0.5;
    assert Fraction(amp, n) == amp as real / d;
    ScaleStrictlyIncreasing(amp as real, half, d, 1.0);
  }

  // ------------------------------------------- what the records identify

  /** Two tokens give the same amplitude records exactly when they agree
      modulo 2^n. */
  lemma AmplitudeGatesIdentifyResidue(t1: int, t2: int, n: nat)
    ensures AmplitudeGates(t1, n) == AmplitudeGates(t2, n) <==> t1 % Pow2(n) == t2 % Pow2(n)
  {
    AmplitudeAngleIdentifiesResidue(t1, t2, n);
    if AmplitudeGates(t1, n) == AmplitudeGates(t2, n) {
      assert AmplitudeGates(t1, n)[0] == AmplitudeGates(t2, n)[0];
    }
  }

  /** Two tokens give the same phase records exactly when they agree modulo 2^n. */
  lemma PhaseGatesIdentifyResidue(t1: int, t2: int, n: nat)
    ensures PhaseGates(t1, n) == PhaseGates(t2, n) <==> t1 % Pow2(n) == t2 % Pow2(n)
  {
    PhaseAngleIdentifiesResidue(t1, t2, n);
    if PhaseGates(t1, n) == PhaseGates(t2, n) {
      assert PhaseGates(t1, n)[n] == PhaseGates(t2, n)[n];
    }
  }

  /** Two tokens give the same hybrid records exactly when they agree modulo
      2^(2n-1): the low part is kept whole, the high part only modulo 2^n. */
  lemma HybridGatesIdentifyResidue(t1: int, t2: int, n: nat)
    requires n >= 1
    ensures HybridGates(t1, n) == HybridGates(t2, n) <==> t1 % Pow2(2 * n - 1) == t2 % Pow2(2 * n - 1)
  {
    var a, b := Pow2(n - 1), Pow2(n);
    Pow2Add(n - 1, n);
    assert Pow2(2 * n - 1) == a * b;
    assert b == 2 * a;
    var (a1, p1) := HybridSplit(t1, n);
    var (a2, p2) := HybridSplit(t2, n);
    assert a1 == t1 % a && p1 == t1 / a;
    assert a2 == t2 % a && p2 == t2 / a;
    ModOfProduct(t1, a, b);
    ModOfProduct(t2, a, b);
    var c1, c2 := a1 + a * (p1 % b), a2 + a * (p2 % b);
    DivModUnique(a1, b, 0, a1);
    DivModUnique(a2, b, 0, a2);
    AmplitudeGatesIdentifyResidue(a1, a2, n);
    PhaseGatesIdentifyResidue(p1, p2, n);
    var g1, g2 := HybridGates(t1, n), HybridGates(t2, n);
    if g1 == g2 {
      assert g1[..n] == g2[..n] && g1[n..] == g2[n..];
      assert a1 == a2 && p1 % b == p2 % b;
    }
    if c1 == c2 {
      assert c1 == (p1 % b) * a + a1;
      assert c2 == (p2 % b) * a + a2;
      DivModUnique(c1, a, p1 % b, a1);
      DivModUnique(c2, a, p2 % b, a2);
      assert a1 == a2 && p1 % b == p2 % b;
      assert g1 == g1[..n] + g1[n..];
      assert g2 == g2[..n] + g2[n..];
    }
  }

  // ------------------------------------------------------------ validity

  /** Every amplitude record names existing, distinct qubits. */
  lemma AmplitudeGatesValid(tokenId: int, n: nat, clbits: nat)
    requires n >= 1
    ensures forall i :: 0 <= i < |AmplitudeGates(tokenId, n)| ==> AmplitudeGates(tokenId, n)[i].ValidFor(n, clbits)
  {
    var gs := AmplitudeGates(tokenId, n);
    forall i | 0 <= i < |gs| ensures gs[i].ValidFor(n, clbits) {
      if i > 0 {
        assert gs[i] == CX(i - 1, i);
      }
    }
  }

  /** Every phase record names existing, distinct qubits. */
  lemma PhaseGatesValid(tokenId: int, n: nat, clbits: nat)
    requires n >= 1
    ensures forall i :: 0 <= i < |PhaseGates(tokenId, n)| ==> PhaseGates(tokenId, n)[i].ValidFor(n, clbits)
  {
    var gs := PhaseGates(tokenId, n);
    forall i | 0 <= i < |gs| ensures gs[i].ValidFor(n, clbits) {
      if i < n {
        assert gs[i] == H(i);
      } else if i > n {
        assert gs[i] == CX(i - n - 1, i - n);
      }
    }
  }

  /** The records each scheme emits. */
  function EncodeGates(scheme: Scheme, tokenId: int, n: nat): seq<Gate>
    requires scheme == Hybrid ==> n >= 1
  {
    match scheme
    case Amplitude => AmplitudeGates(tokenId, n)
    case Phase => PhaseGates(tokenId, n)
    case Hybrid => HybridGates(tokenId, n)
  }

  /** On at least one qubit, every scheme emits only records that name
      existing, distinct qubits, and emits n, 2n or 3n of them. */
  lemma EncodeGatesShape(scheme: Scheme, tokenId: int, n: nat)
    requires n >= 1
    ensures forall i :: 0 <= i < |EncodeGates(scheme, tokenId, n)| ==> EncodeGates(scheme, tokenId, n)[i].ValidFor(n, n)
    ensures |EncodeGates(scheme, tokenId, n)| == n * (match scheme case Amplitude => 1 case Phase => 2 case Hybrid => 3)
  {
    match scheme
    case Amplitude => AmplitudeGatesValid(tokenId, n, n);
    case Phase => PhaseGatesValid(tokenId, n, n);
    case Hybrid =>
      var gs := HybridGates(tokenId, n);
      var parts := HybridSplit(tokenId, n);
      AmplitudeGatesValid(parts.0, n, n);
      PhaseGatesValid(parts.1, n, n);
      forall i | 0 <= i < |gs| ensures gs[i].ValidFor(n, n) {
        if i < n {
          assert gs[i] == gs[..n][i];
        } else {
          assert gs[i] == gs[n..][i - n];
        }
      }
  }

  /** The circuit `process_token` submits for a token: a fresh n-qubit circuit
      holding the scheme's records followed by a measurement of every qubit. */
  function SubmittedCircuit(n: nat, scheme: Scheme, tokenId: int): Circuit
    requires scheme == Hybrid ==> n >= 1
  {
    Circuit(n, n, EncodeGates(scheme, tokenId, n) + Simulator.MeasureAllGates(n))
  }

  /** On at least one qubit the submitted circuit is well formed, holds
      (k + 1) * n records for a scheme emitting k * n, and its last n records
      are the measurement of every qubit, `Measure(i, i)` in ascending i. */
  lemma SubmittedCircuitShape(n: nat, scheme: Scheme, tokenId: int)
    requires n >= 1
    ensures var c := SubmittedCircuit(n, scheme, tokenId);
      && c.WellFormed()
      && |c.ops| == n * (match scheme case Amplitude => 2 case Phase => 3 case Hybrid => 4)
      && c.ops[|c.ops| - n..] == Simulator.MeasureAllGates(n)
  {
    var enc := EncodeGates(scheme, tokenId, n);
    EncodeGatesShape(scheme, tokenId, n);
    MeasuredAfterWellFormed(enc, n);
    var ops := enc + Simulator.MeasureAllGates(n);
    assert ops[|enc|..] == Simulator.MeasureAllGates(n);
  }

  /** Valid records followed by the measurement of every qubit form a
      well-formed circuit. */
  lemma MeasuredAfterWellFormed(enc: seq<Gate>, n: nat)
    requires forall j :: 0 <= j < |enc| ==> enc[j].ValidFor(n, n)
    ensures Circuit(n, n, enc + Simulator.MeasureAllGates(n)).WellFormed()
  {
    var ms := Simulator.MeasureAllGates(n);
    assert Circuit(n, n, enc).WellFormed();
    assert forall j :: 0 <= j < n ==> ms[j].ValidFor(n, n);
    var c := Circuit(n, n, enc).Append(ms);
  }

  // ------------------------------------------------------------ the processor

  /** A token processor: the qubit width it encodes with and the simulator
      it is currently building on. */
  datatype Processor = Processor(nQubits: nat, sim: Simulator.QuantumSimulator)

  /** A processor of the given width starts from a fresh simulator. */
  function NewProcessor(nQubits: nat): (p: Processor)
    ensures p.nQubits == nQubits && p.sim.numQubits == nQubits
    ensures p.sim.Consistent() && p.sim.circuit.ops == []
  {
    Processor(nQubits, Simulator.New(nQubits))
  }

  /** The entangling loop of both encoders: `apply_cnot(i, i + 1)` for
      i = 0 .. n - 2 appends exactly the CX chain. */
  method ApplyCnotChain(s: Simulator.QuantumSimulator, n: nat) returns (r: Simulator.QuantumSimulator)
    ensures r.numQubits == s.numQubits
    ensures Extends(s.circuit, r.circuit, CnotChain(n))
  {
    r := s;
    if n == 0 {
      return;
    }
    var i := 0;
    while i < n - 1
      invariant 0 <= i <= n - 1
      invariant r.numQubits == s.numQubits
      invariant Extends(s.circuit, r.circuit, CnotChain(i + 1))
    {
      var next := Simulator.ApplyCnot(r, i, i + 1);
      ExtendsTransitive(s.circuit, r.circuit, next.circuit, CnotChain(i + 1), [CX(i, i + 1)]);
      r := next;
      i := i + 1;
    }
  }

  /** The Hadamard loop of phase encoding: `h(i)` for i = 0 .. n - 1 appends
      exactly the Hadamard layer. */
  method ApplyHadamardLayer(s: Simulator.QuantumSimulator, n: nat) returns (r: Simulator.QuantumSimulator)
    ensures r.numQubits == s.numQubits
    ensures Extends(s.circuit, r.circuit, HadamardLayer(n))
  {
    r := s;
    var i := 0;
    while i < n
      invariant 0 <= i <= n
      invariant r.numQubits == s.numQubits
      invariant Extends(s.circuit, r.circuit, HadamardLayer(i))
    {
      var next := r.Emit([H(i)]);
      ExtendsTransitive(s.circuit, r.circuit, next.circuit, HadamardLayer(i), [H(i)]);
      r := next;
      i := i + 1;
    }
  }

  /** Amplitude encoding on the current simulator: exactly the amplitude
      records of the token are appended. */
  method AmplitudeEncoding(p: Processor, tokenId: int) returns (r: Processor)
    ensures r.nQubits == p.nQubits && r.sim.numQubits == p.sim.numQubits
    ensures Extends(p.sim.circuit, r.sim.circuit, AmplitudeGates(tokenId, p.nQubits))
  {
    var n := p.nQubits;
    var rotation := [RY(AmplitudeAngle(tokenId, n), 0)];
    var s1 := p.sim.Emit(rotation);
    var s2 := ApplyCnotChain(s1, n);
    ExtendsTransitive(p.sim.circuit, s1.circuit, s2.circuit, rotation, CnotChain(n));
    r := Processor(n, s2);
  }

  /** Phase encoding on the current simulator: exactly the phase records of
      the token are appended. */
  method PhaseEncoding(p: Processor, tokenId: int) returns (r: Processor)
    ensures r.nQubits == p.nQubits && r.sim.numQubits == p.sim.numQubits
    ensures Extends(p.sim.circuit, r.sim.circuit, PhaseGates(tokenId, p.nQubits))
  {
    var n := p.nQubits;
    var s1 := ApplyHadamardLayer(p.sim, n);
    var rotation := [RZ(PhaseAngle(tokenId, n), 0)];
    var s2 := s1.Emit(rotation);
    ExtendsTransitive(p.sim.circuit, s1.circuit, s2.circuit, HadamardLayer(n), rotation);
    var s3 := ApplyCnotChain(s2, n);
    ExtendsTransitive(p.sim.circuit, s2.circuit, s3.circuit, HadamardLayer(n) + rotation, CnotChain(n));
    r := Processor(n, s3);
  }

  /** Hybrid encoding on the current simulator: amplitude encoding of the low
      part, then phase encoding of the high part, on the same circuit. */
  method HybridEncoding(p: Processor, tokenId: int) returns (r: Processor)
    requires p.nQubits >= 1
    ensures r.nQubits == p.nQubits && r.sim.numQubits == p.sim.numQubits
    ensures Extends(p.sim.circuit, r.sim.circuit, HybridGates(tokenId, p.nQubits))
  {
    var parts := HybridSplit(tokenId, p.nQubits);
    var p1 := AmplitudeEncoding(p, parts.0);
    r := PhaseEncoding(p1, parts.1);
    ExtendsTransitive(p.sim.circuit, p1.sim.circuit, r.sim.circuit,
                      AmplitudeGates(parts.0, p.nQubits), PhaseGates(parts.1, p.nQubits));
  }

  /** Runs the encoder registered for `scheme`. */
  method Encode(p: Processor, scheme: Scheme, tokenId: int) returns (r: Processor)
    requires scheme == Hybrid ==> p.nQubits >= 1
    ensures r.nQubits == p.nQubits && r.sim.numQubits == p.sim.numQubits
    ensures Extends(p.sim.circuit, r.sim.circuit, EncodeGates(scheme, tokenId, p.nQubits))
    ensures (p.nQubits >= 1 && p.sim.numQubits == p.nQubits && p.sim.Consistent()
             && p.sim.circuit.WellFormed()) ==> r.sim.circuit.WellFormed()
  {
    match scheme {
      case Amplitude => r := AmplitudeEncoding(p, tokenId);
      case Phase => r := PhaseEncoding(p, tokenId);
      case Hybrid => r := HybridEncoding(p, tokenId);
    }
    if p.nQubits >= 1 && p.sim.numQubits == p.nQubits && p.sim.Consistent() && p.sim.circuit.WellFormed() {
      EncodedStaysWellFormed(p.sim.circuit, r.sim.circuit, scheme, tokenId, p.nQubits);
    }
  }

  /** Appending a scheme's records to a well-formed circuit over n >= 1
      qubits and n classical bits keeps it well formed. */
  lemma EncodedStaysWellFormed(before: Circuit, after: Circuit, scheme: Scheme, tokenId: int, n: nat)
    requires n >= 1 && before.qubits == n && before.clbits == n && before.WellFormed()
    requires Extends(before, after, EncodeGates(scheme, tokenId, n))
    ensures after.WellFormed()
  {
    EncodeGatesShape(scheme, tokenId, n);
    ExtendsIsConcatenation(before, after, EncodeGates(scheme, tokenId, n));
  }

  /** One token through the pipeline: a fresh simulator replaces the current
      one, the scheme looked up by name encodes the token, every qubit is
      measured.  The circuit left for execution is the submitted circuit of
      (width, scheme, token), whatever the processor had built before. */
  method ProcessToken(p: Processor, tokenId: int, name: string) returns (r: Processor)
    requires SchemeFromName(name) == Hybrid ==> p.nQubits >= 1
    ensures r.nQubits == p.nQubits
    ensures r.sim.numQubits == p.nQubits && r.sim.Consistent()
    ensures r.sim.circuit == SubmittedCircuit(p.nQubits, SchemeFromName(name), tokenId)
  {
    var n := p.nQubits;
    var scheme := SchemeFromName(name);
    var restarted := Processor(n, Simulator.New(n));
    var encoded := Encode(restarted, scheme, tokenId);
    var measured := Simulator.MeasureAll(encoded.sim);
    FreshThenMeasured(n, EncodeGates(scheme, tokenId, n), encoded.sim.circuit, measured.circuit);
    r := Processor(n, measured);
  }

  /** Appending records to a fresh n-qubit circuit and then measuring every
      qubit gives exactly those records followed by the measurements. */
  lemma FreshThenMeasured(n: nat, enc: seq<Gate>, encoded: Circuit, measured: Circuit)
    requires Extends(Circuit(n, n, []), encoded, enc)
    requires Extends(encoded, measured, Simulator.MeasureAllGates(n))
    ensures measured == Circuit(n, n, enc + Simulator.MeasureAllGates(n))
  {
    ExtendsIsConcatenation(Circuit(n, n, []), encoded, enc);
    ExtendsIsConcatenation(encoded, measured, Simulator.MeasureAllGates(n));
    assert [] + enc == enc;
  }

  /** The per-token loop over a sequence of token ids: the i-th submitted
      circuit is the one for the i-th token alone, whatever came before it. */
  method ProcessTokens(p: Processor, tokenIds: seq<int>, name: string)
    returns (circuits: seq<Circuit>, q: Processor)
    requires SchemeFromName(name) == Hybrid ==> p.nQubits >= 1
    ensures q.nQubits == p.nQubits
    ensures |circuits| == |tokenIds|
    ensures forall k :: 0 <= k < |tokenIds| ==>
      circuits[k] == SubmittedCircuit(p.nQubits, SchemeFromName(name), tokenIds[k])
  {
    q := p;
    circuits := [];
    var i := 0;
    while i < |tokenIds|
      invariant 0 <= i <= |tokenIds|
      invariant q.nQubits == p.nQubits
      invariant |circuits| == i
      invariant forall k :: 0 <= k < i ==>
        circuits[k] == SubmittedCircuit(p.nQubits, SchemeFromName(name), tokenIds[k])
    {
      q := ProcessToken(q, tokenIds[i], name);
      circuits := circuits + [q.sim.circuit];
      i := i + 1;
    }
  }
}
