# quantum-sim circuit construction, modelled in Dafny

The repository builds small quantum circuits and hands them to an external
simulator for sampling. Its own logic is deterministic: it turns arguments
into an ordered log of gate instructions. This project models that log and
proves exactly which records each operation appends.

- `QuantumSimulator` (pyquant.py) holds a qubit count and a circuit with as
  many classical bits as qubits. Its single-gate appenders, `measure_all`,
  the Bell-pair protocol and the teleportation protocol each append a fixed,
  stated sequence of records. Teleportation prepares qubit 0, builds the
  channel on qubits 1 and 2, rotates into the Bell basis and measures qubits
  0 and 1. It applies no correction gate to qubit 2, and the model keeps that.
- `QuantumTokenProcessor` (quantum_token_processor.py) encodes an integer
  token id on n qubits in one of three schemes. Amplitude encoding is a Y
  rotation by `(t mod 2^n) / 2^n * pi` followed by a CX chain. Phase encoding
  is a Hadamard layer, a Z rotation by `(t mod 2^n) / 2^n * 2 pi`, and the
  same chain. Hybrid encoding splits `t` by `2^(n-1)` and runs amplitude
  encoding on the remainder, then phase encoding on the quotient. A scheme
  name other than `amplitude` or `phase` selects hybrid. `process_token`
  builds every token's circuit on a fresh simulator and measures all qubits.

Files: `angles.dfy` (pi as an abstract positive real, and the angle
record), `arith.dfy` (powers of two, Euclidean division, scaling facts), `circuit.dfy` (gate records, the
circuit log, the `Extends` relation "exactly these records were appended"),
`simulator.dfy` (pyquant.py), `token_processor.dfy`
(quantum_token_processor.py).

Conventions:
- Python `%` and `//` with a positive divisor are Dafny's Euclidean `%` and
  `/`, negative token ids included.
- An angle is recorded the way it was computed. The encoders compute a
  multiple of pi (`PiTimes(k)`). Teleportation and `apply_phase` take a
  number of radians (`Rad(r)`). `Value()` gives radians, with pi an
  uninterpreted positive constant. The model compares angles only between
  records computed the same way.
- Qubit indices are unchecked integers, as the program passes them. Index
  checking happens inside the circuit library, which is not part of this
  model. It is replaced by a `WellFormed` predicate, and the model proves
  that the protocols and encoders keep a circuit well formed when it has
  enough qubits.
- There is no single "measure all" record: `measure_all` appends one
  `Measure(i, i)` per qubit, in ascending order (pyquant.py:47-48).
- Building a simulator over 0 qubits is not rejected (pyquant.py:7-12); the
  model allows it too.
- Hybrid encoding is modelled for `n >= 1` only. On 0 qubits the program's
  split uses `2**(0-1)`, which is the float `0.5`, so the two parts are
  floats rather than integers (quantum_token_processor.py:100-101), and the
  call then fails inside the circuit library at the Y rotation of qubit 0
  (quantum_token_processor.py:78, reached from line 103). The integer split
  of the model has no counterpart for that case.

What the encodings identify: two tokens give identical amplitude or phase
circuits exactly when they agree modulo `2^n`. They give identical hybrid
circuits exactly when they agree modulo `2^(2n-1)`, because the phase part
only enters through its residue modulo `2^n`. For 4 qubits, tokens 0 and 128
get the same hybrid circuit.

## Model

| member | source | states |
|---|---|---|
| Simulator.New | pyquant.py:7-12 | a new simulator has the given qubit count, an empty log, and equally many quantum and classical bits |
| Simulator.QuantumSimulator.Emit | pyquant.py:76-90 | the direct `self.circuit.<gate>(...)` calls that bypass the wrapper methods (also quantum_token_processor.py:78, 88, 91): the given records are appended in order after the unchanged log, the qubit count is kept, and a well-formed circuit stays well formed when every appended record is valid for its registers |
| Simulator.ApplyHadamard | pyquant.py:15-20 | exactly one record `H(qubit)` is appended after the unchanged earlier records; a well-formed circuit stays well formed for an existing qubit |
| Simulator.ApplyCnot | pyquant.py:22-27 | exactly one record `CX(control, target)` is appended, earlier records unchanged; well-formedness kept for distinct existing qubits |
| Simulator.ApplyPhase | pyquant.py:29-34 | exactly one Z-rotation record is appended whose qubit is the first argument and whose angle is the second, although the library call takes them in the opposite order |
| Simulator.MeasureQubit | pyquant.py:36-41 | exactly one record `Measure(qubit, clbit)` is appended, earlier records unchanged |
| Simulator.MeasureAllGates | pyquant.py:47-48 | the loop's records: n of them, the i-th being `Measure(i, i)` |
| Simulator.MeasureAll | pyquant.py:43-49 | the loop of `measure(i, i)` calls appends exactly `numQubits` records, `Measure(i, i)` in ascending i, earlier records unchanged; well-formedness and register consistency kept |
| Simulator.CreateBellPair | pyquant.py:60-66 | composing the two appenders appends exactly `H(0)`, `CX(0, 1)`; well formed on two or more qubits |
| Simulator.QuantumTeleportation | pyquant.py:68-92 | exactly the teleportation records are appended after the unchanged log; well formed on three or more qubits with two or more classical bits |
| Simulator.TeleportationPreparesQubitZero | pyquant.py:75-79 | `X(0)` is emitted iff the first number is non-zero, `RZ(b, 0)` iff the second is, X before RZ when both are, then the fixed six-record tail, 6 to 8 records in all |
| Simulator.TeleportationLeavesQubitTwoUncorrected | pyquant.py:81-92 | only the channel's `CX(1, 2)` touches qubit 2, no X or Z gate acts on qubit 2, and the log ends measuring qubits 0 and 1, so no correction follows |
| TokenProcessor.SchemeName | quantum_token_processor.py:65-69 | every scheme's key is one of the three keys of the scheme table |
| TokenProcessor.SchemeNameInjective | quantum_token_processor.py:65-69 | distinct schemes are registered under distinct keys, and equal keys mean the same scheme |
| TokenProcessor.SchemeFromName | quantum_token_processor.py:116 | the lookup yields amplitude iff the name is "amplitude", phase iff it is "phase", and hybrid for every other name |
| TokenProcessor.SchemeLookupRoundTrip | quantum_token_processor.py:65-69 | each scheme is found again under its registered key |
| TokenProcessor.AmplitudeAngle | quantum_token_processor.py:75-76 | the amplitude angle is a multiple of pi in [0, 1), so its value lies in [0, pi) |
| TokenProcessor.PhaseAngle | quantum_token_processor.py:90 | the phase angle is a multiple of pi in [0, 2), so its value lies in [0, 2 pi) |
| TokenProcessor.AmplitudeAngleIdentifiesResidue | quantum_token_processor.py:75-76 | two tokens get the same amplitude angle iff they agree modulo 2^n, as a record and as a value in radians |
| TokenProcessor.PhaseAngleIdentifiesResidue | quantum_token_processor.py:90 | two tokens get the same phase angle iff they agree modulo 2^n, as a record and as a value in radians |
| TokenProcessor.CnotChain | quantum_token_processor.py:80-81 | the chain holds n - 1 records (none for n = 0), the i-th being `CX(i, i + 1)` |
| TokenProcessor.HadamardLayer | quantum_token_processor.py:87-88 | n records, the i-th being `H(i)` |
| TokenProcessor.AmplitudeGates | quantum_token_processor.py:71-81 | n records for n >= 1: the Y rotation of qubit 0 by the amplitude angle first, then `CX(i - 1, i)` at position i |
| TokenProcessor.PhaseGates | quantum_token_processor.py:83-94 | 2n records for n >= 1: `H(i)` at positions below n, the Z rotation of qubit 0 by the phase angle at n, then the CX chain |
| TokenProcessor.HybridSplit | quantum_token_processor.py:100-101 | the low part lies in [0, 2^(n-1)) and low + high * 2^(n-1) is the token |
| TokenProcessor.HybridSplitUnique | quantum_token_processor.py:100-101 | the split is the only pair with a low part in range that recombines to the token |
| TokenProcessor.HybridGates | quantum_token_processor.py:96-104 | 3n records: the amplitude records of the low part, then the phase records of the high part; the Y rotation is a multiple of pi below one half, so strictly below pi / 2 |
| TokenProcessor.AmplitudeGatesIdentifyResidue | quantum_token_processor.py:75-81 | two tokens give equal amplitude records iff they agree modulo 2^n |
| TokenProcessor.PhaseGatesIdentifyResidue | quantum_token_processor.py:87-94 | two tokens give equal phase records iff they agree modulo 2^n |
| TokenProcessor.HybridGatesIdentifyResidue | quantum_token_processor.py:96-104 | two tokens give equal hybrid records iff they agree modulo 2^(2n-1) |
| TokenProcessor.AmplitudeGatesValid | quantum_token_processor.py:78-81 | on n >= 1 qubits every amplitude record names existing, distinct qubits |
| TokenProcessor.PhaseGatesValid | quantum_token_processor.py:87-94 | on n >= 1 qubits every phase record names existing, distinct qubits |
| TokenProcessor.EncodeGatesShape | quantum_token_processor.py:71-104 | on n >= 1 qubits every scheme emits only valid records, n, 2n or 3n of them |
| TokenProcessor.SubmittedCircuitShape | quantum_token_processor.py:114-119 | the submitted circuit is well formed, holds 2n, 3n or 4n records, and ends with `Measure(i, i)` for every qubit in ascending order |
| TokenProcessor.NewProcessor | quantum_token_processor.py:55-56 | a processor of width n starts on a fresh n-qubit simulator with an empty log |
| TokenProcessor.ApplyCnotChain | quantum_token_processor.py:80-81 | the loop of `apply_cnot(i, i + 1)` calls appends exactly the CX chain |
| TokenProcessor.ApplyHadamardLayer | quantum_token_processor.py:87-88 | the loop of `h(i)` calls appends exactly the Hadamard layer |
| TokenProcessor.AmplitudeEncoding | quantum_token_processor.py:71-81 | the encoder appends exactly the amplitude records of the token to the current circuit |
| TokenProcessor.PhaseEncoding | quantum_token_processor.py:83-94 | the encoder appends exactly the phase records of the token |
| TokenProcessor.HybridEncoding | quantum_token_processor.py:96-104 | running both encoders in sequence on one circuit appends exactly the hybrid records |
| TokenProcessor.EncodedStaysWellFormed | quantum_token_processor.py:71-104 | appending any scheme's records to a well-formed circuit over n >= 1 qubits and n classical bits keeps it well formed |
| TokenProcessor.Encode | quantum_token_processor.py:116-117 | the dispatched encoder appends exactly the records of the chosen scheme; on at least one qubit, a consistent simulator with a well-formed circuit stays well formed |
| TokenProcessor.ProcessToken | quantum_token_processor.py:106-119 | the circuit left for execution is a fresh width-n circuit with the scheme's records and then a measurement of every qubit, and depends on nothing the processor built before |
| TokenProcessor.FreshThenMeasured | quantum_token_processor.py:114-119 | encoding onto a fresh circuit and then measuring every qubit leaves exactly the encoded records followed by the measurements |
| TokenProcessor.ProcessTokens | quantum_token_processor.py:139-140 | over a sequence of tokens the k-th submitted circuit is the one for the k-th token alone |

## Left out

- `QuantumSimulator.run` and everything it does: statevector evolution,
  Born-rule probabilities, sampling, histograms and their bitstring order.
  This happens inside the external simulator library, which is not part of
  this model.
- The normalisation of counts into probabilities in `process_token`
  (quantum_token_processor.py:122). It is floating-point division over
  counts the external simulator produces.
- Gate matrices and unitarity. The program only issues gate calls.
- The `AerSimulator` handle kept by the constructor (pyquant.py:13). It has
  no bearing on the log.
- Floating-point rounding of the angles. Angles are exact reals, and pi is
  abstract.
- The circuit library's own checks: indices out of range and repeated qubit
  arguments raise there. The model records such calls instead of failing,
  except hybrid encoding on 0 qubits (below). The `WellFormed` lemmas and
  the `Encode` contract show that the protocols and encoders never trigger
  those checks on large enough registers.
- HybridEncoding: (with `HybridSplit`, `HybridGates`, `Encode`,
  `ProcessToken` and `ProcessTokens`) requires at least one qubit, so the
  error path of hybrid encoding on 0 qubits is not modelled: there the
  program computes float parts and then fails inside the circuit library at
  `ry(angle, 0)` (quantum_token_processor.py:78, 100-103).
- Teleportation's argument is a two-element list. It is modelled as two
  reals, so the index error for a shorter list is not modelled.
- Tokenizer loading, authentication, environment variables, logging and all
  console rendering (`log_proses`, `visualize_processing`, `main`). These are
  external services or presentation. `process_text` is modelled only as its
  loop over token ids (`ProcessTokens`), because tokenization is external.
- The default arguments (width 4, scheme name "hybrid"). The model takes
  them as explicit parameters.
