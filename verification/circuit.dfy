/**
  The circuit as the program sees it: an append-only log of gate records over
  a fixed number of quantum and classical bits.  Nothing here executes a
  gate; executing the log belongs to the external simulator.
 */
module Circuit {
  import opened Angles

  /** One instruction of the log.  Qubit and classical-bit indices are plain
      integers, exactly as the program passes them. */
  datatype Gate =
    | H(qubit: int)
    | X(qubit: int)
    | CX(control: int, target: int)
    | RZ(theta: Angle, qubit: int)
    | RY(theta: Angle, qubit: int)
    | Measure(qubit: int, clbit: int)
  {
    /** The qubits this record acts on. */
    function Qubits(): set<int> {
      match this
      case H(q) => {q}
      case X(q) => {q}
      case CX(c, t) => {c, t}
      case RZ(_, q) => {q}
      case RY(_, q) => {q}
      case Measure(q, _) => {q}
    }

    /** The record names existing qubits and classical bits only, and a
        controlled gate has distinct control and target. */
    predicate ValidFor(qubits: nat, clbits: nat) {
      match this
      case H(q) => 0 <= q < qubits
      case X(q) => 0 <= q < qubits
      case CX(c, t) => 0 <= c < qubits && 0 <= t < qubits && c != t
      case RZ(_, q) => 0 <= q < qubits
      case RY(_, q) => 0 <= q < qubits
      case Measure(q, c) => 0 <= q < qubits && 0 <= c < clbits
    }
  }

  /** A quantum circuit: register sizes plus the ordered instruction log. */
  datatype Circuit = Circuit(qubits: nat, clbits: nat, ops: seq<Gate>) {

    /** Every record of the log is valid for the registers. */
    predicate WellFormed() {
      forall i :: 0 <= i < |ops| ==> ops[i].ValidFor(qubits, clbits)
    }

    /** Appends records at the end of the log. */
    function Append(gs: seq<Gate>): (r: Circuit)
      ensures Extends(this, r, gs)
      ensures WellFormed() && (forall j :: 0 <= j < |gs| ==> gs[j].ValidFor(qubits, clbits))
              ==> r.WellFormed()
    {
      Circuit(qubits, clbits, ops + gs)
    }
  }

  /** `after` is `before` with exactly `added` appended: same registers, every
      earlier record unchanged and in place, the new ones in order after them. */
  predicate Extends(before: Circuit, after: Circuit, added: seq<Gate>) {
    && after.qubits == before.qubits
    && after.clbits == before.clbits
    && |after.ops| == |before.ops| + |added|
    && (forall i :: 0 <= i < |before.ops| ==> after.ops[i] == before.ops[i])
    && (forall j :: 0 <= j < |added| ==> after.ops[|before.ops| + j] == added[j])
  }

  /** The record-by-record description of an append determines the resulting
      circuit completely: it is the old log concatenated with the new records. */
  lemma ExtendsIsConcatenation(before: Circuit, after: Circuit, added: seq<Gate>)
    requires Extends(before, after, added)
    ensures after == before.Append(added)
  {
    assert after.ops == before.ops + added;
  }

  /** Two appends in a row are one append of both batches. */
  lemma ExtendsTransitive(a: Circuit, b: Circuit, c: Circuit, g1: seq<Gate>, g2: seq<Gate>)
    requires Extends(a, b, g1) && Extends(b, c, g2)
    ensures Extends(a, c, g1 + g2)
  {
    ExtendsIsConcatenation(a, b, g1);
    ExtendsIsConcatenation(b, c, g2);
    AppendAppend(a, g1, g2);
  }

  /** Appending two batches one after the other is appending their concatenation. */
  lemma AppendAppend(a: Circuit, g1: seq<Gate>, g2: seq<Gate>)
    ensures a.Append(g1).Append(g2) == a.Append(g1 + g2)
  {
    assert a.ops + g1 + g2 == a.ops + (g1 + g2);
  }
}
