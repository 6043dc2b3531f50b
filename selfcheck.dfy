/** `self_check` (app/ark_engine/core/self_check.py): the three-way
    stability classifier of a memory record. */
module SelfCheck {

  datatype Mode = Recover | Steady | Expand

  /** The label `self_check` returns for each mode. */
  function Label(m: Mode): string {
    match m
    case Recover => "recover"
    case Steady => "steady"
    case Expand => "expand"
  }

  /** Recover < Steady < Expand. */
  function Rank(m: Mode): nat {
    match m
    case Recover => 0
    case Steady => 1
    case Expand => 2
  }

  /** `self_check(memory)` on `memory.stability`: below 0.6 recovers, above
      1.2 expands, anything in between holds steady. */
  function Classify(stability: real): (m: Mode)
    ensures m == Recover <==> stability < 0.6
    ensures m == Expand <==> stability > 1.2
    ensures m == Steady <==> 0.6 <= stability <= 1.2
  {
    if stability < 0.6 then Recover
    else if stability > 1.2 then Expand
    else Steady
  }

  /** The label is always one of the three. */
  lemma LabelIsOneOfThree(stability: real)
    ensures Label(Classify(stability)) in {"recover", "steady", "expand"}
  {
  }

  /** A more stable memory never gets a lower mode. */
  lemma ClassifyMonotone(a: real, b: real)
    requires a <= b
    ensures Rank(Classify(a)) <= Rank(Classify(b))
  {
  }
}
