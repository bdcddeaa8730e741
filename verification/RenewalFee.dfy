/**
 The sponsored renewal fee. The fee changes the wallet change, the change is an output, and the fee programs
 price the outputs: the solver looks for a fee that covers what it itself causes.
*/
module RenewalFee {
  import opened Common

  const MAX_ROUNDS := 64

  datatype Output = Offchain(amount: U64, script: Bytes) | AssetPacket(amount: U64, script: Bytes) | Onchain

  /** An output as fee programs see it. */
  datatype Priced = Priced(amount: U64, script: Bytes)

  /** A fee program with the two fixed inputs applied: the fee for these outputs, if it evaluates. */
  type Estimator = seq<Priced> -> Option<U64>

  /** A wallet VTXO offered to pay the fee. */
  datatype Funding = Funding(outpoint: OutPoint, amount: U64, script: Bytes, hasAssets: bool, expiresAt: int)

  datatype FeeError = NotClean | DuplicatesState | NoStateOutput | OnchainOutput | SubMinimumChange | EvaluationFailed | NotConverged

  predicate Clean(f: Funding, walletScript: Bytes) { !f.hasAssets && f.amount > 0 && f.script == walletScript }

  function AsPriced(o: Output): Priced
    requires !o.Onchain?
  {
    Priced(o.amount, o.script)
  }

  predicate NoneOnchain(outputs: seq<Output>) { forall o <- outputs :: !o.Onchain? }

  function AllPriced(outputs: seq<Output>): seq<Priced>
    requires NoneOnchain(outputs)
  {
    seq(|outputs|, i requires 0 <= i < |outputs| => AsPriced(outputs[i]))
  }

  /** The largest fee any program asks for these outputs; none if one fails to evaluate. */
  function Required(estimators: seq<Estimator>, outputs: seq<Priced>): Option<U64> {
    if estimators == [] then Some(0)
    else
      match (Required(estimators[..|estimators| - 1], outputs), estimators[|estimators| - 1](outputs))
      case (Some(a), Some(b)) => Some(if a > b then a else b)
      case _ => None
  }

  /** `Required` is the least upper bound of the programs. */
  lemma {:induction false} RequiredCovers(estimators: seq<Estimator>, outputs: seq<Priced>, fee: U64)
    ensures Required(estimators, outputs).Some? && Required(estimators, outputs).value <= fee
       <==> forall e <- estimators :: e(outputs).Some? && e(outputs).value <= fee
  {
    if estimators != [] {
      var last := |estimators| - 1;
      RequiredCovers(estimators[..last], outputs, fee);
      assert estimators == estimators[..last] + [estimators[last]];
    }
  }

  // ----- the fixed point -----

  predicate Affordable(f: Funding, minimum: U64, fee: nat) { fee + minimum <= f.amount }

  /** What the programs are shown while a fee is tried: state output, change, extension. */
  function Tried(state: Output, extension: Output, f: Funding, fee: nat): seq<Priced>
    requires !state.Onchain? && !extension.Onchain? && fee <= f.amount
  {
    [AsPriced(state), Priced(f.amount - fee, f.script), AsPriced(extension)]
  }

  /** The fee covers every program evaluated on the outputs it leads to. */
  ghost predicate Sufficient(estimators: seq<Estimator>, state: Output, extension: Output, f: Funding, minimum: U64, fee: nat) {
    && !state.Onchain? && !extension.Onchain? && Affordable(f, minimum, fee)
    && forall e <- estimators ::
         e(Tried(state, extension, f, fee)).Some? && e(Tried(state, extension, f, fee)).value <= fee
  }

  /** Paying more never lowers what the programs ask. */
  ghost predicate Monotone(estimators: seq<Estimator>, state: Output, extension: Output, f: Funding, minimum: U64)
    requires !state.Onchain? && !extension.Onchain?
  {
    forall low: nat, high: nat :: low <= high && Affordable(f, minimum, high) ==>
      NoLess(Required(estimators, Tried(state, extension, f, low)), Required(estimators, Tried(state, extension, f, high)))
  }

  predicate NoLess(low: Option<U64>, high: Option<U64>) { low.Some? && high.Some? && low.value <= high.value }

  /** The candidates start at nothing, and each is what the programs ask once the one before is paid; they rise. */
  ghost predicate Search(estimators: seq<Estimator>, state: Output, extension: Output, f: Funding, minimum: U64, candidates: seq<nat>) {
    && !state.Onchain? && !extension.Onchain? && candidates != [] && candidates[0] == 0
    && forall i :: 0 < i < |candidates| ==> Raised(estimators, state, extension, f, minimum, candidates[i - 1], candidates[i])
  }

  ghost predicate Raised(estimators: seq<Estimator>, state: Output, extension: Output, f: Funding, minimum: U64, before: nat, after: nat)
    requires !state.Onchain? && !extension.Onchain?
  {
    && Affordable(f, minimum, before) && before < after
    && Required(estimators, Tried(state, extension, f, before)) == Some(after)
  }

  /** How the search ends on its last candidate. */
  ghost predicate Verdict(estimators: seq<Estimator>, state: Output, extension: Output, f: Funding, minimum: U64,
                          last: nat, tries: nat, r: Result<U64, FeeError>)
    requires !state.Onchain? && !extension.Onchain?
  {
    if tries > MAX_ROUNDS then r == Err(NotConverged)
    else if !Affordable(f, minimum, last) then r == Err(SubMinimumChange)
    else
      match Required(estimators, Tried(state, extension, f, last))
      case None => r == Err(EvaluationFailed)
      case Some(required) => required <= last && r == Ok(last)
  }

  class RenewalIntent {
    var stateOutpoint: OutPoint
    var outputs: seq<Output>
    var expiresAt: int
    var funding: Option<Funding>

    constructor (stateOutpoint: OutPoint, state: Output, extension: Output, expiresAt: int)
      ensures this.stateOutpoint == stateOutpoint && outputs == [state, extension]
      ensures this.expiresAt == expiresAt && funding == None
    {
      this.stateOutpoint, outputs, this.expiresAt, funding := stateOutpoint, [state, extension], expiresAt, None;
    }

    predicate Ready()
      reads this
    {
      outputs != [] && !outputs[0].Onchain? && !outputs[|outputs| - 1].Onchain?
    }

    ghost predicate Covers(estimators: seq<Estimator>, f: Funding, minimum: U64, fee: nat)
      reads this
      requires outputs != []
    {
      Sufficient(estimators, outputs[0], outputs[|outputs| - 1], f, minimum, fee)
    }

    /**
     `estimate_sponsored_fee`: an answer is sufficient; for monotone programs it is the least sufficient fee, and
     a refusal for lack of change means there is none. Every round raises the candidate.
    */
    method EstimateSponsoredFee(f: Funding, walletScript: Bytes, estimators: seq<Estimator>, minimum: U64)
      returns (r: Result<U64, FeeError>, ghost candidates: seq<nat>)
      ensures r == Err(NotClean) <==> f.hasAssets || f.amount == 0 || f.script != walletScript
      ensures r == Err(DuplicatesState) <==>
                !f.hasAssets && f.amount > 0 && f.script == walletScript && f.outpoint == stateOutpoint
      ensures candidates != [] <==>
                !f.hasAssets && f.amount > 0 && f.script == walletScript && f.outpoint != stateOutpoint && Ready()
      ensures candidates == [] ==> r in {Err(NotClean), Err(DuplicatesState), Err(NoStateOutput), Err(OnchainOutput)}
      ensures candidates != [] ==> (r == Err(NotConverged) <==> |candidates| == 65)
      ensures 0 < |candidates| < 65 ==> (r == Err(SubMinimumChange) <==> f.amount < candidates[|candidates| - 1] + minimum)
      ensures candidates != [] ==> Search(estimators, outputs[0], outputs[|outputs| - 1], f, minimum, candidates)
      ensures candidates != [] ==>
                Verdict(estimators, outputs[0], outputs[|outputs| - 1], f, minimum, candidates[|candidates| - 1], |candidates|, r)
      ensures r.Ok? ==> Ready() && Covers(estimators, f, minimum, r.value)
      ensures Ready() && Monotone(estimators, outputs[0], outputs[|outputs| - 1], f, minimum) ==>
                && (r.Ok? ==> forall fee: nat :: Covers(estimators, f, minimum, fee) ==> r.value <= fee)
                && (r == Err(SubMinimumChange) ==> forall fee: nat :: !Covers(estimators, f, minimum, fee))
                && (r == Err(NotConverged) ==> forall fee: nat :: Covers(estimators, f, minimum, fee) ==> fee >= MAX_ROUNDS)
                && r != Err(EvaluationFailed)
    {
      candidates := [];
      if !Clean(f, walletScript) { return Err(NotClean), candidates; }
      if f.outpoint == stateOutpoint { return Err(DuplicatesState), candidates; }
      if outputs == [] { return Err(NoStateOutput), candidates; }
      var state, extension := outputs[0], outputs[|outputs| - 1];
      if state.Onchain? || extension.Onchain? { return Err(OnchainOutput), candidates; }
      ghost var monotone := Monotone(estimators, state, extension, f, minimum);
      var paid: U64 := 0;
      candidates := [0];
      for round := 0 to MAX_ROUNDS
        invariant |candidates| == round + 1 && candidates[round] == paid >= round
        invariant Search(estimators, state, extension, f, minimum, candidates)
        invariant monotone ==> forall fee: nat :: Sufficient(estimators, state, extension, f, minimum, fee) ==> paid <= fee
      {
        if f.amount < paid || f.amount - paid < minimum { return Err(SubMinimumChange), candidates; }
        var tried := Tried(state, extension, f, paid);
        var required := LargestFee(estimators, tried);
        if monotone { assert NoLess(Required(estimators, tried), Required(estimators, tried)); }
        if required.None? { return Err(EvaluationFailed), candidates; }
        RequiredCovers(estimators, tried, paid);
        if required.value <= paid { return Ok(paid), candidates; }
        forall fee: nat | monotone && Sufficient(estimators, state, extension, f, minimum, fee)
          ensures required.value <= fee
        {
          SufficientBounds(estimators, state, extension, f, minimum, paid, fee);
        }
        paid := required.value;
        candidates := candidates + [paid];
      }
      return Err(NotConverged), candidates;
    }

    /** `add_fee_funding`: the change goes between the state output and the extension. */
    method AddFeeFunding(f: Funding, walletScript: Bytes, fee: U64, minimum: U64) returns (error: Option<FeeError>)
      requires outputs != []
      modifies this
      ensures error.None? <==>
                && !f.hasAssets && f.amount > 0 && f.script == walletScript && f.outpoint != old(stateOutpoint)
                && fee + minimum <= f.amount
      ensures error == Some(NotClean) <==> f.hasAssets || f.amount == 0 || f.script != walletScript
      ensures error == Some(SubMinimumChange) ==> f.amount < fee + minimum
      ensures error.None? ==>
                && outputs == old(outputs)[..1] + [Offchain(f.amount - fee, walletScript)] + old(outputs)[1..]
                && expiresAt == (if f.expiresAt < old(expiresAt) then f.expiresAt else old(expiresAt))
                && funding == Some(f)
      ensures error.Some? ==> outputs == old(outputs) && expiresAt == old(expiresAt) && funding == old(funding)
      ensures stateOutpoint == old(stateOutpoint)
    {
      if !Clean(f, walletScript) { return Some(NotClean); }
      if f.outpoint == stateOutpoint { return Some(DuplicatesState); }
      if f.amount < fee || f.amount - fee < minimum { return Some(SubMinimumChange); }
      outputs := outputs[..1] + [Offchain(f.amount - fee, walletScript)] + outputs[1..];
      if f.expiresAt < expiresAt { expiresAt := f.expiresAt; }
      funding := Some(f);
      return None;
    }

    /** Estimating and then funding never fails in between, and the fee covers every program on the built outputs. */
    method Sponsor(f: Funding, walletScript: Bytes, estimators: seq<Estimator>, minimum: U64) returns (r: Result<U64, FeeError>)
      requires |outputs| == 2
      modifies this
      ensures r.Ok? ==> |outputs| == 3 && NoneOnchain(outputs) && funding == Some(f)
      ensures r.Ok? ==> forall e <- estimators :: e(AllPriced(outputs)).Some? && e(AllPriced(outputs)).value <= r.value
      ensures r.Ok? ==> outputs[1].amount >= minimum && f.amount == r.value + outputs[1].amount
    {
      ghost var (state, extension) := (outputs[0], outputs[1]);
      ghost var candidates;
      r, candidates := EstimateSponsoredFee(f, walletScript, estimators, minimum);
      if r.Err? { return; }
      var error := AddFeeFunding(f, walletScript, r.value, minimum);
      assert error.None?;
      assert outputs == [state, Offchain(f.amount - r.value, walletScript), extension];
      assert AllPriced(outputs) == Tried(state, extension, f, r.value);
    }
  }

  /** The fold over the programs. */
  method LargestFee(estimators: seq<Estimator>, outputs: seq<Priced>) returns (fee: Option<U64>)
    ensures fee == Required(estimators, outputs)
  {
    fee := Some(0);
    for i := 0 to |estimators|
      invariant fee == Required(estimators[..i], outputs)
    {
      assert estimators[..i + 1][..i] == estimators[..i];
      var next := estimators[i](outputs);
      fee := if fee.Some? && next.Some? then Some(if fee.value > next.value then fee.value else next.value) else None;
    }
    assert estimators[..|estimators|] == estimators;
  }

  /** With monotone programs no sufficient fee lies below what a smaller one already requires. */
  lemma SufficientBounds(estimators: seq<Estimator>, state: Output, extension: Output, f: Funding, minimum: U64, paid: nat, fee: nat)
    requires !state.Onchain? && !extension.Onchain? && Monotone(estimators, state, extension, f, minimum)
    requires paid <= fee && Sufficient(estimators, state, extension, f, minimum, fee)
    ensures Required(estimators, Tried(state, extension, f, paid)).Some?
    ensures Required(estimators, Tried(state, extension, f, paid)).value <= fee
  {
    RequiredCovers(estimators, Tried(state, extension, f, fee), fee);
    assert NoLess(Required(estimators, Tried(state, extension, f, paid)), Required(estimators, Tried(state, extension, f, fee)));
  }

  /** The programs are shown the outputs that will be built exactly when the intent has its two outputs. */
  lemma TriedIsBuilt(outputs: seq<Output>, f: Funding, fee: nat)
    requires outputs != [] && NoneOnchain(outputs) && fee <= f.amount
    ensures var built := outputs[..1] + [Offchain(f.amount - fee, f.script)] + outputs[1..];
            Tried(outputs[0], outputs[|outputs| - 1], f, fee) == AllPriced(built) <==> |outputs| == 2
  {}
}
