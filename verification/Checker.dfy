/** The checks a party makes before it signs a trade. */
module Checker {
  import opened Amounts
  import opened Chain
  import opened Psbts
  import opened Wrappers

  /** What both parties derive from a trade before they check anything. */
  datatype Params = Params(buyer: string, seller: string, asset: string, price: Int64, units: Int64)

  datatype SellerData = SellerData(nameAddress: Option<string>, chiAddress: Option<string>,
      nameOutput: Option<OutPoint>)

  function GetXayaName(account: string): string {
    "p/" + account
  }

  function GetNameUpdateValue(w: World, p: Params): string {
    w.updateValue(p.seller, p.buyer, p.asset, p.units)
  }

  /** The answers the buyer's check gets from the asset specification and the chain. */
  datatype BuyerView = BuyerView(
    isAsset: bool,
    canBuy: bool,
    nameOutput: OutPoint,
    utxoBlock: Option<Block>,
    sellableAt: Option<Block>)

  /** The name input the buyer's check settles on, if it passes. */
  function CheckForBuyerTrade(v: BuyerView): Option<OutPoint> {
    if !v.isAsset || !v.canBuy || v.utxoBlock.None? || v.sellableAt.None? then None
    else if !IsBlockAncestor(v.utxoBlock.value, v.sellableAt.value, MAX_BLOCK_ANCESTORS_CHECKED) then None
    else Some(v.nameOutput)
  }

  /**
   * Exactly what a passed check means: the asset is one, the buyer can receive it,
   * the name output is unspent at a block, the seller can send at the game's block,
   * and that is the first block or one of its first three descendants.
   */
  lemma BuyerCheckIsExact(v: BuyerView)
    ensures CheckForBuyerTrade(v).Some? <==>
              && v.isAsset && v.canBuy && v.utxoBlock.Some? && v.sellableAt.Some?
              && Depth(v.utxoBlock.value, v.sellableAt.value).Some?
              && Depth(v.utxoBlock.value, v.sellableAt.value).value <= 3
    ensures CheckForBuyerTrade(v).Some? ==> CheckForBuyerTrade(v).value == v.nameOutput
  {
    if v.utxoBlock.Some? && v.sellableAt.Some? {
      AncestorWalkIsExact(v.utxoBlock.value, v.sellableAt.value, MAX_BLOCK_ANCESTORS_CHECKED);
    }
  }

  /** The answers agree with the chains: the output is unspent at its block, the seller can sell at the game's. */
  ghost predicate TruthfulView(v: BuyerView, seller: string, canSell: Block -> bool) {
    && (v.utxoBlock.Some? ==> v.nameOutput in Utxos(v.utxoBlock.value)
                              && Utxos(v.utxoBlock.value)[v.nameOutput] == Some(seller))
    && (v.sellableAt.Some? ==> canSell(v.sellableAt.value))
  }

  /**
   * A passed check protects the buyer on every chain: wherever the block they
   * asked the game about is confirmed and the name input is still unspent, the
   * seller can still send the assets.
   */
  lemma BuyerIsSafe(v: BuyerView, seller: string, canSell: Block -> bool, nameInput: OutPoint, later: Block)
    requires CheckForBuyerTrade(v) == Some(nameInput)
    requires TruthfulView(v, seller, canSell) && OnlyMovesMatter(canSell, seller)
    requires ValidChain(later) && IsAncestor(v.sellableAt.value, later) && nameInput in Utxos(later)
    ensures canSell(later) && Utxos(later)[nameInput] == Some(seller)
  {
    var (a, g) := (v.utxoBlock.value, v.sellableAt.value);
    SellerCanStillSend(canSell, seller, nameInput, a, g, MAX_BLOCK_ANCESTORS_CHECKED, later);
    AncestorWalkIsExact(a, g, MAX_BLOCK_ANCESTORS_CHECKED);
    AncestorTransitive(a, g, later);
    NameStays(a, later, nameInput);
  }

  /** One and only one input is the same before and after signing. */
  ghost predicate AllButOneChanged(before: Psbt, after: Psbt) {
    |before.inputs| == |after.inputs|
    && exists i :: 0 <= i < |before.inputs| && before.inputs[i] == after.inputs[i]
                   && forall j :: 0 <= j < |before.inputs| && before.inputs[j] == after.inputs[j] ==> j == i
  }

  /** Index i is the first input that spends an outpoint. */
  predicate IsFirstInput(tx: Tx, out: OutPoint, i: int) {
    0 <= i < |tx.vin| && tx.vin[i] == out && out !in tx.vin[..i]
  }

  lemma FirstInputIsUnique(tx: Tx, out: OutPoint, i: int)
    requires IsFirstInput(tx, out, i)
    ensures forall j :: IsFirstInput(tx, out, j) ==> j == i
  {
    assert forall j, k :: 0 <= j < k <= |tx.vin| ==> tx.vin[..k][j] == tx.vin[j];
  }

  /** An outpoint is spent, and no input but the first that spends it has changed. */
  ghost predicate OnlyInputChanged(before: Psbt, after: Psbt, out: OutPoint) {
    |before.inputs| == |after.inputs|
    && exists i :: IsFirstInput(before.tx, out, i)
                   && forall j :: 0 <= j < |before.inputs| && j != i ==> before.inputs[j] == after.inputs[j]
  }

  /**
   * What the seller is promised: a payment of the total to their address,
   * unless the total is zero, and the agreed update of their name to their other address.
   */
  ghost predicate PaysSeller(w: World, p: Params, total: int, sd: SellerData, tx: Tx)
    requires sd.chiAddress.Some? && sd.nameAddress.Some?
  {
    && (total == 0 || exists i :: 0 <= i < |tx.vout| && IsPayment(tx.vout[i], sd.chiAddress.value, total))
    && exists j :: 0 <= j < |tx.vout|
                   && IsNameUpdate(tx.vout[j], sd.nameAddress.value, GetXayaName(p.seller), GetNameUpdateValue(w, p))
  }

  datatype Verdict = Passed | Rejected | Died

  /** The verdict on outputs, with the two CHECKs on the total. */
  ghost function OutputsVerdict(w: World, p: Params, sd: SellerData, tx: Tx): Verdict
    requires sd.chiAddress.Some? && sd.nameAddress.Some?
  {
    match GetTotalSat(p.price, p.units)
    case Dies => Died
    case Overflow => Rejected
    case Fits(total) =>
      if total < 0 then Died
      else if PaysSeller(w, p, total, sd, tx) then Passed
      else Rejected
  }

  class TradeChecker {
    const world: World
    const params: Params

    constructor (w: World, p: Params)
      ensures world == w && params == p
    {
      world, params := w, p;
    }

    /** Counts the inputs that signing has changed, which finds whether exactly one is left. */
    method CheckForBuyerSignature(before: Psbt, after: Psbt) returns (ok: bool)
      requires before.tx == after.tx
      ensures ok <==> AllButOneChanged(before, after)
    {
      var count := 0;
      ghost var same: int := -1;
      for i := 0 to |before.inputs|
        invariant 0 <= count <= i
        invariant count == i <==> forall j :: 0 <= j < i ==> before.inputs[j] != after.inputs[j]
        invariant count + 1 == i <==> 0 <= same < i && before.inputs[same] == after.inputs[same]
                                      && forall j :: 0 <= j < i && before.inputs[j] == after.inputs[j] ==> j == same
        invariant count + 1 < i ==> exists j, k :: 0 <= j < k < i && before.inputs[j] == after.inputs[j]
                                                   && before.inputs[k] == after.inputs[k]
      {
        if before.inputs[i] != after.inputs[i] {
          count := count + 1;
        } else if count == i {
          same := i;
        }
      }
      ok := count + 1 == |before.inputs|;
    }

    /** Looks for the payment and the name update among the outputs. */
    method CheckForSellerOutputs(psbt: Psbt, sd: SellerData) returns (verdict: Verdict)
      requires sd.chiAddress.Some? && sd.nameAddress.Some?
      ensures verdict == OutputsVerdict(world, params, sd, psbt.tx)
    {
      var total := GetTotalSat(params.price, params.units);
      if total.Dies? {
        return Died;
      }
      if total.Overflow? {
        return Rejected;
      }
      var expectedTotal := total.sat;
      var foundChi := false;
      var foundName := false;
      if expectedTotal < 0 {
        return Died;
      }
      if expectedTotal == 0 {
        foundChi := true;
      }
      var vout := psbt.tx.vout;
      var (name, value) := (GetXayaName(params.seller), GetNameUpdateValue(world, params));
      for i := 0 to |vout|
        invariant foundChi <==> expectedTotal == 0
                                || exists k :: 0 <= k < i && IsPayment(vout[k], sd.chiAddress.value, expectedTotal)
        invariant foundName <==> exists k :: 0 <= k < i && IsNameUpdate(vout[k], sd.nameAddress.value, name, value)
      {
        var script := vout[i].script;
        if script.nameOp.Some? {
          var nameOp := script.nameOp.value;
          if nameOp.op != "name_update" || nameOp.name != name || nameOp.value != value {
            continue;
          }
          if !MatchesAddress(script, sd.nameAddress.value) {
            continue;
          }
          foundName := true;
          continue;
        }
        if !MatchesAddress(script, sd.chiAddress.value) {
          continue;
        }
        if vout[i].value < expectedTotal {
          continue;
        }
        foundChi := true;
      }
      verdict := if foundChi && foundName then Passed else Rejected;
    }

    /** Finds the seller's own name input, then looks for any other input that signing has changed. */
    method CheckForSellerSignature(before: Psbt, after: Psbt, sd: SellerData) returns (ok: bool)
      requires sd.nameOutput.Some? && before.tx == after.tx
      ensures ok <==> OnlyInputChanged(before, after, sd.nameOutput.value)
    {
      var nmOut := sd.nameOutput.value;
      var vin := before.tx.vin;
      var inputIndex := -1;
      for i := 0 to |vin|
        invariant inputIndex == -1 && nmOut !in vin[..i]
      {
        if vin[i] == nmOut {
          inputIndex := i;
          break;
        }
      }
      if inputIndex == -1 {
        assert vin[..|vin|] == vin;
        return false;
      }
      assert IsFirstInput(before.tx, nmOut, inputIndex);
      FirstInputIsUnique(before.tx, nmOut, inputIndex);
      for i := 0 to |before.inputs|
        invariant forall j :: 0 <= j < i && j != inputIndex ==> before.inputs[j] == after.inputs[j]
      {
        if i == inputIndex {
          continue;
        }
        if before.inputs[i] != after.inputs[i] {
          return false;
        }
      }
      ok := true;
    }
  }

  /** A payment and a name update are never the same output. */
  lemma PaymentIsSeparate(w: World, p: Params, total: int, sd: SellerData, tx: Tx)
    requires sd.chiAddress.Some? && sd.nameAddress.Some? && total != 0
    requires PaysSeller(w, p, total, sd, tx)
    ensures exists i, j :: 0 <= i < |tx.vout| && 0 <= j < |tx.vout| && i != j
              && IsPayment(tx.vout[i], sd.chiAddress.value, total)
              && IsNameUpdate(tx.vout[j], sd.nameAddress.value, GetXayaName(p.seller), GetNameUpdateValue(w, p))
  {
    var i :| 0 <= i < |tx.vout| && IsPayment(tx.vout[i], sd.chiAddress.value, total);
    var j :| 0 <= j < |tx.vout|
             && IsNameUpdate(tx.vout[j], sd.nameAddress.value, GetXayaName(p.seller), GetNameUpdateValue(w, p));
    assert i != j;
  }

  /** A transaction that was unsigned is not complete after the buyer's signature. */
  lemma BuyerSignatureIsPartial(before: Psbt, after: Psbt)
    requires Unsigned(before) && before.tx == after.tx && AllButOneChanged(before, after)
    ensures !IsComplete(after)
  {
    var i :| 0 <= i < |before.inputs| && before.inputs[i] == after.inputs[i];
  }
}
