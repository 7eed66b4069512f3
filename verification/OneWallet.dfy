/**
 * Two processes on one wallet, one buying from the other: an input for which
 * the buyer's discard of a badly signed transaction frees a lock of the seller.
 */
module OneWallet {
  import opened Amounts
  import opened Chain
  import opened Checker
  import opened NodeLocks
  import opened Orders
  import opened Psbts
  import opened TradeRules
  import opened TradeRuns
  import opened Wrappers

  const COIN := OutPoint("coin", 0)
  const NAME_OUT := OutPoint("name", 0)

  /** All coins and addresses are in the one wallet; one output carries the seller's name. */
  function SharedWorld(): World {
    World((seller, buyer, asset, units) => "move", o => "buyer", addr => "buyer",
          o => if o == NAME_OUT then Some("seller") else None)
  }

  /** The buyer as the taker of an ask, with the seller's addresses at hand. */
  function BuyersTrade(): TradeState {
    var order := Order(Some("seller"), Some(0), Some("gold"), 1, 5, Some(Ask), Some(10), false);
    NewTrade(order, 1, "seller", 0).(sellerData := Some(SellerData(Some("name addr"), Some("chi addr"), None)))
  }

  function Funded(addr: string, total: int): Psbt {
    Decoded(Tx([COIN], [Output(ScriptPubKey(Some([addr]), None, None), total)]), [Input(false, "")])
  }

  function Joined(p: Psbt, q: Psbt): Psbt {
    Decoded(Tx(p.tx.vin + q.tx.vin, p.tx.vout + q.tx.vout), p.inputs + q.inputs)
  }

  /** The wallet signs all that is its own, which is everything. */
  function SignedFully(p: Psbt): (q: Psbt)
    ensures q.tx == p.tx && forall i :: 0 <= i < |q.inputs| ==> q.inputs[i].signed
  {
    Decoded(p.tx, seq(|p.inputs|, i => Input(true, "")))
  }

  function SharedAnswers(): Rpc {
    var block := Genesis(map[NAME_OUT := Some("seller")]);
    Rpc(None, false, None, Some(BuyerView(true, true, NAME_OUT, Some(block), Some(block))),
        (addr, total) => Some(Funded(addr, total)), true, (p, q) => Some(Joined(p, q)), p => Some(SignedFully(p)),
        (p, q) => None, false, false)
  }

  lemma AnswersAreLawful()
    ensures Lawful(SharedWorld(), "buyer", {NAME_OUT}, SharedAnswers())
    ensures LawfulView(SharedWorld(), "seller", SharedAnswers())
  {
    var (w, rpc) := (SharedWorld(), SharedAnswers());
    forall addr, total ensures Funds(w, "buyer", {NAME_OUT}, addr, total, Funded(addr, total)) {
      assert IsPayment(Funded(addr, total).tx.vout[0], addr, total);
    }
    forall p, q ensures Joins(p, q, Joined(p, q)) {}
    assert rpc.buyerView.value.nameOutput == NAME_OUT && w.nameOf(NAME_OUT) == Some("seller");
  }

  /** The transaction the buyer builds, and discards because both inputs are signed. */
  lemma BothInputsAreSigned()
    ensures var (w, t, rpc) := (SharedWorld(), BuyersTrade(), SharedAnswers());
            var b := BuyerBuilds(w, "buyer", t, t.sellerData.value, {NAME_OUT}, rpc);
            b == NotBuilt({NAME_OUT} + {COIN} - {COIN, NAME_OUT}, Silent)
  {
    var (w, t, rpc) := (SharedWorld(), BuyersTrade(), SharedAnswers());
    var params := GetParams("buyer", t);
    assert GetTotalSat(params.price, params.units) == Fits(10);
    assert CheckForBuyerTrade(rpc.buyerView.value) == Some(NAME_OUT);
    var namePart := NamePart(NAME_OUT, "name addr", GetXayaName(params.seller), GetNameUpdateValue(w, params));
    var built := Joined(Funded("chi addr", 10), namePart);
    assert ConstructTransaction(w, params, t.sellerData.value, 10, NAME_OUT, {NAME_OUT}, rpc)
           == (Some(built), {NAME_OUT} + Inputs(Funded("chi addr", 10).tx));
    assert built.tx.vin == [COIN, NAME_OUT] && Inputs(built.tx) == {COIN, NAME_OUT};
    assert Inputs(Funded("chi addr", 10).tx) == {COIN};
    assert Unsigned(built) && !AllButOneChanged(built, SignedFully(built));
  }

  /** The seller has locked the name output. The buyer's search for a reply fails, and has freed it. */
  lemma DiscardFreesTheSellersLock()
    ensures var (w, t, rpc, locked) := (SharedWorld(), BuyersTrade(), SharedAnswers(), {NAME_OUT});
            && Consistent(w, "buyer", t) && LawfulAnswers(w, "buyer", t, locked, rpc)
            && !ThrowsAfterLock(w, "buyer", t, locked, rpc)
            && var r := HasReply(w, "buyer", t, locked, rpc);
            r.outcome == Silent && r.trade == t && Claims(w, "buyer", t) == {} && r.locked == {}
  {
    hide Lawful, LawfulView, BuyerBuilds, ThrowsAfterLock, Discarded;
    var (w, t, rpc, locked) := (SharedWorld(), BuyersTrade(), SharedAnswers(), {NAME_OUT});
    AnswersAreLawful();
    BothInputsAreSigned();
    ReplyLocksExactly(w, "buyer", t, locked, rpc);
    FreedIsDiscarded(w, t, rpc, locked);
  }

  lemma FreedIsDiscarded(w: World, t: TradeState, rpc: Rpc, locked: set<OutPoint>)
    requires (w, t, rpc, locked) == (SharedWorld(), BuyersTrade(), SharedAnswers(), {NAME_OUT})
    ensures UsableSellerData("buyer", t) && !ThrowsAfterLock(w, "buyer", t, locked, rpc)
  {
  }
}
