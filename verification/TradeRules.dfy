/**
 * One trade as a state machine over values: what handling a message, looking
 * for a reply and a periodic update do to the stored data of a trade.
 */
module TradeRules {
  import opened Amounts
  import opened Chain
  import opened Checker
  import opened Orders
  import opened Psbts
  import opened Wrappers

  datatype State = Initiated | Pending | Success | Failed | Abandoned

  datatype Role = Maker | Taker

  /** The maker's account and order id, which identify a trade among the active ones. */
  datatype Identifier = Identifier(account: string, id: UInt64)

  datatype TakingOrder = TakingOrder(id: UInt64, units: UInt64)

  datatype Message = Message(
    counterparty: string,
    identifier: Identifier,
    takingOrder: Option<TakingOrder>,
    sellerData: Option<SellerData>,
    psbt: Option<PsbtText>)

  /** The stored data of a trade. */
  datatype TradeState = TradeState(
    order: Order,
    units: UInt64,
    counterparty: string,
    startTime: int,
    state: State,
    sellerData: Option<SellerData>,
    ourPsbt: Option<Psbt>,
    theirPsbt: Option<PsbtText>,
    conflictHeight: Option<nat>)

  function NewTrade(o: Order, units: UInt64, counterparty: string, now: int): TradeState {
    TradeState(o, units, counterparty, now, Initiated, None, None, None, None)
  }

  function GetRole(me: string, t: TradeState): Role {
    if t.order.account.GetOr("") == me then Maker else Taker
  }

  /** The order type from our own point of view: Ask if we sell. */
  function GetOrderType(me: string, t: TradeState): OrderType {
    if GetRole(me, t) == Maker then t.order.Type()
    else if t.order.Type() == Bid then Ask else Bid
  }

  function GetIdentifier(t: TradeState): Identifier {
    Identifier(t.order.account.GetOr(""), t.order.id.GetOr(0))
  }

  /** The parameters of a trade's checker. */
  function GetParams(me: string, t: TradeState): Params {
    var (buyer, seller) := if GetOrderType(me, t) == Bid then (me, t.counterparty) else (t.counterparty, me);
    Params(buyer, seller, t.order.asset.GetOr(""), ToInt64(t.order.priceSat.GetOr(0)), ToInt64(t.units))
  }

  predicate IsFinalised(t: TradeState) {
    t.state in {Abandoned, Success, Failed}
  }

  predicate Matches(t: TradeState, msg: Message) {
    msg.counterparty == t.counterparty && msg.identifier == GetIdentifier(t)
  }

  function BasicMessage(t: TradeState): Message {
    Message(t.counterparty, GetIdentifier(t), None, None, None)
  }

  // ---------------------------------------------------------------------------
  // Incoming data.

  /** Seller data is taken once, by a buyer, with two distinct addresses and no outpoint. */
  function MergeSellerData(me: string, t: TradeState, sd: SellerData): TradeState {
    if GetOrderType(me, t) == Ask || t.sellerData.Some? then t
    else if sd.nameAddress.None? || sd.chiAddress.None? || sd.nameOutput.Some? then t
    else if sd.nameAddress == sd.chiAddress then t
    else t.(sellerData := Some(sd))
  }

  function MergePsbt(t: TradeState, psbt: PsbtText): TradeState {
    if t.theirPsbt.Some? then t else t.(theirPsbt := Some(psbt))
  }

  function HandleMessage(me: string, t: TradeState, msg: Message): TradeState {
    if t.state != Initiated then t
    else
      var t1 := if msg.sellerData.Some? then MergeSellerData(me, t, msg.sellerData.value) else t;
      if msg.psbt.Some? then MergePsbt(t1, msg.psbt.value) else t1
  }

  // ---------------------------------------------------------------------------
  // Replies.

  /** The answers of wallet and chain during one search for a reply. `None` and `false` stand for exceptions. */
  datatype Rpc = Rpc(
    nameShow: Option<OutPoint>,
    lockRefused: bool,
    newAddresses: Option<(string, string)>,
    buyerView: Option<BuyerView>,
    fund: (string, int) -> Option<Psbt>,
    buildNamePart: bool,
    join: (Psbt, Psbt) -> Option<Psbt>,
    sign: Psbt -> Option<Psbt>,
    combine: (Psbt, Psbt) -> Option<Psbt>,
    finalise: bool,
    broadcast: bool)

  /** What wallet and chain promise about their answers to an account with some coins locked. */
  ghost predicate Lawful(w: World, me: string, locked: set<OutPoint>, rpc: Rpc) {
    && (rpc.nameShow.Some? ==> w.ownerOf(rpc.nameShow.value) == me && w.nameOf(rpc.nameShow.value) == Some(me))
    && (rpc.newAddresses.Some? ==>
          && rpc.newAddresses.value.0 != rpc.newAddresses.value.1
          && w.addressOwner(rpc.newAddresses.value.0) == w.addressOwner(rpc.newAddresses.value.1) == me)
    && (forall addr, total :: rpc.fund(addr, total).Some? ==>
          Funds(w, me, locked, addr, total, rpc.fund(addr, total).value))
    && (forall p, q :: rpc.join(p, q).Some? ==> Joins(p, q, rpc.join(p, q).value))
    && (forall p :: rpc.sign(p).Some? ==> Signs(w, me, p, rpc.sign(p).value))
    && (forall p, q :: rpc.combine(p, q).Some? ==> Combines(p, q, rpc.combine(p, q).value))
  }

  /** The name output a buyer is shown is one of the seller's name. */
  ghost predicate LawfulView(w: World, seller: string, rpc: Rpc) {
    rpc.buyerView.Some? ==> w.nameOf(rpc.buyerView.value.nameOutput) == Some(seller)
  }

  /** A message to send, nothing to send, an exception, or a failed CHECK that ends the process. */
  datatype Outcome = Sent(msg: Message) | Silent | Threw | Died

  /**
   * The effect of looking for a reply: the trade, the wallet's locks, what is
   * sent, what is broadcast, and the name input a buyer has just verified.
   */
  datatype Result = Result(
    trade: TradeState,
    locked: set<OutPoint>,
    outcome: Outcome,
    broadcast: Option<Tx>,
    verified: Option<OutPoint>)

  function Ends(t: TradeState, locked: set<OutPoint>, outcome: Outcome): Result {
    Result(t, locked, outcome, None, None)
  }

  /** The seller locks the name output, gets two addresses, stores all and shares the addresses. */
  function ReplySellerData(t: TradeState, locked: set<OutPoint>, rpc: Rpc): Result {
    if rpc.nameShow.None? then Ends(t, locked, Threw)
    else
      var out := rpc.nameShow.value;
      if rpc.lockRefused || out in locked then Ends(t, locked, Silent)
      else if rpc.newAddresses.None? then Ends(t, locked + {out}, Threw)
      else
        var sd := SellerData(Some(rpc.newAddresses.value.0), Some(rpc.newAddresses.value.1), Some(out));
        Ends(t.(sellerData := Some(sd)), locked + {out},
             Sent(BasicMessage(t).(sellerData := Some(sd.(nameOutput := None)))))
  }

  datatype Signing = Ok(signed: Psbt) | Stop(outcome: Outcome)

  /** The seller checks and signs the counterparty's PSBT. */
  ghost function SellerSigns(w: World, me: string, t: TradeState, sd: SellerData, theirs: PsbtText, rpc: Rpc): Signing
    requires sd.chiAddress.Some? && sd.nameAddress.Some? && sd.nameOutput.Some?
  {
    if theirs.Malformed? then Stop(Threw)
    else
      match OutputsVerdict(w, GetParams(me, t), sd, theirs.psbt.tx)
      case Died => Stop(Outcome.Died)
      case Rejected => Stop(Silent)
      case Passed =>
        var signed := rpc.sign(theirs.psbt);
        if signed.None? then Stop(Threw)
        else if signed.value.tx != theirs.psbt.tx then Stop(Outcome.Died)
        else if !OnlyInputChanged(theirs.psbt, signed.value, sd.nameOutput.value) then Stop(Silent)
        else if (GetRole(me, t) == Maker) != IsComplete(signed.value) then Stop(Silent)
        else Ok(signed.value)
  }

  datatype Building = Built(unsigned: Psbt, signed: Psbt, nameIn: OutPoint, locked: set<OutPoint>)
                    | NotBuilt(locked: set<OutPoint>, outcome: Outcome)

  /** The unsigned transaction of a buyer, and the coins that funding it has locked. */
  function ConstructTransaction(w: World, p: Params, sd: SellerData, total: int, nameIn: OutPoint,
                                locked: set<OutPoint>, rpc: Rpc): (Option<Psbt>, set<OutPoint>)
    requires sd.chiAddress.Some? && sd.nameAddress.Some?
  {
    var chiPart := rpc.fund(sd.chiAddress.value, total);
    if chiPart.None? then (None, locked)
    else
      var locked1 := locked + Inputs(chiPart.value.tx);
      if !rpc.buildNamePart then (None, locked1)
      else
        var namePart := NamePart(nameIn, sd.nameAddress.value, GetXayaName(p.seller), GetNameUpdateValue(w, p));
        (rpc.join(chiPart.value, namePart), locked1)
  }

  /** The buyer checks the seller, builds the transaction and signs it. */
  ghost function BuyerBuilds(w: World, me: string, t: TradeState, sd: SellerData, locked: set<OutPoint>,
                             rpc: Rpc): Building
    requires sd.chiAddress.Some? && sd.nameAddress.Some?
  {
    if rpc.buyerView.None? then NotBuilt(locked, Threw)
    else
      var nameIn := CheckForBuyerTrade(rpc.buyerView.value);
      if nameIn.None? then NotBuilt(locked, Silent)
      else
        var params := GetParams(me, t);
        var total := GetTotalSat(params.price, params.units);
        if !total.Fits? then NotBuilt(locked, Outcome.Died)
        else
          var (unsigned, locked1) := ConstructTransaction(w, params, sd, total.sat, nameIn.value, locked, rpc);
          if unsigned.None? then NotBuilt(locked1, Threw)
          else
            var signed := rpc.sign(unsigned.value);
            if signed.None? then NotBuilt(locked1, Threw)
            else if signed.value.tx != unsigned.value.tx then NotBuilt(locked1, Outcome.Died)
            else if !AllButOneChanged(unsigned.value, signed.value)
            then NotBuilt(locked1 - Inputs(signed.value.tx), Silent)
            else if IsComplete(signed.value) then NotBuilt(locked1, Outcome.Died)
            else Built(unsigned.value, signed.value, nameIn.value, locked1)
  }

  /** With our own PSBT at hand, the taker shares it; the maker broadcasts once theirs is there too. */
  function Finish(me: string, t: TradeState, locked: set<OutPoint>, rpc: Rpc, verified: Option<OutPoint>): Result
    requires t.ourPsbt.Some?
  {
    if GetRole(me, t) == Taker then
      Result(t.(state := Pending), locked, Sent(BasicMessage(t).(psbt := Some(Encoded(t.ourPsbt.value)))), None,
          verified)
    else if t.theirPsbt.None? then Result(t, locked, Silent, None, verified)
    else
      var final :=
        if GetOrderType(me, t) == Ask then t.ourPsbt
        else if t.theirPsbt.value.Malformed? then None
        else rpc.combine(t.theirPsbt.value.psbt, t.ourPsbt.value);
      if final.None? || !rpc.finalise then Result(t, locked, Threw, None, verified)
      else if !IsComplete(final.value) then Result(t, locked, Silent, None, verified)
      else if !rpc.broadcast then Result(t, locked, Threw, None, verified)
      else Result(t.(state := Pending), locked, Silent, Some(final.value.tx), verified)
  }

  /** The seller's stored data is their own, the buyer's is what they accepted. */
  predicate UsableSellerData(me: string, t: TradeState) {
    t.sellerData.Some? ==>
      && t.sellerData.value.chiAddress.Some? && t.sellerData.value.nameAddress.Some?
      && (GetOrderType(me, t) == Ask <==> t.sellerData.value.nameOutput.Some?)
  }

  /** Looks for a reply, with everything this does on the way. */
  ghost function HasReply(w: World, me: string, t: TradeState, locked: set<OutPoint>, rpc: Rpc): Result
    requires UsableSellerData(me, t)
  {
    if t.state != Initiated then Ends(t, locked, Silent)
    else if t.sellerData.None? then
      if GetOrderType(me, t) == Ask then ReplySellerData(t, locked, rpc) else Ends(t, locked, Silent)
    else if GetOrderType(me, t) == Ask then
      if t.theirPsbt.None? then Ends(t, locked, Silent)
      else if t.ourPsbt.Some? then Finish(me, t, locked, rpc, None)
      else
        match SellerSigns(w, me, t, t.sellerData.value, t.theirPsbt.value, rpc)
        case Stop(outcome) => Ends(t, locked, outcome)
        case Ok(signed) => Finish(me, t.(ourPsbt := Some(signed)), locked, rpc, None)
    else if t.ourPsbt.Some? then Finish(me, t, locked, rpc, None)
    else
      match BuyerBuilds(w, me, t, t.sellerData.value, locked, rpc)
      case NotBuilt(locked1, outcome) => Ends(t, locked1, outcome)
      case Built(unsigned, signed, nameIn, locked1) =>
        var t1 := t.(ourPsbt := Some(signed));
        if GetRole(me, t) == Maker then
          Result(t1, locked1, Sent(BasicMessage(t).(psbt := Some(Encoded(unsigned)))), None, Some(nameIn))
        else Finish(me, t1, locked1, rpc, Some(nameIn))
  }

  // ---------------------------------------------------------------------------
  // Periodic updates.

  datatype GspState = Unknown | InMempool | Confirmed(height: nat)

  /** What the game says of a trade's transaction, and which outpoints are unspent. */
  datatype ChainCheck = ChainCheck(height: nat, trade: GspState, unspent: set<OutPoint>)

  predicate InputMissing(c: ChainCheck, tx: Tx) {
    exists o :: o in tx.vin && o !in c.unspent
  }

  /** Both configurable limits: the timeout in milliseconds, the confirmations as a 32-bit number. */
  datatype Limits = Limits(timeoutMs: int, confirmations: int)

  function UpdatePending(t: TradeState, c: ChainCheck, limits: Limits): TradeState
    requires t.ourPsbt.Some?
  {
    if c.trade.Confirmed? && c.trade.height + limits.confirmations <= c.height + 1 then t.(state := Success)
    else if c.trade != Unknown || !InputMissing(c, t.ourPsbt.value.tx) then t.(conflictHeight := None)
    else if t.conflictHeight.None? then t.(conflictHeight := Some(c.height))
    else if t.conflictHeight.value + limits.confirmations <= c.height + 1 then t.(state := Failed)
    else t
  }

  function Update(t: TradeState, now: int, c: ChainCheck, limits: Limits): TradeState
    requires t.state == Pending ==> t.ourPsbt.Some?
  {
    if t.state == Initiated then
      if (now - t.startTime) * 1000 > limits.timeoutMs then t.(state := Abandoned) else t
    else if t.state == Pending then UpdatePending(t, c, limits)
    else t
  }
}
