# Democrit: a verified model of its trading core

Democrit lets two players of a Xaya game trade game assets for CHI in one
atomic transaction. A maker announces orders, a taker takes one, and the two
negotiate over an unreliable chat: the seller shares two addresses, the buyer
builds a transaction that pays the seller and updates the seller's name with
the agreed move, both sign, and the maker broadcasts. This project models that
core in Dafny 4.11 and proves what it is for: nobody signs what they have not
checked, the taker's signature comes first, a failed trade frees what it has
locked, and no order is sold twice. `dafny verify dfyconfig.toml` checks all of it.

## How the model is built

- **Values.** `Amounts` (64-bit numbers, casts and the overflow test), `Orders`,
  `Chain` (block trees, unspent outputs), `Psbts` (a PSBT is a transaction plus,
  per input, whether it is signed and opaque data; the wallet's Signer, Combiner,
  joining and funding calls are contracts, as in the "Roles" section of BIP 174).
- **Code that works in place** is a class or a method with loops, tied to a
  specification function or predicate: `Authenticators.Authenticator`,
  `OrderBooks.OrderBook`, `OwnOrders.MyOrders`, `Checker.TradeChecker`,
  `Trades.Wallet`, `Trades.Trade`, `Managers.TradeManager`.
- **One trade** is a state machine over values in `TradeRules`; `TradeRuns` proves
  what holds against every counterparty, `Broadcasts` exactly when a transaction
  goes out, `Settlement` what a pending trade comes to, `Completion` that two honest parties with working wallets finish.
- **A whole node** is the state machine `Nodes`: orders, trades, archive, wallet
  locks, and a list of jobs for threads that are between two critical sections.
  Each critical section is one step and steps interleave freely. A crash (a
  failed CHECK) is a state. `NodeOrders`, `NodeUnits`, `NodeArchive`, `NodeTrades`,
  `NodeLocks`, `NodeTerms`, `NodeTimeouts`, `NodeIdentifiers`, `NodeCrashes` and
  `NodeSignatures` prove what holds of all runs, or exactly of which ones. `CrashRuns` has the runs that end in
  a failed CHECK, `OneWallet` an input for two processes on one wallet, and
  `SameTransaction` a run to the same transaction twice. The methods of `Managers.TradeManager` are proved to do
  exactly what those steps say.
- **Two nodes** in `Networks` exchange messages over a network that may drop,
  repeat and reorder, while anybody else may send anything. `NodeProgress` and
  `NetworkCompletion` prove that a trade between them completes amid all that.

RPC calls are parameters: one `Rpc` value holds all answers a search for a reply
may get, exceptions included, and `Lawful` is what wallet and chain promise about
them. Clocks, chain answers and the moves of the game are parameters, too.

## Hypotheses

- Wallet and chain keep the contracts in `TradeRules.Lawful` and `LawfulView`:
  among them, new addresses are the wallet's own, and funding pays just the
  total and adds no name operation. Signatures are not forged (`Psbts.Possible`).
- Order bounds satisfy `min_units <= max_units` where units are conserved, as
  src/daemon.cpp:206-235 demands of orders with a minimum.
- Orders are not added with the lock flag already set, which `Add` does not clear.
- A broadcast that throws has not happened.
- The game's answers are well-formed; in particular a trade is not confirmed above the
  current height, which src/trades.cpp:682 CHECKs.
- `NodeLocks.LocksAreOwned` speaks of runs without an exception between a lock and
  its record. That is the exact condition (`NodeLocks.ReplyLocksExactly`).
- `NetworkCompletion.HonestNodesComplete` takes it that each message is the one the
  other party's step has sent, and speaks of the events from the take to the broadcast only.
- `NodeSignatures.InitiatedMeansNotSigned` takes it that a transaction does not spend
  two outputs with the same name.

## Model

| member | source | states |
|---|---|---|
| Amounts.TotalIsExact | src/checker.cpp:95-107 | for all 64-bit prices and units, with wrap-around and truncating division, the total is reported exactly if units are positive and the true product fits, and then is that product |
| Amounts.RemainingNeverWraps | src/trades.cpp:756-777 | for which order bounds the unsigned subtraction never wraps for any accepted units: exactly unless the casts make the minimum negative and the maximum not |
| Authenticators.DecodeHex | src/authenticator.cpp:118-160 | the nibble loop accepts exactly the lower-case hex encodings, and inverts them |
| Authenticators.DecodeName | src/authenticator.cpp:91-160 | decoding succeeds exactly on encodings of accounts, and returns the account encoded |
| Authenticators.EncodeInjective | src/authenticator.cpp:91-160 | every account has one encoding and no two share one, so decoding is a bijection between accepted names and byte strings |
| Authenticators.NamesAre | src/authenticator.cpp:67-116 | the names spelt out: exactly those of digits and lower-case letters stand for themselves; every other account is "x-" and two lower-case hex digits for each byte |
| Authenticators.Authenticator.Authenticate | src/authenticator.cpp:172-184 | accepts exactly encoded names on trusted servers and remembers the JID, which keeps every stored JID of an account at the one username for it |
| Authenticators.Authenticator.LookupJid | src/authenticator.cpp:186-195 | returns what is stored for an account, whose username is its encoding and whose server is trusted |
| Orders.SortSorts | src/orderbook.cpp:137-159 | sorting gives the same orders with the cheapest first, ties by account and then by id; reversed, the dearest first |
| Orders.StringLessIsExact | src/orderbook.cpp:137-159 | accounts compare as strings do: a proper prefix first, else by the first character that differs |
| Orders.AscendingIsCheapestFirst | src/orderbook.cpp:137-159 | ascending means that prices never fall, and at one price that accounts, then ids, go up; descending the opposite |
| Orders.AscendingIsUnique | src/orderbook.cpp:137-159 | two ascending lists of the same orders are equal |
| Orders.DescendingIsUnique | src/orderbook.cpp:137-159 | two descending lists of the same orders are equal |
| OrderBooks.PopKeepsTrack | src/orderbook.cpp:43-58 | popping one old event, stale or not, keeps an event in the queue for every account left |
| OrderBooks.DrainedIsFresh | src/orderbook.cpp:38-60 | once the head of the queue is recent, the map is the old one restricted to recent accounts |
| OrderBooks.ListedIffStanding | src/orderbook.cpp:38-87 | over any history, an account is listed exactly if its last update was not empty and recent at every later tick, and then with that update |
| OrderBooks.OrderBook.RunTimeout | src/orderbook.cpp:38-60 | the lazy queue drops exactly the accounts older than the timeout, and stays in time order with an event for every account |
| OrderBooks.OrderBook.UpdateOrders | src/orderbook.cpp:62-87 | an update replaces or removes one account, and the queue still covers every account |
| OrderBooks.AddOrderForAsset | src/orderbook.cpp:101-135 | files one order under its asset and side, so that the table regroups one slot more |
| OrderBooks.SortByPrices | src/orderbook.cpp:137-159 | sorting keeps the regrouping and puts the cheapest asks and the dearest bids first |
| OrderBooks.OrderBook.InternalGetByAsset | src/orderbook.cpp:163-186 | the view has every stored order of a wanted asset exactly once, under its asset and side, with its owner, price and unit bounds; asks cheapest first, bids dearest first |
| OrderBooks.OrderBook.GetForAsset | src/orderbook.cpp:188-209 | the view of one asset is its entry in the full view, or an empty book |
| OrderBooks.ViewIsUnique | src/orderbook.cpp:163-186 | there is one view only, so the order in which maps are visited does not matter |
| OrderBooks.FilterSelects | src/orderbook.cpp:188-215 | the filtered view is the full view restricted to the asset |
| Chain.AncestorWalkIsExact | src/checker.cpp:117-145 | the walk succeeds exactly if the ancestor is reached in at most n parent steps |
| Chain.SellerCanStillSend | src/checker.cpp:164-188 | if the output was unspent at a block from which the game's block descends, then wherever it is unspent after the game's block the seller can still send |
| Chain.WithoutTheWalkTheClaimFails | src/checker.cpp:164-230 | without the ancestor check the claim is false: two forks that show it |
| Psbts.SignaturesAreSeen | src/trades.cpp:548-573 | however others combine and sign, every signature of ours on the result was on a PSBT of that transaction that we had shown |
| Checker.BuyerCheckIsExact | src/checker.cpp:149-230 | the check passes exactly if the asset is one, the buyer can receive it, the name output is unspent, the seller can send, and the game's block is that of the output or one of its first three descendants |
| Checker.BuyerIsSafe | src/checker.cpp:149-230 | a passed check means that at every later block where the name output is unspent it is the seller's and the seller can send the assets |
| Checker.TradeChecker.CheckForBuyerSignature | src/checker.cpp:232-279 | the counting loop accepts exactly if one and only one input is the same after signing |
| Checker.TradeChecker.CheckForSellerOutputs | src/checker.cpp:301-394 | the loop over outputs accepts exactly if there are the payment (unless the total is zero) and the name update; and when it rejects or ends the process |
| Checker.TradeChecker.CheckForSellerSignature | src/checker.cpp:396-466 | accepts exactly if the locked output is spent and no input but the first that spends it has changed |
| Checker.PaymentIsSeparate | src/checker.cpp:333-379 | payment and name update are two different outputs |
| Checker.BuyerSignatureIsPartial | src/checker.cpp:252-271 | after an accepted buyer's signature on an unsigned transaction the PSBT is not complete, so the CHECK on that holds |
| TradeRuns.HandleKeepsConsistent | src/trades.cpp:279-294 | no message, whatever it contains, breaks the consistency of a trade |
| TradeRuns.ReplyKeepsConsistent | src/trades.cpp:433-625 | no search for a reply, in any of the four roles, breaks it |
| TradeRuns.UpdateKeepsConsistent | src/trades.cpp:627-753 | no periodic update breaks it |
| TradeRuns.DiesExactlyOnTotals | src/trades.cpp:433-546 | the exact condition on price, units and data under which a CHECK fails in a search for a reply |
| TradeRuns.BuyerBuildsWell | src/trades.cpp:320-405 | what a buyer builds pays the seller as agreed, has the agreed move as its only name operation, spends the verified name input once and otherwise own free coins, which are locked by it |
| TradeRuns.SignedMeansMoved | src/trades.cpp:320-405 | what a buyer has signed has, as its only name operation, the game's move by the counterparty of the order's asset and units to them; pays just the price for each unit; spends own coins but for one name input; and one input only is not changed by their signature |
| TradeRuns.ReplyDecreases | src/trades.cpp:433-625 | every message sent and every broadcast decreases a measure that nothing increases, and filled-in data stays |
| TradeRuns.ReplyHasShape | src/trades.cpp:433-625 | what a message contains by role: the stored addresses without the name output, from a seller; a signed PSBT from a taker, just as the trade becomes pending; only an unsigned one from a maker |
| TradeRuns.AbandonedMeansNoSignatureShared | src/trades.cpp:548-573 | while a trade is initiated, and for ever once abandoned, nobody can derive a PSBT with a signature of ours from what was sent, so its transaction cannot be completed |
| TradeRuns.RepliesAreBounded | src/trades.cpp:433-625 | against any counterparty at most two replies, one with seller data and one with a PSBT, and signatures on one transaction |
| TradeRuns.DataIsWriteOnce | src/trades.cpp:222-294 | seller data and both PSBTs never change once set, and none of them once negotiation is over, over any run |
| TradeRuns.SignedMeansPaid | src/trades.cpp:467-513 | a seller's signature means that an output to an address of their own pays the price for each unit, one to another address of theirs has the game's move of the order's asset and units to the counterparty, and only their name output was signed |
| TradeRuns.SellerIsSafe | src/trades.cpp:467-513 | over any sequence of messages, that holds of every transaction the seller signs, sends or broadcasts, on the terms the trade was begun with |
| TradeRuns.BuyerIsServed | src/trades.cpp:320-405 | over any sequence of messages, every transaction the buyer signs, sends or broadcasts gives them what they take |
| Broadcasts.BroadcastIsSigned | src/trades.cpp:575-625 | every input of a transaction that is broadcast is signed, on our own PSBT or, if we buy, on either |
| Broadcasts.BroadcastsExactly | src/trades.cpp:575-625 | with working calls a maker who has both PSBTs broadcasts if and only if every input is signed |
| Broadcasts.PendingExactly | src/trades.cpp:548-625 | a trade becomes pending if and only if the maker broadcasts, or the taker sends their PSBT |
| Trades.Wallet.LockUnspent | src/trades.cpp:50-75 | a lock or unlock works exactly if the coin was not, or was, locked |
| Trades.Wallet.UnlockPsbtInputs | src/trades.cpp:77-95 | the loop unlocks the inputs of a transaction that are locked, and nothing else |
| Trades.Trade.BuildTradeChecker | src/trades.cpp:97-119 | buyer and seller by our order type, the terms by the order |
| Trades.Trade.HandleMessage | src/trades.cpp:279-294 | updates the stored data as the rules say |
| Trades.Trade.CreateSellerData | src/trades.cpp:296-318 | locks the name output and stores it with new addresses, or says why not |
| Trades.Trade.SignAsSeller | src/trades.cpp:467-513 | the seller's checks in order, with their verdicts |
| Trades.Trade.BuildAsBuyer | src/trades.cpp:515-546 | the buyer's check, construction, signature and discard, with the coins locked after it |
| Trades.Trade.FinishReply | src/trades.cpp:548-625 | shares as taker, combines and broadcasts as maker |
| Trades.Trade.HasReply | src/trades.cpp:433-625 | the whole search for a reply has exactly the effects of the rules on data, locks, message and broadcast |
| Trades.Trade.Update | src/trades.cpp:627-753 | times out, confirms or fails a trade as the rules say |
| Settlement.ConflictStartIsExact | src/trades.cpp:690-753 | the start of the current unbroken run of conflicts |
| Settlement.FirstEndIsExact | src/trades.cpp:650-753 | the first check that ends a trade |
| Settlement.SettlesExactly | src/trades.cpp:650-753 | for every sequence of checks, reorganisations included: pending, succeeded or failed exactly when, and the conflict height exactly that of the first check of the current run |
| Completion.ParamsAgree | src/trades.cpp:97-119 | both sides derive the same checker parameters and identifier, and opposite order types |
| Completion.HonestTradesComplete | src/trades.cpp:433-625 | for every order, price, units and role assignment, with working wallets and a steady chain, three messages lead to one broadcast with both sides pending on it |
| OwnOrders.MyOrders.RunRefresh | src/myorders.cpp:35-55 | drops exactly the invalid orders |
| OwnOrders.MyOrders.Add | src/myorders.cpp:57-86 | adds a valid order under the next identifier, fresh until the 64-bit counter has wrapped around |
| OwnOrders.MyOrders.RemoveById | src/myorders.cpp:88-98 | removes one order |
| OwnOrders.MyOrders.TryLock | src/myorders.cpp:100-131 | locks an order that is there and free, returns it as it was before, and cannot succeed twice |
| OwnOrders.MyOrders.Unlock | src/myorders.cpp:133-146 | makes a locked order available |
| OwnOrders.MyOrders.InternalGetOrders | src/myorders.cpp:148-161 | the orders, without locked ones if so asked |
| NodeOrders.StepKeepsExclusive | src/trades.cpp:1033-1093 | every step keeps each order held at most once, and locked exactly while held |
| NodeOrders.OrdersAreExclusive | src/trades.cpp:1033-1093 | so does every run, under every interleaving |
| NodeOrders.ActiveTradesDiffer | src/trades.cpp:998-1031 | no two active maker trades have one order |
| NodeOrders.ActiveOrderIsLocked | src/trades.cpp:998-1031 | the order of any active maker trade is locked if it is there, held by that trade alone, and gone exactly if it was cancelled or dropped |
| NodeOrders.LockedMeansHeldOnce | src/myorders.cpp:100-131 | if no locked order was lost, locked orders are exactly those of one take in progress, active trade or finished trade each |
| NodeOrders.UnlockFailsIfLost | src/myorders.cpp:133-146 | the CHECKs on unlocking fail exactly if the order was lost while held |
| NodeIdentifiers.TradeStartsExactly | src/trades.cpp:943-996 | taking an order adds a trade exactly if its fields and units pass, it is not one's own and, for a seller, the name output and, unless its lock fails, addresses are there |
| NodeIdentifiers.StepKeepsDistinctExactly | src/private/trades.hpp:113-119 | every step keeps the identifiers of active trades different, if and only if it is not such a take of an order that is being traded on already |
| NodeIdentifiers.OneTradePerOrderExactly | src/private/trades.hpp:113-119 | a run has at all times at most one active trade per order, if and only if the user never takes an order again while trading on it |
| NodeIdentifiers.OneMatch | src/trades.cpp:1064-1093 | then the first match for a message is the only one |
| NodeIdentifiers.TakenTwice | src/trades.cpp:943-996 | the promise fails on the taker's side: a run with two active trades for one order, all of whose messages go to the first |
| NodeCrashes.SafeOrderIsExact | src/trades.cpp:919-939 | a test of an order's price and bounds, by its side, that holds exactly if no amount somebody may take of it can fail a CHECK on the maker's side: a seller's total may not be negative, but may be too large; a buyer's has to fit |
| NodeCrashes.ReplyDiesExactly | src/trades.cpp:433-546 | a search for a reply ends the process exactly if it comes to the CHECKs, the seller at a PSBT and the buyer after their check of the seller, with a price and units that fail those of its side |
| NodeCrashes.StepCrashesExactly | src/trades.cpp:1033-1093 | a step of a node ends the process if and only if it is a message that leads to such a search, or unlocks an order that is not there and locked |
| NodeCrashes.CarefulRunsDoNotCrash | src/trades.cpp:1033-1093 | no CHECK fails in a run, whatever messages arrive, if all own orders pass that test, the user takes only what passes it on their own side, and no locked order is cancelled or dropped |
| CrashRuns.UnsafeOrdersCrash | src/checker.cpp:95-107 | any order that does not pass the test: whoever takes its worst units and sends addresses and any PSBT ends the maker's process |
| CrashRuns.SafeOrdersExactly | src/trades.cpp:919-939 | over whole runs: offering an order can never end the process, whatever happens, if and only if it passes the test |
| CrashRuns.UnsafeTakesCrash | src/trades.cpp:943-996 | any units taken that fail the CHECKs of the taker's side: the maker's messages end the taker's process |
| CrashRuns.SafeTakesExactly | src/trades.cpp:943-996 | over whole runs: taking units of an order can never end the process if and only if they pass on the taker's side |
| CrashRuns.ZeroUnitsEndTheProcess | src/checker.cpp:95-107 | so for an order without a minimum, of which anybody takes zero units |
| CrashRuns.CancelledWhileLocked | src/myorders.cpp:133-146 | a run in which an order is cancelled while locked, and refusing its taker ends the process |
| NodeUnits.RestIsExact | src/trades.cpp:756-777 | the reduced order offers what was not sold, exists exactly if that is enough, and has ordered bounds |
| NodeTerms.RestKeepsTerms | src/trades.cpp:756-777 | the reduced order has the asset, side, price and minimum of the sold one, field by field |
| NodeTerms.SaleReoffers | src/trades.cpp:756-777 | after a sale the order is gone, and what is left is offered under the next identifier on the same terms if and only if it is enough, and nothing else changes |
| NodeTerms.LineageKeepsTerms | src/trades.cpp:756-777 | in every run all orders of a lineage are posted with one asset, side, price and minimum |
| NodeTerms.TermsAreTheUsers | src/myorders.cpp:57-86 | in every run whatever is posted has the asset, side, price and minimum of an order the user has added |
| NodeTerms.TradesAreOnUsersTerms | src/trades.cpp:998-1031 | so has every order on offer and every order of a maker's trade |
| NodeUnits.AcceptedUnits | src/trades.cpp:919-928 | accepted units are at most the maximum, in spite of the signed casts |
| NodeUnits.RunsConserve | src/trades.cpp:756-777 | in every run a sold order is gone for good, is replaced at most once, and by an order for the rest |
| NodeUnits.LedgerGrows | src/trades.cpp:756-777 | what was posted, sold and replaced never changes |
| NodeUnits.LineageBalance | src/trades.cpp:756-777 | along a lineage, sold units and the current offer add up to the first offer |
| NodeUnits.UnitsAreConserved | src/trades.cpp:756-777 | sold units plus those of a trade under way never exceed the first offer |
| NodeUnits.SalesAreConserved | src/trades.cpp:756-777 | sold units alone never do |
| NodeArchive.TradesAreConserved | src/trades.cpp:818-871 | every trade added is active or archived, once; an archived one awaits its handler or was handled once, and the archive has its final state, counterparty, asset, units, price, start, side and role; active ones keep their order |
| NodeArchive.TradeIsSomewhere | src/trades.cpp:818-871 | a trade is active exactly if it is not archived |
| NodeArchive.RunsGrow | src/trades.cpp:818-871 | the archive and the record only grow |
| NodeTimeouts.AbandonsExactly | src/trades.cpp:636-648 | an update abandons a trade if and only if it is in negotiation and older than the timeout |
| NodeTimeouts.TickAbandons | src/trades.cpp:818-846 | after an update no trade on the list is final or late; every late one is archived as abandoned and awaits its handler; and no other newly is |
| NodeTimeouts.AbandonedTimedOut | src/trades.cpp:818-871 | in every run, whatever is archived as abandoned was in negotiation and too old at an update |
| NodeTimeouts.TakeStartsNow | src/trades.cpp:943-996 | the taker's trade begins with the order, units and counterparty of the take, at its time |
| NodeTimeouts.TakenStartsNow | src/trades.cpp:998-1031 | the maker's with the units and sender of the message |
| NodeTrades.RunsAreSound | src/trades.cpp:1033-1093 | all trades of a node stay consistent in all lawful runs, and the record backs what they hold: PSBTs were received, sellers were checked, what is pending was broadcast |
| NodeTrades.PendingWasBroadcast | src/trades.cpp:575-625 | in every such run a maker's trade beyond negotiation was broadcast with every input signed |
| NodeTrades.ReplyVets | src/trades.cpp:515-546 | a buyer who signs has just checked that the asset is one, that they can receive it and that the seller can send it, and spends the name input found then |
| NodeTrades.BroadcastIsTheirs | src/trades.cpp:575-625 | what a maker broadcasts is on the counterparty's PSBT, too |
| NodeLocks.ReplyLocksExactly | src/trades.cpp:296-318 | a reply locks exactly what its trade records, if and only if no call throws between the two; and it frees nothing else, if and only if no transaction is discarded whose name input was locked in this wallet |
| NodeLocks.NotBuiltLocks | src/trades.cpp:526-546 | what stays locked when a buyer gets no good transaction, discarded ones included, with both exact conditions, for whatever was locked before |
| NodeLocks.LocksAreOwned | src/trades.cpp:779-803 | in every such run, whatever was locked before, each claim of a trade is locked and that trade's alone; nothing else is locked but what was; and of that, coins without another's name stay locked |
| NodeLocks.ClaimsAreLocked | src/trades.cpp:779-803 | the claims of an active trade are locked, were not before, and are disjoint from those of every other active trade |
| NodeLocks.ReleaseSetIsClaims | src/trades.cpp:779-803 | what a failed trade unlocks is what it has claimed and, for a buyer, the one name input; freeing more than its claims means exactly that this input was locked |
| NodeLocks.ReleaseIsExact | src/trades.cpp:779-803 | handling a failed trade frees all its coins, which were locked, none that another trade claims, and something else exactly if the name input was locked |
| NodeLocks.OwnCoinsStayLocked | src/trades.cpp:779-803 | own coins that were locked before, by whomever, stay locked in every such run, and no trade claims them |
| OneWallet.DiscardFreesTheSellersLock | tests/trading_onewallet.py:19-31 | two processes on one wallet: the buyer's discard of a transaction that got both its inputs signed frees the name output the seller has locked |
| NodeSignatures.SignedMeansPending | src/trades.cpp:548-573 | whatever others combine and sign of all PSBTs a node has sent in all its trades, a signature of ours on a transaction means that a trade of ours was pending on it as the taker |
| NodeSignatures.RepliesAreAccountedFor | src/trades.cpp:818-871 | every trade that has ever sent something is active, awaits its handler or was handled, with its data as it was then |
| NodeSignatures.InitiatedMeansNotSigned | src/trades.cpp:548-573 | while a trade of a node is initiated, nobody can derive a PSBT of its transaction with a signature of ours, unless an earlier trade of ours, as the taker, on that very transaction has failed |
| SameTransaction.SignedBefore | src/trades.cpp:548-573 | that exception happens: a run of ten events in which a buyer's trade fails and a later one is on the same transaction, which the seller then has with the buyer's signature although it is only initiated |
| Managers.TradeManager.TakeOrder | src/trades.cpp:943-996 | starts a trade as the step for it says, and returns the message that is on record |
| Managers.TradeManager.OrderTaken | src/trades.cpp:998-1031 | adds a trade exactly if the order may be taken and not by ourselves |
| Managers.TradeManager.Deliver | src/trades.cpp:1064-1093 | the loop over trades serves the first that matches, as the step says |
| Managers.TradeManager.ProcessMessage | src/trades.cpp:1033-1093 | lock, add, serve: the orders afterwards, the one locked for the new trade or available again after a refusal; the trade added, with its order, units and counterparty, before the message is served as the step says; a failed CHECK exactly where that says; and what was sent |
| Managers.TradeManager.SplitTrades | src/trades.cpp:825-846 | the loop updates every trade and parts final ones from active ones, both in order |
| Managers.TradeManager.UpdateAndArchive | src/trades.cpp:818-846 | the locked part of the update, as the step says |
| Managers.TradeManager.HandleFailure | src/trades.cpp:779-803 | orders and locked coins afterwards: order and coins are free again; or the CHECK fails, exactly if the order is not there and locked |
| Managers.TradeManager.HandleSuccess | src/trades.cpp:756-777 | orders and identifiers afterwards: the sold order is gone, the rest of it, if any and valid, is there |
| Managers.TradeManager.HandleFinalised | src/trades.cpp:848-867 | the loop handles each final trade by its state, in order; what orders and locked coins are after all of them, and that it ends early exactly if a CHECK fails |
| Managers.TradeManager.UpdateAndArchiveTrades | src/trades.cpp:818-871 | trades, archive, orders and locked coins after archiving what is final and handling each of it; no trade is left waiting |
| Managers.RefusalIsUndone | src/trades.cpp:1039-1057 | a refused take leaves the orders as a refresh would |
| Managers.HandlingSettlesTheOrder | src/trades.cpp:756-803 | after handling, a failed trade's order is not locked and a sold one is gone, and other orders are as before |
| Managers.AfterAllFrees | src/trades.cpp:848-867 | handling a list of trades frees exactly the coins that its failed ones unlock |
| Managers.TradeManager.TradesAreKept | src/trades.cpp:818-871 | whatever its methods have done, no trade is lost, doubled or handled twice |
| Networks.IdentifiersAreNotReused | src/myorders.cpp:57-86 | in every run identifiers are given out once, and an order keeps its terms |
| Networks.TakersMessage | src/trades.cpp:943-996 | a taker's first message names the order and the units of the trade it has started |
| Networks.TakenOnTheSameTerms | src/trades.cpp:1033-1062 | if the maker still has the order, both end up with a trade on the same terms and units, from opposite sides |
| Networks.OneNameInput | src/trades.cpp:467-513 | the name input a buyer verified is the output the seller has locked |
| Networks.OneMove | src/trades.cpp:320-405 | the move the seller has checked is the one the buyer has put into the transaction |
| Networks.NetStepKeeps | src/trades.cpp:433-625 | what both nodes keep: sound trades, and messages and orders that come from where they say |
| Networks.BroadcastIsAgreed | src/trades.cpp:433-625 | a broadcast to an honest taker has every input signed and means a trade of theirs was pending on that transaction, with every check of both sides passed, one name input, one move, and the same units if moves tell units apart |
| Networks.HonestNodesAgree | src/trades.cpp:433-625 | the same in every run of two honest nodes, in either direction |
| NodeProgress.SparedStays | src/trades.cpp:1064-1093 | a trade that is the first with its identifier stays so, unchanged, in every step that fails no CHECK, brings no message for it and does not time it out |
| NodeProgress.TurnTaken | src/trades.cpp:1064-1093 | a message for it is handled and answered by it, and what the step sends and broadcasts is just that |
| NetworkCompletion.Stays | src/trades.cpp:1064-1093 | so over any stretch of a run of two nodes |
| NetworkCompletion.HonestNodesComplete | src/trades.cpp:1033-1093 | in every run of two honest nodes in which an order is taken, locked and added and three messages arrive, amid whatever else that spares the two trades, with working wallets and a steady chain: both become pending on one transaction and the maker broadcasts it |

## Notes on the code

- Totals: a buyer's total beyond 64 bits, a seller's negative total and units that
  are not positive end the process instead of being rejected (src/trades.cpp:335,
  src/checker.cpp:99, src/checker.cpp:326); a seller's total beyond 64 bits is rejected.
  `CrashRuns.SafeOrdersExactly` and `CrashRuns.SafeTakesExactly` say exactly for which
  orders that can happen, `CrashRuns.ZeroUnitsEndTheProcess` is a run.
- One trade per order: src/private/trades.hpp:113-119 promises it of maker and
  taker. The maker keeps it. The taker may take an order again
  (`NodeIdentifiers.TakenTwice`), and it holds exactly of users who do not
  (`NodeIdentifiers.OneTradePerOrderExactly`). Two honest nodes agree in spite of this.
- Unlocking an order fails its CHECK exactly if the order was cancelled or dropped
  while locked (`NodeOrders.UnlockFailsIfLost`, with a run in
  `CrashRuns.CancelledWhileLocked`).
- Unlocking coins: when a buyer discards a transaction, or its trade fails, the
  seller's name input is unlocked, too (src/trades.cpp:77-95). Nothing comes of it
  unless it was locked in the same wallet, which is the exact condition
  (`NodeLocks.ReplyLocksExactly`, `NodeLocks.ReleaseSetIsClaims`), and which two
  processes on one wallet meet (`OneWallet.DiscardFreesTheSellersLock`).
- A failed trade's signature stays with the counterparty. If the name input comes back
  in a reorganisation and the wallet funds with the same coin again, a later trade may
  be on the very same transaction (`SameTransaction.SignedBefore`).
- `HandleSuccess` may find its rest invalid: adding it is refused, and the lineage ends.

## Left out

- XMPP and chat transport, stanzas and the daemon's wiring: network plumbing.
- JSON-RPC clients, generated stubs and process mains: their answers are parameters.
- JSON parsing and writing: the move is an uninterpreted function of seller, buyer, asset and units.
- The game state processor: only its answer about a trade is used.
- The binary PSBT format, keys, fees and change: signatures are a flag per input; an
  undecodable PSBT is `Malformed` and makes calls on it throw.
- Interval timers, mutexes and the unlocked reads of the order book's getters: a
  critical section is one step, time is an integer.
- Exceptions in the middle of the archive loop: an update of all trades is one step.
- `ParseCommaSeparated` and the lists of trusted servers as flags: the set of servers is given.
- Managers.TradeManager.HandleSuccess: requires that identifiers below 2^64 are left, as nodes stop giving them out there.
- Managers.TradeManager.HandleFinalised: requires as many of them as it handles trades.
- Managers.TradeManager.UpdateAndArchiveTrades: requires as many of them as there are trades.
- Managers.TradeManager.Unlock: the announcement to others after a refresh is not modelled.
- Amounts.GetTotalSat: the division for the test is modelled with truncation, which C++ fixes; signed overflow itself is modelled as wrap-around.
- Which orders are valid is a parameter of `OwnOrders.MyOrders`; balances and assets are not modelled.
- Non-fungible assets, logging and flags.
