/**
 * Transactions and partially signed transactions, what the wallet calls on
 * them promise (the Signer and Combiner roles of BIP 174), and what somebody
 * can make of the PSBTs they have seen.
 */
module Psbts {
  import opened Chain
  import opened Wrappers

  datatype NameOp = NameOp(op: string, name: string, value: string)

  datatype ScriptPubKey = ScriptPubKey(addresses: Option<seq<string>>, address: Option<string>, nameOp: Option<NameOp>)

  datatype Output = Output(script: ScriptPubKey, value: int)

  /** The unsigned transaction, which its btxid stands for. */
  datatype Tx = Tx(vin: seq<OutPoint>, vout: seq<Output>)

  /** The data on one input: whether it is validly signed, and anything else. */
  datatype Input = Input(signed: bool, data: string)

  datatype Decoded = Decoded(tx: Tx, inputs: seq<Input>)

  type Psbt = p: Decoded | |p.inputs| == |p.tx.vin| witness Decoded(Tx([], []), [])

  /** A PSBT string as it comes from somebody else: decoding it can throw. */
  datatype PsbtText = Malformed(text: string) | Encoded(psbt: Psbt)

  /** What lies outside the program: moves of the game, whose keys coins and addresses have, names in outputs. */
  datatype World = World(
    updateValue: (string, string, string, int) -> string,
    ownerOf: OutPoint -> string,
    addressOwner: string -> string,
    nameOf: OutPoint -> Option<string>)

  function Inputs(tx: Tx): set<OutPoint> {
    set o | o in tx.vin
  }

  predicate Unsigned(p: Psbt) {
    forall i :: 0 <= i < |p.inputs| ==> !p.inputs[i].signed
  }

  predicate IsComplete(p: Psbt) {
    forall i :: 0 <= i < |p.inputs| ==> p.inputs[i].signed
  }

  /** Signer: the transaction stays, and only inputs of the wallet's own become signed. */
  ghost predicate Signs(w: World, me: string, before: Psbt, after: Psbt) {
    && after.tx == before.tx
    && forall i :: 0 <= i < |before.inputs| ==>
         && (before.inputs[i].signed ==> after.inputs[i].signed)
         && (after.inputs[i].signed ==> before.inputs[i].signed || w.ownerOf(before.tx.vin[i]) == me)
  }

  /** Combiner: only PSBTs of one transaction combine, to the union of their signatures. */
  ghost predicate Combines(p: Psbt, q: Psbt, r: Psbt) {
    && p.tx == q.tx == r.tx
    && forall i :: 0 <= i < |r.inputs| ==> (r.inputs[i].signed <==> p.inputs[i].signed || q.inputs[i].signed)
  }

  /** Joining adds up inputs and outputs, in any order. */
  ghost predicate Joins(p: Psbt, q: Psbt, r: Psbt) {
    && multiset(r.tx.vin) == multiset(p.tx.vin) + multiset(q.tx.vin)
    && multiset(r.tx.vout) == multiset(p.tx.vout) + multiset(q.tx.vout)
    && (Unsigned(p) && Unsigned(q) ==> Unsigned(r))
  }

  predicate MatchesAddress(script: ScriptPubKey, addr: string) {
    || (script.addresses.Some? && |script.addresses.value| == 1 && script.addresses.value[0] == addr)
    || script.address == Some(addr)
  }

  /** An output that pays at least a total to an address and is no name operation. */
  predicate IsPayment(o: Output, addr: string, total: int) {
    o.script.nameOp.None? && MatchesAddress(o.script, addr) && o.value >= total
  }

  /** An output that updates a name to a value and sends it to an address. */
  predicate IsNameUpdate(o: Output, addr: string, name: string, value: string) {
    o.script.nameOp == Some(NameOp("name_update", name, value)) && MatchesAddress(o.script, addr)
  }

  /** All name operations of a transaction are one and the same. */
  predicate OnlyUpdates(tx: Tx, op: NameOp) {
    forall o :: o in tx.vout && o.script.nameOp.Some? ==> o.script.nameOp.value == op
  }

  /**
   * Funding: own, unlocked coins without names, at least one for the fee, an output
   * with just the total, no name operation.
   */
  ghost predicate Funds(w: World, me: string, locked: set<OutPoint>, addr: string, total: int, p: Psbt) {
    && Unsigned(p) && p.tx.vin != []
    && (forall o :: o in p.tx.vin ==> w.ownerOf(o) == me && w.nameOf(o).None? && o !in locked)
    && (forall i, j :: 0 <= i < j < |p.tx.vin| ==> p.tx.vin[i] != p.tx.vin[j])
    && (exists i :: 0 <= i < |p.tx.vout| && IsPayment(p.tx.vout[i], addr, total) && p.tx.vout[i].value == total)
    && (forall o :: o in p.tx.vout ==> o.script.nameOp.None?)
  }

  const NAME_VALUE := 1_000_000

  /** The PSBT with just the name input and the name operation. */
  function NamePart(nameIn: OutPoint, addr: string, name: string, value: string): (p: Psbt) {
    var script := ScriptPubKey(Some([addr]), None, Some(NameOp("name_update", name, value)));
    Decoded(Tx([nameIn], [Output(script, NAME_VALUE)]), [Input(false, "")])
  }

  // ---------------------------------------------------------------------------

  /** How somebody other than `me` can come by a PSBT. */
  datatype Derivation =
    | Seen(result: Psbt)
    | Made(result: Psbt)
    | Combined(left: Derivation, right: Derivation, result: Psbt)
    | Signed(of: Derivation, result: Psbt)

  ghost predicate NoneSignedBy(w: World, me: string, p: Psbt) {
    forall i :: 0 <= i < |p.inputs| && p.inputs[i].signed ==> w.ownerOf(p.tx.vin[i]) != me
  }

  /** Signatures are not forged: what is not seen, combined or signed with other keys is not signed by us. */
  ghost predicate Possible(w: World, me: string, seen: set<Psbt>, d: Derivation) {
    match d
    case Seen(p) => p in seen
    case Made(p) => NoneSignedBy(w, me, p)
    case Combined(l, r, p) =>
      Possible(w, me, seen, l) && Possible(w, me, seen, r) && Combines(l.result, r.result, p)
    case Signed(of, p) =>
      Possible(w, me, seen, of) && p.tx == of.result.tx
      && forall i :: 0 <= i < |p.inputs| && p.inputs[i].signed ==>
           of.result.inputs[i].signed || w.ownerOf(p.tx.vin[i]) != me
  }

  /** Every signature of ours on a derived PSBT was on a PSBT that was seen, of the same transaction. */
  lemma {:induction false} SignaturesAreSeen(w: World, me: string, seen: set<Psbt>, d: Derivation, i: nat)
    requires Possible(w, me, seen, d) && i < |d.result.inputs|
    requires d.result.inputs[i].signed && w.ownerOf(d.result.tx.vin[i]) == me
    ensures exists p :: p in seen && p.tx == d.result.tx && p.inputs[i].signed
  {
    match d
    case Seen(p) =>
    case Made(p) =>
    case Combined(l, r, p) =>
      if l.result.inputs[i].signed {
        SignaturesAreSeen(w, me, seen, l, i);
      } else {
        SignaturesAreSeen(w, me, seen, r, i);
      }
    case Signed(of, p) =>
      SignaturesAreSeen(w, me, seen, of, i);
  }

  lemma JoinedOutputs(p: Psbt, q: Psbt, r: Psbt)
    requires Joins(p, q, r)
    ensures forall o :: o in r.tx.vout ==> o in p.tx.vout || o in q.tx.vout
  {
    forall o | o in r.tx.vout ensures o in p.tx.vout || o in q.tx.vout {
      assert o in multiset(r.tx.vout);
    }
  }

  lemma JoinKeepsOutputs(p: Psbt, q: Psbt, r: Psbt, o: Output)
    requires Joins(p, q, r) && (o in p.tx.vout || o in q.tx.vout)
    ensures o in r.tx.vout
  {
    assert o in multiset(p.tx.vout) + multiset(q.tx.vout);
  }

  lemma JoinKeepsInputs(p: Psbt, q: Psbt, r: Psbt)
    requires Joins(p, q, r)
    ensures forall o :: o in r.tx.vin <==> o in p.tx.vin || o in q.tx.vin
  {
    forall o ensures o in r.tx.vin <==> o in p.tx.vin || o in q.tx.vin {
      assert o in r.tx.vin <==> o in multiset(r.tx.vin);
    }
  }

  /** What occurs once in a list occurs at one index. */
  lemma OccursOnce<T>(s: seq<T>, x: T)
    requires multiset(s)[x] == 1
    ensures exists i :: 0 <= i < |s| && s[i] == x && forall j :: 0 <= j < |s| && s[j] == x ==> j == i
  {
    assert x in multiset(s);
    var i :| 0 <= i < |s| && s[i] == x;
    forall j | 0 <= j < |s| && s[j] == x
      ensures j == i
    {
      if j != i {
        OccursTwice(s, x, if i < j then i else j, if i < j then j else i);
      }
    }
  }

  lemma OccursTwice<T>(s: seq<T>, x: T, a: nat, b: nat)
    requires a < b < |s| && s[a] == s[b] == x
    ensures multiset(s)[x] >= 2
  {
    assert s == s[..a] + [x] + s[a + 1..b] + [x] + s[b + 1..];
  }
}
