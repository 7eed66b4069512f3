/**
 * Blocks, the outpoints and names they hold, and the argument that a buyer's
 * check of the seller stays true for as long as the seller's name is not moved.
 */
module Chain {
  import opened Wrappers

  /** A transaction outpoint. */
  datatype OutPoint = OutPoint(hash: string, n: nat)

  /**
   * A block with all its ancestors, so a block is what its hash commits to:
   * the outpoints it spends and the ones it creates, each with the name it holds, if any.
   */
  datatype Block =
    | Genesis(created: map<OutPoint, Option<string>>)
    | Next(parent: Block, spent: set<OutPoint>, created: map<OutPoint, Option<string>>)

  /** The unspent outpoints after a block, with the names they hold. */
  function Utxos(b: Block): map<OutPoint, Option<string>> {
    match b
    case Genesis(created) => created
    case Next(parent, spent, created) => (Utxos(parent) - spent) + created
  }

  /** Every outpoint created up to a block. */
  function History(b: Block): set<OutPoint> {
    match b
    case Genesis(created) => created.Keys
    case Next(parent, _, created) => History(parent) + created.Keys
  }

  /** A block updates a name when it creates an output with that name. */
  predicate UpdatesName(b: Block, name: string) {
    b.Next? && exists o :: o in b.created && b.created[o] == Some(name)
  }

  /** Consensus: a name has one unspent output. */
  ghost predicate NamesAreUnique(utxos: map<OutPoint, Option<string>>) {
    forall o, p :: o in utxos && p in utxos && utxos[o].Some? && utxos[o] == utxos[p] ==> o == p
  }

  /** Consensus: only new outpoints are created, only unspent ones are spent, names are unique. */
  ghost predicate ValidChain(b: Block) {
    match b
    case Genesis(created) => NamesAreUnique(created)
    case Next(parent, spent, created) =>
      ValidChain(parent) && spent <= Utxos(parent).Keys && History(parent) !! created.Keys && NamesAreUnique(Utxos(b))
  }

  /** The number of parent steps from a block down to an ancestor, if it is one. */
  function Depth(ancestor: Block, b: Block): Option<nat> {
    if ancestor == b then Some(0)
    else match b
      case Genesis(_) => None
      case Next(parent, _, _) =>
        match Depth(ancestor, parent)
        case None => None
        case Some(d) => Some(d + 1)
  }

  predicate IsAncestor(ancestor: Block, b: Block) {
    Depth(ancestor, b).Some?
  }

  const MAX_BLOCK_ANCESTORS_CHECKED: nat := 3

  /** The bounded walk over block headers. */
  function IsBlockAncestor(ancestor: Block, child: Block, n: nat): bool {
    if ancestor == child then true
    else if n == 0 then false
    else match child
      case Genesis(_) => false
      case Next(parent, _, _) => IsBlockAncestor(ancestor, parent, n - 1)
  }

  /** The walk finds exactly the ancestors at most n steps back. */
  lemma {:induction false} AncestorWalkIsExact(a: Block, c: Block, n: nat)
    ensures IsBlockAncestor(a, c, n) <==> Depth(a, c).Some? && Depth(a, c).value <= n
  {
    if a != c && n > 0 && c.Next? {
      AncestorWalkIsExact(a, c.parent, n - 1);
    }
  }

  lemma {:induction false} AncestorTransitive(a: Block, b: Block, c: Block)
    requires IsAncestor(a, b) && IsAncestor(b, c)
    ensures IsAncestor(a, c)
  {
    if b != c {
      AncestorTransitive(a, b, c.parent);
    }
  }

  lemma {:induction false} UtxosAreHistory(b: Block)
    ensures Utxos(b).Keys <= History(b)
  {
    if b.Next? { UtxosAreHistory(b.parent); }
  }

  lemma {:induction false} HistoryGrows(a: Block, b: Block)
    requires IsAncestor(a, b)
    ensures History(a) <= History(b)
  {
    if a != b { HistoryGrows(a, b.parent); }
  }

  /** Spent once is spent for ever: unspent at both ends means unspent in between, holding the same name. */
  lemma {:induction false} UnspentInBetween(a: Block, b: Block, o: OutPoint)
    requires ValidChain(b) && b.Next? && IsAncestor(a, b.parent)
    requires o in Utxos(a) && o in Utxos(b)
    ensures o in Utxos(b.parent) && Utxos(b.parent)[o] == Utxos(b)[o]
  {
    UtxosAreHistory(a);
    HistoryGrows(a, b.parent);
  }

  /** While a name's output is unspent, no block updates the name. */
  lemma {:induction false} HeldNameIsNotUpdated(a: Block, b: Block, o: OutPoint, name: string)
    requires ValidChain(b) && b.Next? && IsAncestor(a, b.parent)
    requires o in Utxos(a) && Utxos(a)[o] == Some(name) && o in Utxos(b)
    ensures !UpdatesName(b, name) && ValidChain(b.parent) && o in Utxos(b.parent)
    decreases b
  {
    UnspentInBetween(a, b, o);
    NameStays(a, b, o);
    UtxosAreHistory(a);
    HistoryGrows(a, b.parent);
    forall p | p in b.created ensures p != o && Utxos(b)[p] == b.created[p] {}
  }

  lemma {:induction false} NameStays(a: Block, b: Block, o: OutPoint)
    requires ValidChain(b) && IsAncestor(a, b)
    requires o in Utxos(a) && o in Utxos(b)
    ensures Utxos(b)[o] == Utxos(a)[o]
  {
    if a != b {
      UnspentInBetween(a, b, o);
      NameStays(a, b.parent, o);
    }
  }

  /**
   * What an asset specification must promise about its answers: an account that
   * can send assets can still send them after a block that does not update its name.
   */
  ghost predicate OnlyMovesMatter(canSell: Block -> bool, seller: string) {
    forall b: Block :: b.Next? && canSell(b.parent) && !UpdatesName(b, seller) ==> canSell(b)
  }

  /**
   * Buyer safety. The name output was unspent at a block at most some steps
   * behind the one at which the seller could send. Then at every later block of
   * every chain at which that output is still unspent, the seller can still send.
   */
  lemma {:induction false} SellerCanStillSend(canSell: Block -> bool, seller: string, nameInput: OutPoint,
                                              utxoBlock: Block, gspBlock: Block, n: nat, later: Block)
    requires OnlyMovesMatter(canSell, seller)
    requires nameInput in Utxos(utxoBlock) && Utxos(utxoBlock)[nameInput] == Some(seller)
    requires canSell(gspBlock) && IsBlockAncestor(utxoBlock, gspBlock, n)
    requires ValidChain(later) && IsAncestor(gspBlock, later)
    requires nameInput in Utxos(later)
    ensures canSell(later)
    decreases later
  {
    if later != gspBlock {
      AncestorWalkIsExact(utxoBlock, gspBlock, n);
      AncestorTransitive(utxoBlock, gspBlock, later.parent);
      HeldNameIsNotUpdated(utxoBlock, later, nameInput, seller);
      SellerCanStillSend(canSell, seller, nameInput, utxoBlock, gspBlock, n, later.parent);
    }
  }

  /**
   * The ancestor walk is needed: if it is dropped, a seller who has just moved
   * the name and the assets in a block the game has not seen passes the rest of the check.
   */
  lemma WithoutTheWalkTheClaimFails(o: OutPoint, p: OutPoint, seller: string)
    returns (canSell: Block -> bool, utxoBlock: Block, gspBlock: Block, later: Block)
    requires o != p
    ensures OnlyMovesMatter(canSell, seller)
    ensures p in Utxos(utxoBlock) && Utxos(utxoBlock)[p] == Some(seller) && canSell(gspBlock)
    ensures ValidChain(later) && IsAncestor(gspBlock, later) && p in Utxos(later)
    ensures !IsBlockAncestor(utxoBlock, gspBlock, MAX_BLOCK_ANCESTORS_CHECKED)
    ensures !canSell(later)
  {
    gspBlock := Genesis(map[o := Some(seller)]);
    later := Next(gspBlock, {o}, map[p := Some(seller)]);
    utxoBlock := later;
    ghost var moved := later;
    canSell := (b: Block) => !IsAncestor(moved, b);
    assert moved.created[p] == Some(seller);
    assert Utxos(later) == map[p := Some(seller)];
    assert IsAncestor(gspBlock, later.parent);
  }
}
