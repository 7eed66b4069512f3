/**
 * The life of a pending trade: which sequences of periodic checks, with any
 * reorganisations between them, make it succeed or fail.
 */
module Settlement {
  import opened Psbts
  import opened TradeRules
  import opened Wrappers

  /** A check that finds the trade unknown to the game and one of its inputs gone. */
  predicate IsConflict(tx: Tx, c: ChainCheck) {
    c.trade == Unknown && InputMissing(c, tx)
  }

  predicate IsDeep(limits: Limits, c: ChainCheck) {
    c.trade.Confirmed? && c.trade.height + limits.confirmations <= c.height + 1
  }

  /** The first check of the unbroken run of conflicts with which a sequence of checks ends. */
  function ConflictStart(tx: Tx, checks: seq<ChainCheck>): (n: nat)
    ensures n <= |checks|
  {
    if checks == [] || !IsConflict(tx, checks[|checks| - 1]) then |checks|
    else ConflictStart(tx, checks[..|checks| - 1])
  }

  /** The start of the run is what its name says: conflicts from there on, and none just before. */
  lemma {:induction false} ConflictStartIsExact(tx: Tx, checks: seq<ChainCheck>)
    ensures var n := ConflictStart(tx, checks);
            && (forall i :: n <= i < |checks| ==> IsConflict(tx, checks[i]))
            && (n > 0 ==> !IsConflict(tx, checks[n - 1]))
  {
    if checks != [] && IsConflict(tx, checks[|checks| - 1]) {
      ConflictStartIsExact(tx, checks[..|checks| - 1]);
    }
  }

  /** The last check confirms a conflict that an earlier check of the same run has seen first. */
  predicate FailsNow(tx: Tx, limits: Limits, checks: seq<ChainCheck>) {
    && checks != []
    && var (n, last) := (ConflictStart(tx, checks), checks[|checks| - 1]);
    n < |checks| - 1 && checks[n].height + limits.confirmations <= last.height + 1
  }

  predicate EndsNow(tx: Tx, limits: Limits, checks: seq<ChainCheck>) {
    checks != [] && (IsDeep(limits, checks[|checks| - 1]) || FailsNow(tx, limits, checks))
  }

  /** A pending trade after a sequence of checks. */
  function Settle(t: TradeState, limits: Limits, checks: seq<ChainCheck>): (r: TradeState)
    requires t.state == Pending && t.ourPsbt.Some?
    ensures r == t.(state := r.state, conflictHeight := r.conflictHeight)
  {
    if checks == [] then t else Update(Settle(t, limits, checks[..|checks| - 1]), 0, checks[|checks| - 1], limits)
  }

  /** The first of the checks that ends a trade. */
  function FirstEnd(tx: Tx, limits: Limits, checks: seq<ChainCheck>): Option<nat> {
    if checks == [] then None
    else
      var earlier := FirstEnd(tx, limits, checks[..|checks| - 1]);
      if earlier.Some? then earlier
      else if EndsNow(tx, limits, checks) then Some(|checks| - 1)
      else None
  }

  /** Check n ends the trade. */
  predicate EndsAt(tx: Tx, limits: Limits, checks: seq<ChainCheck>, n: nat) {
    n < |checks| && EndsNow(tx, limits, checks[..n + 1])
  }

  lemma {:induction false} FirstEndIsExact(tx: Tx, limits: Limits, checks: seq<ChainCheck>)
    ensures FirstEnd(tx, limits, checks).None? <==> forall n: nat :: !EndsAt(tx, limits, checks, n)
    ensures forall n: nat :: FirstEnd(tx, limits, checks) == Some(n) ==>
              EndsAt(tx, limits, checks, n) && forall m: nat :: m < n ==> !EndsAt(tx, limits, checks, m)
  {
    if checks != [] {
      var k := |checks| - 1;
      var before := checks[..k];
      FirstEndIsExact(tx, limits, before);
      forall n: nat | n < k ensures EndsAt(tx, limits, before, n) <==> EndsAt(tx, limits, checks, n) {
        assert before[..n + 1] == checks[..n + 1];
      }
      assert checks[..k + 1] == checks;
      assert EndsAt(tx, limits, checks, k) <==> EndsNow(tx, limits, checks);
    }
  }

  /**
   * The exact history of a pending trade, for every sequence of checks. It is
   * pending while no check ends it. Then a conflict height is set just when the
   * latest check is a conflict, and is the height at the first check of the
   * current run of conflicts. It succeeds or fails at the first check that is
   * deep enough or completes a long enough run of conflicts.
   */
  lemma {:induction false} SettlesExactly(t: TradeState, limits: Limits, checks: seq<ChainCheck>)
    requires t.state == Pending && t.ourPsbt.Some? && t.conflictHeight.None?
    ensures var (r, tx) := (Settle(t, limits, checks), t.ourPsbt.value.tx);
            var end := FirstEnd(tx, limits, checks);
            && (end.Some? ==> end.value < |checks|)
            && (r.state == Pending <==> end.None?)
            && (r.state == Pending ==>
                  && (r.conflictHeight.Some? <==> checks != [] && IsConflict(tx, checks[|checks| - 1]))
                  && (r.conflictHeight.Some? ==> ConflictStart(tx, checks) < |checks|
                                                 && r.conflictHeight.value == checks[ConflictStart(tx, checks)].height))
            && (r.state == Success <==> end.Some? && IsDeep(limits, checks[end.value]))
            && (r.state == Failed <==> end.Some? && FailsNow(tx, limits, checks[..end.value + 1]))
            && r.state in {Pending, Success, Failed}
  {
    if checks != [] {
      var k := |checks| - 1;
      var (before, tx) := (checks[..k], t.ourPsbt.value.tx);
      SettlesExactly(t, limits, before);
      var end := FirstEnd(tx, limits, before);
      if end.None? {
        PendingStep(Settle(t, limits, before), tx, limits, checks);
        assert checks[..k + 1] == checks;
      } else {
        assert before[..end.value + 1] == checks[..end.value + 1];
      }
    }
  }

  lemma PendingStep(p: TradeState, tx: Tx, limits: Limits, checks: seq<ChainCheck>)
    requires checks != [] && p.state == Pending && p.ourPsbt.Some? && p.ourPsbt.value.tx == tx
    requires var before := checks[..|checks| - 1];
             && (p.conflictHeight.Some? <==> before != [] && IsConflict(tx, before[|before| - 1]))
             && (p.conflictHeight.Some? ==> ConflictStart(tx, before) < |before|
                                            && p.conflictHeight.value == before[ConflictStart(tx, before)].height)
    ensures var (r, last) := (Update(p, 0, checks[|checks| - 1], limits), checks[|checks| - 1]);
            && (r.state == Success <==> IsDeep(limits, last))
            && (r.state == Failed <==> FailsNow(tx, limits, checks))
            && (IsDeep(limits, last) ==> !FailsNow(tx, limits, checks))
            && (r.state == Pending <==> !EndsNow(tx, limits, checks))
            && (r.state == Pending ==>
                  && (r.conflictHeight.Some? <==> IsConflict(tx, last))
                  && (r.conflictHeight.Some? ==> ConflictStart(tx, checks) < |checks|
                                                 && r.conflictHeight.value == checks[ConflictStart(tx, checks)].height))
  {
    var before := checks[..|checks| - 1];
    assert ConflictStart(tx, before) == |before| <==> p.conflictHeight.None?;
    assert IsConflict(tx, checks[|checks| - 1]) ==> ConflictStart(tx, checks) == ConflictStart(tx, before);
  }
}
