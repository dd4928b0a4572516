/** The node's link to the chain: when it may send transactions. */
module Chain {
  const LAST_BLOCK_THRESHOLD: nat := 10
  const FINALIZED_GAP: nat := 10

  /** The last best block number seen and how often it was seen again in a row. */
  datatype Link = Link(last: nat, repeats: nat)

  /** What one check of the link reads. A failed read of a number is 0 and a failed read of the sync
      state counts as "not syncing". The retry values are read five seconds later. */
  datatype View = View(
    connected: bool,
    best: nat,
    bestAgain: nat,
    finalized: nat,
    peers: nat,
    syncing: bool,
    peersRetry: nat,
    syncingRetry: bool)

  function Observe(link: Link, best: nat): Link {
    Link(best, if link.last == best then link.repeats + 1 else 0)
  }

  predicate Stalled(link: Link, best: nat) {
    link.last == best && Observe(link, best).repeats >= LAST_BLOCK_THRESHOLD
  }

  function LinkAfter(link: Link, v: View): Link {
    if v.connected then Observe(link, v.best) else link
  }

  predicate Healthy(v: View) {
    if v.peers == 0 || v.syncing then v.peersRetry != 0 && !v.syncingRetry else true
  }

  predicate CanSend(link: Link, v: View) {
    && v.connected
    && !Stalled(link, v.best)
    && v.bestAgain - v.finalized < FINALIZED_GAP
    && Healthy(v)
  }

  // ---------- when the gate opens ----------

  /** At one of the two attempts there were peers and nothing to catch up with. */
  predicate Reachable(v: View) {
    (v.peers != 0 && !v.syncing) || (v.peersRetry != 0 && !v.syncingRetry)
  }

  /** The number is new, or has been seen again less often than the threshold. */
  predicate Moving(link: Link, best: nat) {
    best != link.last || link.repeats + 1 < LAST_BLOCK_THRESHOLD
  }

  predicate FinalityKeepsUp(v: View) {
    v.bestAgain < v.finalized + FINALIZED_GAP
  }

  predicate Fit(link: Link, v: View) {
    v.connected && Moving(link, v.best) && FinalityKeepsUp(v) && Reachable(v)
  }

  /** On a connected, moving chain whose finality keeps up the gate opens if and only if the node is reachable, and
      without any of these it stays shut. */
  lemma GateOpensExactly(link: Link, v: View)
    ensures CanSend(link, v) <==> Fit(link, v)
  {
  }

  class ChainLink {
    var lastBlockNumber: nat
    var lastBlockAccumulator: nat

    /** `best` is the number read when the connection was made. */
    constructor (best: nat)
      ensures Value() == Link(best, 0)
    {
      lastBlockNumber, lastBlockAccumulator := best, 0;
    }

    ghost function Value(): Link
      reads this
    {
      Link(lastBlockNumber, lastBlockAccumulator)
    }

    method ChainMovingForward(currentBlock: nat) returns (r: bool)
      modifies this
      ensures Value() == Observe(old(Value()), currentBlock)
      ensures r <==> !Stalled(old(Value()), currentBlock)
    {
      lastBlockAccumulator := if lastBlockNumber == currentBlock then lastBlockAccumulator + 1 else 0;
      if lastBlockNumber == currentBlock && lastBlockAccumulator >= LAST_BLOCK_THRESHOLD {
        return false;
      }
      lastBlockNumber := currentBlock;
      return true;
    }

    method CanSendTransactions(v: View) returns (r: bool)
      modifies this
      ensures Value() == LinkAfter(old(Value()), v)
      ensures r <==> CanSend(old(Value()), v)
      ensures r <==> Fit(old(Value()), v)
    {
      if !v.connected {
        return false;
      }
      var moving := ChainMovingForward(v.best);
      if !moving {
        return false;
      }
      if v.bestAgain - v.finalized >= FINALIZED_GAP {
        return false;
      }
      var peersNumber, syncState := v.peers, v.syncing;
      if peersNumber == 0 || syncState {
        peersNumber, syncState := v.peersRetry, v.syncingRetry;
      }
      return peersNumber != 0 && !syncState;
    }
  }

  function ObserveAll(link: Link, seen: seq<nat>): Link {
    if seen == [] then link else Observe(ObserveAll(link, seen[..|seen| - 1]), seen[|seen| - 1])
  }

  /** From a fresh connection, the accumulator is the length of the longest run of equal numbers that
      the observations end in, not counting its first member. */
  lemma {:induction false} RepeatsCountsEqualTail(first: nat, seen: seq<nat>)
    ensures var h, link := [first] + seen, ObserveAll(Link(first, 0), seen);
            && link.last == h[|h| - 1]
            && link.repeats <= |seen|
            && (forall i :: |h| - 1 - link.repeats <= i < |h| ==> h[i] == link.last)
            && (link.repeats < |seen| ==> h[|h| - 2 - link.repeats] != link.last)
  {
    if seen != [] {
      var init := seen[..|seen| - 1];
      RepeatsCountsEqualTail(first, init);
      var h, k := [first] + init, [first] + seen;
      assert k == h + [seen[|seen| - 1]];
      var link := ObserveAll(Link(first, 0), init);
      assert forall i :: 0 <= i < |h| ==> k[i] == h[i];
    }
  }
}
