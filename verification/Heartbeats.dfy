/** The node's cache of the heartbeats it has seen on chain. */
module Heartbeats {
  import opened Types

  datatype Heartbeat = Heartbeat(group: GroupId, status: u32, block: BlockNumber)

  type Cache = map<AccountId, Heartbeat>

  /** Block 0 stands for "never seen". */
  predicate Alive(h: Heartbeat, aliveTime: int, best: nat) {
    h.block != 0 && best - h.block < aliveTime
  }

  /** Both this node and some other node have a recent heartbeat. */
  predicate SomeoneAlive(cache: Cache, me: AccountId, aliveTime: int, best: nat) {
    && me in cache && Alive(cache[me], aliveTime, best)
    && exists k :: k in cache && k != me && Alive(cache[k], aliveTime, best)
  }

  class HeartbeatStore {
    var heartbeats: Cache

    constructor ()
      ensures heartbeats == map[]
    {
      heartbeats := map[];
    }

    method AddHeartbeat(wallet: AccountId, group: GroupId, status: u32, block: BlockNumber)
      modifies this
      ensures heartbeats == old(heartbeats)[wallet := Heartbeat(group, status, block)]
    {
      heartbeats := heartbeats[wallet := Heartbeat(group, status, block)];
    }

    /** The loop takes the entries in any order and ignores `group`. */
    method AnyOneAlive(excludeNode: AccountId, aliveTime: int, group: GroupId, bestNumber: nat) returns (r: bool)
      ensures r <==> SomeoneAlive(heartbeats, excludeNode, aliveTime, bestNumber)
    {
      var otherNodeAlive, currentNodeAlive := false, false;
      var todo := heartbeats.Keys;
      while todo != {}
        invariant todo <= heartbeats.Keys
        invariant currentNodeAlive <==>
          excludeNode in heartbeats.Keys - todo && Alive(heartbeats[excludeNode], aliveTime, bestNumber)
        invariant otherNodeAlive <==>
          exists k :: k in heartbeats.Keys - todo && k != excludeNode && Alive(heartbeats[k], aliveTime, bestNumber)
        decreases todo
      {
        var key :| key in todo;
        todo := todo - {key};
        var value := heartbeats[key];
        var lastSeenAgo := bestNumber - value.block;
        if value.block != 0 && lastSeenAgo < aliveTime {
          if key != excludeNode {
            otherNodeAlive := true;
          } else {
            currentNodeAlive := true;
          }
        }
      }
      return otherNodeAlive && currentNodeAlive;
    }

    method GetHeartbeat(wallet: AccountId) returns (r: Option<Heartbeat>)
      ensures r == Lookup(heartbeats, wallet)
    {
      return Lookup(heartbeats, wallet);
    }
  }

  /** As the chain grows and no heartbeat arrives, the answer can only turn to false. */
  lemma AlivenessFades(cache: Cache, me: AccountId, aliveTime: int, best: nat, later: nat)
    requires best <= later && SomeoneAlive(cache, me, aliveTime, later)
    ensures SomeoneAlive(cache, me, aliveTime, best)
  {
    var k :| k in cache && k != me && Alive(cache[k], aliveTime, later);
    assert Alive(cache[k], aliveTime, best);
  }
}
