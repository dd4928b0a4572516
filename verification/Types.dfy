/** Values shared by every part of the model. */
module Types {

  /** The unsigned 32-bit integers of the runtime. */
  type u32 = x: int | 0 <= x <= U32_MAX

  const U32_MAX: int := 0xFFFF_FFFF

  /** Accounts are abstract values with equality. */
  type AccountId = nat

  /** The account that a `ValueQuery` map answers for a missing key. Nobody signs with it. */
  const DEFAULT_ACCOUNT: AccountId := 0

  type GroupId = u32
  type BlockNumber = nat

  datatype Option<+T> = None | Some(value: T) {
    function GetOr(default: T): T {
      match this
      case None => default
      case Some(v) => v
    }
  }

  function Lookup<K, V>(m: map<K, V>, k: K): Option<V> {
    if k in m then Some(m[k]) else None
  }

  /** What the pallet deposits, in order. */
  datatype Event =
    | NewHeartbeat(who: AccountId, group: GroupId, status: u32, block: BlockNumber)
    | NewLeader(who: AccountId, group: GroupId)
    | GiveUpLeader(who: AccountId, group: GroupId)

  /** The value of `service.mode`. */
  datatype Mode = Idle | Passive | Active
}
