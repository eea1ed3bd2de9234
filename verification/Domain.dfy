/** Identifiers and small values shared by every component of the model. */
module Domain {

  datatype Option<+T> = None | Some(value: T)

  datatype UserId = UserId(value: string)
  datatype ChannelId = ChannelId(value: string)

  /** A client's transport connection. */
  datatype ConnId = ConnId(value: string)

  /** Server-minted app-session id; 0 stands for "no session id in the event". */
  type SessionId = nat

  /** Looks a key up in a map. */
  function Lookup<K, V>(m: map<K, V>, k: K): Option<V> {
    if k in m then Some(m[k]) else None
  }
}
