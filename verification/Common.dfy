/** Small shared vocabulary: optional values, trade sides and real-number helpers. */
module Common {

  datatype Option<+T> = None | Some(value: T)

  datatype Side = Long | Short

  /** +1 for a long, -1 for a short (src/binance/stopRules.ts:3-5). */
  function Direction(side: Side): (d: real)
    ensures d == 1.0 || d == -1.0
  {
    if side.Long? then 1.0 else -1.0
  }

  function Abs(x: real): real {
    if x < 0.0 then -x else x
  }

  function Min(x: real, y: real): real {
    if y < x then y else x
  }

  function Max(x: real, y: real): real {
    if x < y then y else x
  }

  /** Looks `key` up in a map the way `Map.get` does. */
  function Get<K, V>(m: map<K, V>, key: K): Option<V> {
    if key in m then Some(m[key]) else None
  }

  /** The last `n` elements, or all of them: `slice(-n)`. */
  function Newest<T>(s: seq<T>, n: nat): seq<T> {
    if |s| <= n then s else s[|s| - n..]
  }
}
