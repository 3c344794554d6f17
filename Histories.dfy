/** Lists kept per integer key, as the order and review stores keep them:
    a customer's orders, a product's reviews. A key without an entry reads as
    the empty list, and adding appends at the end of the key's list. */
module Histories {

  /** The list under `key` in placement order, empty if there is none. */
  function History<T>(m: map<int, seq<T>>, key: int): (h: seq<T>)
    ensures key !in m ==> h == []
  {
    if key in m then m[key] else []
  }

  /** The store after appending `x` to the list under `key`, creating the
      list on the key's first entry. */
  function Recorded<T>(m: map<int, seq<T>>, key: int, x: T): (m': map<int, seq<T>>)
    ensures m'.Keys == m.Keys + {key}
    ensures History(m', key) == History(m, key) + [x]
    ensures forall k | k != key :: History(m', k) == History(m, k)
  {
    m[key := History(m, key) + [x]]
  }
}
