/** Memory as a total function from cells to values. */
module Memory {
  /** Memory with one cell changed. */
  function Upd<K(==), V>(f: K -> V, key: K, v: V): K -> V {
    k => if k == key then v else f(k)
  }
}
