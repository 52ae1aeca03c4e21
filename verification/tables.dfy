/** Tables keyed by a numeric id, and the one query the repositories derive
    from a method name such as `findAllByTitle`: keep the rows whose column
    equals a value. */
module Tables {

  /** The sub-table of the rows `keep` admits, each with its stored value. */
  function Where<V>(table: map<int, V>, keep: V -> bool): (r: map<int, V>)
    ensures forall id | id in r :: id in table && r[id] == table[id]
    ensures forall id | id in table :: id in r <==> keep(table[id])
  {
    map id | id in table && keep(table[id]) :: table[id]
  }
}
