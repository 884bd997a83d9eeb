/** `_Set_operations` of term.py and terms.py: set difference done by copying and discarding. */
module SetOperations {

  /** Copies `a` and discards every key of `b` from the copy; `a` itself is a value and stays as it was. */
  method DiscardBFromA<T>(a: set<T>, b: set<T>) returns (c: set<T>)
    ensures c == a - b
  {
    c := a;
    var keys := b;
    ghost var done: set<T> := {};
    while keys != {}
      invariant keys + done == b && keys !! done
      invariant c == a - done
      decreases keys
    {
      var key :| key in keys;
      c := c - {key};
      keys := keys - {key};
      done := done + {key};
    }
  }
}
