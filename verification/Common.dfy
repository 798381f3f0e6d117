/** What every module shares. */
module Common {

  /** A row id. The database draws random UUIDs; here ids and lease tokens come
    from a counter, so none is issued twice. */
  type Id = nat

  datatype Option<+T> = None | Some(value: T)

  predicate Distinct<T(==)>(items: seq<T>) {
    forall i, j :: 0 <= i < j < |items| ==> items[i] != items[j]
  }

  function Last<T>(items: seq<T>): T
    requires items != []
  {
    items[|items| - 1]
  }

  function Front<T>(items: seq<T>): seq<T>
    requires items != []
  {
    items[..|items| - 1]
  }
}
