/** Result and option types, the error kinds of the repository, and the integer widths it uses. */
module Base {
  const TWO63: int := 0x8000_0000_0000_0000
  const TWO64: int := 0x1_0000_0000_0000_0000

  type U64 = x: int | 0 <= x < TWO64
  type Byte = x: int | 0 <= x < 256
  type Item = seq<Byte>

  datatype Option<+T> = None | Some(value: T) {
    function GetOr(default: T): T {
      if Some? then value else default
    }
  }

  /** The sentinels of the bloom and service packages; ParseFailure and StoreFailure stand for the
      wrapped errors that carry no sentinel, RuntimePanic for an index or slice-length panic. */
  datatype Error =
    | EmptyName | FilterExists | FilterNotFound
    | InvalidN | InvalidP | InvalidStage | SizeOverflow | InvalidRatio
    | ParseFailure | StoreFailure | RuntimePanic
    | ServiceInvalidArgument | ServiceNotFound | ServiceAlreadyExists

  datatype Result<+T> = Ok(value: T) | Err(error: Error) {
    predicate IsFailure() {
      Err?
    }

    function PropagateFailure<U>(): Result<U>
      requires Err?
    {
      Err(error)
    }

    function Extract(): T
      requires Ok?
    {
      value
    }
  }

  function Lookup<K, V>(m: map<K, V>, k: K): Option<V> {
    if k in m then Some(m[k]) else None
  }

  /** The elements of a sequence. */
  function Elements<T>(s: seq<T>): set<T> {
    set x | x in s
  }

  lemma ElementsSnoc<T>(s: seq<T>, x: T)
    ensures Elements(s + [x]) == Elements(s) + {x}
  {
    assert x == (s + [x])[|s|];
    forall y | y in s
      ensures y in s + [x]
    {
      var i :| 0 <= i < |s| && s[i] == y;
      assert (s + [x])[i] == y;
    }
  }

  lemma MinusSnoc<K, V>(m: map<K, V>, keys: seq<K>, k: K)
    ensures m - Elements(keys) - {k} == m - Elements(keys + [k])
  {
    ElementsSnoc(keys, k);
  }
}
