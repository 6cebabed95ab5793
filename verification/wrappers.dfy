/** Option and the error values the controller passes around. */
module Wrappers {

  datatype Option<+T> = None | Some(value: T)

  /** The errors the model distinguishes. Errors raised by the store or by
      the owner-reference helper are all `Failure`s carrying their text. */
  datatype Error =
    | NotFound
    | AlreadyExists
    | InvalidRuntimeSize
    | Failure(text: string)
      // A run-time panic (nil pointer dereference) that aborts the pass.
    | NilPointerPanic

  /** What `err.Error()` prints for each error. */
  function Text(e: Error): string
  {
    match e
    case NotFound => "not found"
    case AlreadyExists => "already exists"
    case InvalidRuntimeSize => "invalid runtime size"
    case Failure(t) => t
    case NilPointerPanic => "invalid memory address or nil pointer dereference"
  }

  /** A value, or the error that prevented computing it. */
  datatype Result<+T> = Ok(value: T) | Err(error: Error)
}

/** Ranging over a Go map: every entry is visited once, in an order the
    language leaves unspecified. */
module MapIteration {

  /** The entries of `m` in some order: `keys` lists every key of `m`
      exactly once and `values[i] == m[keys[i]]`. */
  method Range<K, V>(m: map<K, V>) returns (keys: seq<K>, values: seq<V>)
    ensures |keys| == |values| == |m.Keys|
    ensures forall i :: 0 <= i < |keys| ==> keys[i] in m && values[i] == m[keys[i]]
    ensures forall k :: k in m ==> k in keys
    ensures forall i, j :: 0 <= i < j < |keys| ==> keys[i] != keys[j]
  {
    keys, values := [], [];
    var rest := m.Keys;
    while rest != {}
      invariant rest <= m.Keys
      invariant |keys| == |values| == |m.Keys - rest|
      invariant forall i :: 0 <= i < |keys| ==> keys[i] in m.Keys - rest && values[i] == m[keys[i]]
      invariant forall k :: k in m.Keys - rest ==> k in keys
      invariant forall i, j :: 0 <= i < j < |keys| ==> keys[i] != keys[j]
      decreases rest
    {
      var k :| k in rest;
      assert m.Keys - (rest - {k}) == (m.Keys - rest) + {k};
      keys, values := keys + [k], values + [m[k]];
      rest := rest - {k};
    }
  }
}
