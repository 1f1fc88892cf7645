/** Value types shared by the models of the recorder proxy, the content writer,
    the browser controller and the robots evaluator. */
module Common {

  datatype Option<+T> = None | Some(value: T)

  newtype byte = x: int | 0 <= x < 256
  type Bytes = seq<byte>

  /** The bytes of the chunks, in order. */
  function Flatten(chunks: seq<Bytes>): (all: Bytes) {
    if chunks == [] then [] else Flatten(chunks[..|chunks| - 1]) + chunks[|chunks| - 1]
  }

  lemma FlattenSnoc(chunks: seq<Bytes>, chunk: Bytes)
    ensures Flatten(chunks + [chunk]) == Flatten(chunks) + chunk
  {
    assert (chunks + [chunk])[..|chunks|] == chunks;
  }

  /** Go ranges over a map in no particular order. */
  method AnyOf(keys: set<int>) returns (k: int)
    requires keys != {}
    ensures k in keys
  {
    Inhabited(keys);
    k :| k in keys;
  }

  lemma Inhabited(keys: set<int>)
    ensures keys == {} || exists k :: k in keys
  {
    assert (forall k :: k !in keys) ==> keys == {};
  }
}
