/**
 The broadcast tensor dict: the flat, string-keyed mapping a driver worker
 sends to its followers. Values are opaque except for the Python `None`
 they may hold and the sampling-metadata record this core builds itself.
 */
module TensorDicts {

  type Key = string

  /** A value held by a tensor dict. */
  datatype Value =
    | None                               // Python's None
    | Payload(handle: int)               // a tensor, scalar or backend record this core never inspects
    | Sampling(meta: SamplingMetadata)   // a sampling-metadata record

  /** The four sampling-metadata fields this core sets. */
  datatype SamplingMetadata = SamplingMetadata(
    seqGroups: Value,
    selectedTokenIndices: Value,
    categorizedSampleIndices: Value,
    numPrompts: int)

  type TensorDict = map<Key, Value>

  /** The declared field names of a record type, in declaration order. */
  type Schema = seq<Key>

  /** `d.pop(key, None)`: the popped value (None when absent) and the dict without `key`. */
  function Pop(d: TensorDict, key: Key): (r: (Value, TensorDict))
    ensures key !in r.1
    ensures key in d ==> r.0 == d[key]
    ensures key !in d ==> r.0 == None
    ensures forall k :: k in d && k != key ==> k in r.1 && r.1[k] == d[k]
    ensures forall k :: k in r.1 ==> k in d
  {
    (if key in d then d[key] else None, d - {key})
  }

  /** The entries of `d` whose key the schema does not name. */
  function Without(d: TensorDict, fields: Schema): TensorDict
  {
    map k | k in d && k !in fields :: d[k]
  }

  /** The entries of `d` the schema names and whose value is not None. */
  function PresentFields(d: TensorDict, fields: Schema): TensorDict
  {
    map k | k in d && k in fields && d[k] != None :: d[k]
  }

  /** The entries of `d` whose value is not None. */
  function NonNone(d: TensorDict): TensorDict
  {
    map k | k in d && d[k] != None :: d[k]
  }
}
