/**
 The marshalling helpers of the model-runner base: the serialise side merges
 attention and sampling metadata into a tensor dict; the deserialise side pops
 a record's declared fields out of a tensor dict, builds the record, and
 stores it back under a well-known key.
 */
module BroadcastFields {

  import opened TensorDicts
  import Options

  const AttnMetadataKey: Key := "attn_metadata"
  const FrozenModelInputKey: Key := "frozen_model_input"
  const SelectedTokenIndicesKey: Key := "selected_token_indices"
  const SamplingMetadataKey: Key := "sampling_metadata"

  /** What an extraction into `target` promises: the constructor got exactly the
      schema fields `d` held with a non-None value; no other schema field is left;
      every key outside the schema is untouched; only `target` is added. */
  ghost predicate ExtractedInto(d: TensorDict, fields: Schema, construct: TensorDict -> Value,
                                target: Key, r: TensorDict)
  {
    && target in r
    && r[target] == construct(PresentFields(d, fields))
    && (forall k :: k in fields && k != target ==> k !in r)
    && (forall k :: k !in fields && k != target ==> (k in r <==> k in d))
    && (forall k :: k in d && k !in fields && k != target ==> r[k] == d[k])
  }

  /** Pops each schema field in order, keeping its value as a keyword argument
      when it is not None: the dict left over and the keyword arguments. */
  function PopFields(fields: Schema, d: TensorDict, kwargs: TensorDict): (r: (TensorDict, TensorDict))
    ensures r.0 == Without(d, fields)
    ensures r.1 == kwargs + PresentFields(d, fields)
    decreases |fields|
  {
    if |fields| == 0 then
      assert Without(d, fields) == d;
      assert PresentFields(d, fields) == map[];
      (d, kwargs)
    else
      var field := fields[0];
      var popped := Pop(d, field);
      var kwargs' := if popped.0 != None then kwargs[field := popped.0] else kwargs;
      PopStep(fields, d, kwargs);
      PopFields(fields[1..], popped.1, kwargs')
  }

  /** Popping the head of the schema and then the tail leaves what popping the
      whole schema leaves, and collects the same keyword arguments. */
  lemma PopStep(fields: Schema, d: TensorDict, kwargs: TensorDict)
    requires |fields| > 0
    ensures Without(d - {fields[0]}, fields[1..]) == Without(d, fields)
    ensures var kwargs' := if fields[0] in d && d[fields[0]] != None then kwargs[fields[0] := d[fields[0]]] else kwargs;
            kwargs' + PresentFields(d - {fields[0]}, fields[1..]) == kwargs + PresentFields(d, fields)
  {
  }

  /** The algorithm shared by attention-metadata and frozen-input extraction. */
  function ExtractRecord(fields: Schema, construct: TensorDict -> Value, target: Key,
                         d: TensorDict): (r: TensorDict)
    ensures ExtractedInto(d, fields, construct, target, r)
  {
    var (rest, kwargs) := PopFields(fields, d, map[]);
    assert kwargs == PresentFields(d, fields);
    rest[target := construct(kwargs)]
  }

  /** `_add_attn_metadata_broadcastable_dict`: merge the metadata's field map
      (`asdict_zerocopy()`) over the dict; the metadata's values win. */
  function AddAttnMetadata(d: TensorDict, attnFields: Options.Option<TensorDict>): (r: TensorDict)
    ensures attnFields.None? ==> r == d
    ensures attnFields.Some? ==> r.Keys == d.Keys + attnFields.value.Keys
    ensures attnFields.Some? ==> forall k :: k in attnFields.value ==> r[k] == attnFields.value[k]
    ensures forall k :: k in d && (attnFields.None? || k !in attnFields.value) ==> r[k] == d[k]
  {
    match attnFields
    case None => d
    case Some(fs) => d + fs
  }

  /** `_init_attn_metadata_from_tensor_dict`: `schema` is the field list of the
      backend's metadata class and `makeMetadata` its `make_metadata`. */
  function InitAttnMetadata(schema: Schema, makeMetadata: TensorDict -> Value,
                            d: TensorDict): (r: TensorDict)
    ensures ExtractedInto(d, schema, makeMetadata, AttnMetadataKey, r)
  {
    ExtractRecord(schema, makeMetadata, AttnMetadataKey, d)
  }

  /** `_init_frozen_model_input_from_tensor_dict`: `schema` is the field list of
      the frozen input class and `construct` its constructor. */
  function InitFrozenModelInput(schema: Schema, construct: TensorDict -> Value,
                                d: TensorDict): (r: TensorDict)
    ensures ExtractedInto(d, schema, construct, FrozenModelInputKey, r)
  {
    ExtractRecord(schema, construct, FrozenModelInputKey, d)
  }

  /** The minimal sampling metadata that tells a follower to skip sampling:
      no per-group detail, no categorised indices, no prompts. */
  predicate SkipsSampling(m: SamplingMetadata)
  {
    m.seqGroups == None && m.categorizedSampleIndices == None && m.numPrompts == 0
  }

  /** `_add_sampling_metadata_broadcastable_dict`: only the selected token
      indices cross the broadcast boundary. */
  function AddSamplingMetadata(d: TensorDict, meta: Options.Option<SamplingMetadata>): (r: TensorDict)
    ensures meta.None? ==> r == d
    ensures meta.Some? ==> SelectedTokenIndicesKey in r
                           && r[SelectedTokenIndicesKey] == meta.value.selectedTokenIndices
    ensures forall k :: k != SelectedTokenIndicesKey ==> (k in r <==> k in d)
    ensures forall k :: k in d && k != SelectedTokenIndicesKey ==> r[k] == d[k]
  {
    match meta
    case None => d
    case Some(m) => d[SelectedTokenIndicesKey := m.selectedTokenIndices]
  }

  /** `_init_sampling_metadata_from_tensor_dict`. */
  function InitSamplingMetadata(d: TensorDict): (r: TensorDict)
    ensures SelectedTokenIndicesKey !in r
    ensures var popped := if SelectedTokenIndicesKey in d then d[SelectedTokenIndicesKey] else None;
            if popped != None then
              && SamplingMetadataKey in r
              && r[SamplingMetadataKey].Sampling?
              && SkipsSampling(r[SamplingMetadataKey].meta)
              && r[SamplingMetadataKey].meta.selectedTokenIndices == popped
            else
              r == d - {SelectedTokenIndicesKey}
    ensures forall k :: k in d && k != SelectedTokenIndicesKey && k != SamplingMetadataKey
                        ==> k in r && r[k] == d[k]
    ensures forall k :: k in r ==> k in d || k == SamplingMetadataKey
  {
    var (indices, rest) := Pop(d, SelectedTokenIndicesKey);
    if indices != None then
      rest[SamplingMetadataKey := Sampling(SamplingMetadata(
        seqGroups := None,
        selectedTokenIndices := indices,
        categorizedSampleIndices := None,
        numPrompts := 0))]
    else
      rest
  }

  /** Round trip of attention metadata: a follower's `make_metadata` receives
      exactly the non-None fields the driver merged in, whatever stale entries
      the dict held before, and keys outside the schema survive. */
  lemma AttnMetadataRoundTrip(schema: Schema, makeMetadata: TensorDict -> Value,
                              d: TensorDict, attnFields: TensorDict)
    requires attnFields.Keys == set k | k in schema
    ensures var r := InitAttnMetadata(schema, makeMetadata, AddAttnMetadata(d, Options.Some(attnFields)));
            && r[AttnMetadataKey] == makeMetadata(NonNone(attnFields))
            && forall k :: k in d && k !in schema && k != AttnMetadataKey ==> k in r && r[k] == d[k]
  {
    var merged := AddAttnMetadata(d, Options.Some(attnFields));
    assert PresentFields(merged, schema) == NonNone(attnFields);
  }

  /** Extra-key tolerance: entries whose keys no schema field names do not
      change the record a follower builds. */
  lemma ExtraKeysIgnored(schema: Schema, construct: TensorDict -> Value, target: Key,
                         d: TensorDict, extra: TensorDict)
    requires forall k :: k in extra ==> k !in schema
    ensures ExtractRecord(schema, construct, target, d + extra)[target]
            == ExtractRecord(schema, construct, target, d)[target]
  {
    var r1 := ExtractRecord(schema, construct, target, d + extra);
    var r2 := ExtractRecord(schema, construct, target, d);
    assert r1[target] == construct(PresentFields(d + extra, schema));
    assert r2[target] == construct(PresentFields(d, schema));
    PresentFieldsIgnoreExtra(schema, d, extra);
  }

  /** Entries the schema does not name never reach the keyword arguments. */
  lemma PresentFieldsIgnoreExtra(schema: Schema, d: TensorDict, extra: TensorDict)
    requires forall k :: k in extra ==> k !in schema
    ensures PresentFields(d + extra, schema) == PresentFields(d, schema)
  {
  }

  /** Round trip of sampling metadata: the follower's minimal record carries
      the driver's selected token indices. */
  lemma SamplingMetadataRoundTrip(d: TensorDict, meta: SamplingMetadata)
    requires meta.selectedTokenIndices != None
    ensures var r := InitSamplingMetadata(AddSamplingMetadata(d, Options.Some(meta)));
            && SelectedTokenIndicesKey !in r
            && SamplingMetadataKey in r
            && r[SamplingMetadataKey] == Sampling(SamplingMetadata(None, meta.selectedTokenIndices, None, 0))
            && forall k :: k in d && k != SelectedTokenIndicesKey && k != SamplingMetadataKey ==> k in r && r[k] == d[k]
  {
  }
}
