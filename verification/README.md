# Model-runner broadcast helpers and generator registry

This project models the logic in `aphrodite/worker/model_runner_base.py`: the
helpers that move attention and sampling metadata and the frozen model input
into and out of the flat tensor dict broadcast from the driver worker to the
follower workers, and the cleanup of the per-request generator registry in
`ModelRunnerBase.get_generators`.

- `TensorDicts` (tensor_dict.dfy): the tensor dict as `map<string, Value>`.
  `Value` has a `None` case for Python's `None`, an opaque `Payload` for
  tensors and backend records, and a `Sampling` case for the sampling-metadata
  record. A record's declared field list (`dataclasses.fields`) is a `Schema`,
  a `seq<string>`. `Pop` models `dict.pop(key, None)`.
- `BroadcastFields` (broadcast_fields.dfy): the five module-level helpers.
  `PopFields` models the field-popping loop. `ExtractRecord` is the algorithm
  that attention-metadata and frozen-input extraction share. The backend's
  `make_metadata` and the frozen class's constructor are opaque functions
  `TensorDict -> Value`, passed in as parameters.
- `GeneratorRegistry` (generators.dfy): the registry as `map<string, G>` for
  any generator type `G`. It also holds a `ModelRunner` class that owns the map.
- `Options` (options.dfy): the `Option` datatype for `Optional[...]` parameters.

The `_init_*` helpers mutate the dict and return it. The `_add_*` helpers
mutate it and return `None`. Here all five are pure functions from the old
dict to the new one.

These helpers raise no error when a field is missing. They pass whatever
non-`None` fields they found to the constructor, so any missing-field error
would come from the opaque constructor. The model follows the code.

## Model

| member | source | states |
|---|---|---|
| BroadcastFields.PopFields | aphrodite/worker/model_runner_base.py:42-45 | popping each schema field leaves exactly the entries whose key the schema does not name, and collects exactly the schema fields held with a non-None value, merged over the keyword arguments collected so far |
| BroadcastFields.ExtractRecord | aphrodite/worker/model_runner_base.py:91-97 | the constructor receives exactly the schema fields the dict held with a non-None value; no schema field except the target key remains; keys outside the schema keep their values; only the target key is added, bound to the constructed record |
| BroadcastFields.InitAttnMetadata | aphrodite/worker/model_runner_base.py:32-49 | the same extraction property for the backend's metadata schema, with the record stored under "attn_metadata" |
| BroadcastFields.InitFrozenModelInput | aphrodite/worker/model_runner_base.py:85-98 | the same extraction property for the frozen input class's schema, with the record stored under "frozen_model_input" |
| BroadcastFields.AddAttnMetadata | aphrodite/worker/model_runner_base.py:21-29 | with no metadata the dict is unchanged; otherwise the result has the union of keys, the metadata's values win, and other entries keep theirs |
| BroadcastFields.AddSamplingMetadata | aphrodite/worker/model_runner_base.py:73-82 | with no metadata the dict is unchanged; otherwise "selected_token_indices" holds the metadata's indices and every other key is untouched |
| BroadcastFields.InitSamplingMetadata | aphrodite/worker/model_runner_base.py:52-70 | "selected_token_indices" is always removed; a non-None popped value yields a "sampling_metadata" record with no sequence groups, no categorised indices, zero prompts and exactly the popped indices; otherwise the result is the input minus that one key; all other keys are untouched |
| BroadcastFields.AttnMetadataRoundTrip | aphrodite/worker/model_runner_base.py:28-48 | merging a metadata's full field map and then extracting with the same schema hands `make_metadata` exactly the non-None fields of that map, whatever the dict held before, and keys outside the schema survive |
| BroadcastFields.SamplingMetadataRoundTrip | aphrodite/worker/model_runner_base.py:60-82 | adding sampling metadata with non-None indices and then extracting yields the minimal record carrying those same indices, and other keys survive |
| BroadcastFields.ExtraKeysIgnored | aphrodite/worker/model_runner_base.py:42-47 | keys the schema does not name do not change the record the extraction builds |
| BroadcastFields.PresentFieldsIgnoreExtra | aphrodite/worker/model_runner_base.py:42-45 | entries whose keys the schema does not name never reach the keyword arguments the extraction loop collects |
| GeneratorRegistry.PopAll | aphrodite/worker/model_runner_base.py:210-211 | after popping every id, none of the ids is a key, every other key keeps its generator, and no key is added; absent ids are ignored |
| GeneratorRegistry.CleanUp | aphrodite/worker/model_runner_base.py:203-213 | a missing or empty id list leaves the registry unchanged; otherwise a key survives iff it was present and not reported finished, with its generator unchanged |
| GeneratorRegistry.CleanUpIdempotent | aphrodite/worker/model_runner_base.py:209-211 | cleaning up twice with the same ids equals cleaning up once |
| GeneratorRegistry.CleanUpSequential | aphrodite/worker/model_runner_base.py:209-211 | two cleanups in a row equal one cleanup with the concatenated id list |
| GeneratorRegistry.SeededThenFinished | aphrodite/worker/model_runner_base.py:209-213 | a generator seeded for a fresh request id is gone once that id is reported finished, and the rest of the registry is unchanged |
| GeneratorRegistry.ModelRunner.GetGenerators | aphrodite/worker/model_runner_base.py:203-213 | the runner's registry is cleaned up first and then returned |

## Left out

- The abstract members `as_broadcastable_tensor_dict`, `from_broadcasted_tensor_dict`, `add_seq_group`, `build`, `make_model_input_from_broadcasted_tensor_dict`, `prepare_model_input` and `execute_model` (aphrodite/worker/model_runner_base.py:100-201): they have no bodies and only raise `NotImplementedError`.
- The incremental builder's ordering and the frozen/per-step split of a multi-step input: they belong to concrete runners, not to this file.
- `attn_metadata.asdict_zerocopy()` is taken as a given field map. `dataclasses.fields(...)` is a given schema. `make_metadata` and the frozen class's constructor are opaque functions. Errors they raise, such as a missing required field, are not modelled.
- Tensor and `torch.Generator` contents are opaque (`Payload` handles and a type parameter `G`).
- `SamplingMetadata` has only the four fields this file sets. Its other fields keep their Python defaults and are not modelled.
- The `inference_mode` decorator on `execute_model` only scopes the platform, so it is not modelled.
- `generators` is a class attribute (aphrodite/worker/model_runner_base.py:163), so every runner instance shares one dict. The model gives each runner its own map.
- GeneratorRegistry.ModelRunner.GetGenerators: it returns a copy of the map, not a reference that callers can mutate afterwards. Its contract uses `old` and `modifies`.
- Concurrency: the source assumes one thread per runner, and the model is sequential.
