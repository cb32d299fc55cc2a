/**
 The per-request generator registry of the model runner: a map from request
 id to the seeded random generator used for that request's sampling.
 */
module GeneratorRegistry {

  import Options

  type RequestId = string

  /** Drops every listed request id, ignoring ids that are absent. */
  function PopAll<G>(gens: map<RequestId, G>, ids: seq<RequestId>): (r: map<RequestId, G>)
    ensures forall id :: id in ids ==> id !in r
    ensures forall id :: id in gens && id !in ids ==> id in r && r[id] == gens[id]
    ensures forall id :: id in r ==> id in gens
    decreases |ids|
  {
    if |ids| == 0 then gens
    else
      assert forall id :: id in ids <==> id == ids[0] || id in ids[1..] by {
        assert ids == [ids[0]] + ids[1..];
      }
      PopAll(gens - {ids[0]}, ids[1..])
  }

  /** True iff `id` is among the reported finished request ids. */
  predicate IsFinished(finished: Options.Option<seq<RequestId>>, id: RequestId)
  {
    finished.Some? && id in finished.value
  }

  /** The registry cleanup of `get_generators`: a missing or empty id list
      leaves the registry alone; otherwise every finished id is dropped, absent
      ids being ignored, and every other entry keeps its generator. */
  function CleanUp<G>(gens: map<RequestId, G>, finished: Options.Option<seq<RequestId>>): (r: map<RequestId, G>)
    ensures finished.None? || finished.value == [] ==> r == gens
    ensures forall id :: id in r <==> id in gens && !IsFinished(finished, id)
    ensures forall id :: id in r ==> r[id] == gens[id]
  {
    match finished
    case None => gens
    case Some(ids) => if |ids| > 0 then PopAll(gens, ids) else gens
  }

  /** Reporting the same requests finished twice changes nothing the second time. */
  lemma CleanUpIdempotent<G>(gens: map<RequestId, G>, finished: Options.Option<seq<RequestId>>)
    ensures CleanUp(CleanUp(gens, finished), finished) == CleanUp(gens, finished)
  {
  }

  /** Two cleanups in a row equal one cleanup of both id lists together. */
  lemma CleanUpSequential<G>(gens: map<RequestId, G>, first: seq<RequestId>, second: seq<RequestId>)
    ensures CleanUp(CleanUp(gens, Options.Some(first)), Options.Some(second))
            == CleanUp(gens, Options.Some(first + second))
  {
  }

  /** A generator seeded for a request is gone once that request is reported
      finished, and the rest of the registry is as if it had never been seeded. */
  lemma SeededThenFinished<G>(gens: map<RequestId, G>, id: RequestId, generator: G)
    requires id !in gens
    ensures CleanUp(gens[id := generator], Options.Some([id])) == gens
  {
  }

  /** The model runner's registry, held as one owned map. */
  class ModelRunner<G> {

    var generators: map<RequestId, G>

    constructor ()
      ensures generators == map[]
    {
      generators := map[];
    }

    /** `get_generators`: clean up first, then hand back the live registry. */
    method GetGenerators(finished: Options.Option<seq<RequestId>>) returns (gens: map<RequestId, G>)
      modifies this
      ensures generators == CleanUp(old(generators), finished)
      ensures gens == generators
    {
      generators := CleanUp(generators, finished);
      gens := generators;
    }
  }
}
