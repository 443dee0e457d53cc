/** The adapter and cache factory registries: every factory service tagged
    `oneup_flysystem.adapter_factory` (or `.cache_factory`) is stored under its key
    with `-` replaced by `_`. */
module Registry {

  /** A tagged factory service: its service id and what its getKey() returns. */
  datatype Factory = Factory(service: string, key: string)

  /** str_replace('-', '_', key). */
  function NormalizeKey(key: string): (r: string)
    ensures |r| == |key| && '-' !in r
    ensures forall i | 0 <= i < |key| :: r[i] == (if key[i] == '-' then '_' else key[i])
  {
    if key == [] then []
    else [if key[0] == '-' then '_' else key[0]] + NormalizeKey(key[1..])
  }

  /** Normalising twice changes nothing more. */
  lemma NormalizeKeyIdempotent(key: string)
    ensures NormalizeKey(NormalizeKey(key)) == NormalizeKey(key)
  {
  }

  /** The registry built from `factories`, in order, on top of `registry`: a later
      factory overwrites an earlier one with the same normalised key. */
  function Register(factories: seq<Factory>, registry: map<string, Factory>): map<string, Factory>
    decreases |factories|
  {
    if factories == [] then registry
    else Register(factories[1..], registry[NormalizeKey(factories[0].key) := factories[0]])
  }

  /** The registry's keys are the keys it started with and the normalised keys of the factories. */
  lemma {:induction false} RegisterKeys(factories: seq<Factory>, registry: map<string, Factory>)
    ensures Register(factories, registry).Keys ==
            registry.Keys + set i | 0 <= i < |factories| :: NormalizeKey(factories[i].key)
  {
    if factories != [] {
      var rest := factories[1..];
      RegisterKeys(rest, registry[NormalizeKey(factories[0].key) := factories[0]]);
      NormalizedKeysSplit(factories);
    }
  }

  lemma NormalizedKeysSplit(factories: seq<Factory>)
    requires factories != []
    ensures (set i | 0 <= i < |factories| :: NormalizeKey(factories[i].key)) ==
            {NormalizeKey(factories[0].key)} + set i | 0 <= i < |factories[1..]| :: NormalizeKey(factories[1..][i].key)
  {
    var rest := factories[1..];
    var all := set i | 0 <= i < |factories| :: NormalizeKey(factories[i].key);
    var later := set i | 0 <= i < |rest| :: NormalizeKey(rest[i].key);
    forall k | k in all ensures k in {NormalizeKey(factories[0].key)} + later {
      var i :| 0 <= i < |factories| && k == NormalizeKey(factories[i].key);
      if i > 0 { assert k == NormalizeKey(rest[i - 1].key); }
    }
    forall k | k in later ensures k in all {
      var i :| 0 <= i < |rest| && k == NormalizeKey(rest[i].key);
      assert k == NormalizeKey(factories[i + 1].key);
    }
  }

  /** The factory stored under a key is the LAST factory whose key normalises to it. */
  lemma {:induction false} RegisterLastWins(factories: seq<Factory>, registry: map<string, Factory>, i: nat)
    requires i < |factories|
    requires forall j | i < j < |factories| :: NormalizeKey(factories[j].key) != NormalizeKey(factories[i].key)
    ensures NormalizeKey(factories[i].key) in Register(factories, registry)
    ensures Register(factories, registry)[NormalizeKey(factories[i].key)] == factories[i]
  {
    var rest := factories[1..];
    var next := registry[NormalizeKey(factories[0].key) := factories[0]];
    if i == 0 {
      RegisterUntouched(rest, next, NormalizeKey(factories[0].key));
    } else {
      RegisterLastWins(rest, next, i - 1);
    }
  }

  /** A key no factory normalises to keeps the entry it started with. */
  lemma {:induction false} RegisterUntouched(factories: seq<Factory>, registry: map<string, Factory>, k: string)
    requires k in registry
    requires forall j | 0 <= j < |factories| :: NormalizeKey(factories[j].key) != k
    ensures k in Register(factories, registry) && Register(factories, registry)[k] == registry[k]
  {
    if factories != [] {
      var rest := factories[1..];
      assert forall j | 0 <= j < |rest| :: NormalizeKey(rest[j].key) != k by {
        forall j | 0 <= j < |rest| ensures NormalizeKey(rest[j].key) != k {
          assert rest[j] == factories[j + 1];
        }
      }
      RegisterUntouched(rest, registry[NormalizeKey(factories[0].key) := factories[0]], k);
    }
  }

  /** The loop of getAdapterFactories/getCacheFactories over the tagged factory services. */
  method BuildRegistry(tagged: seq<Factory>) returns (registry: map<string, Factory>)
    ensures registry == Register(tagged, map[])
  {
    registry := map[];
    var i := 0;
    while i < |tagged|
      invariant 0 <= i <= |tagged|
      invariant Register(tagged[i..], registry) == Register(tagged, map[])
    {
      assert tagged[i..][1..] == tagged[i + 1..];
      registry := registry[NormalizeKey(tagged[i].key) := tagged[i]];
      i := i + 1;
    }
  }
}
