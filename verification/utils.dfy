/** The loader and the registry builder of the wiring layer
    (src/guga_agent/utils.py). */
module Utils {
  import opened Values

  /** Load a configuration file: the parsed document when the path exists,
      a not-found error naming the path otherwise. `files` stands for the
      file system and the YAML parser. */
  function LoadYamlConfig<T>(files: map<string, T>, path: string): (r: Result<T>)
    ensures r.Failure? <==> path !in files
    ensures r.Failure? ==> r.error == FileNotFound(path)
    ensures r.Success? ==> r.value == files[path]
  {
    if path in files then Success(files[path]) else Failure(FileNotFound(path))
  }

  /** A mutable name-keyed table: a Python dictionary, or the attribute
      table of a class that `setattr` writes to. */
  class Table<V> {
    var items: map<string, V>

    constructor ()
      ensures items == map[]
    {
      items := map[];
    }
  }

  /** The table `m` after registering every entry of `configs` in order:
      each name is bound to the decorated product of the creator, and a
      later entry overwrites an earlier one with the same name. */
  ghost function Stored<C, F, D>(m: map<string, D>, configs: seq<(string, C)>,
                                 creator: (string, C) -> F, decorator: F -> D): map<string, D>
    decreases |configs|
  {
    if configs == [] then m
    else
      var last := configs[|configs| - 1];
      Stored(m, configs[..|configs| - 1], creator, decorator)[last.0 := decorator(creator(last.0, last.1))]
  }

  /** Registering adds exactly the configured names to the keys. */
  lemma {:induction false} StoredKeys<C, F, D>(m: map<string, D>, configs: seq<(string, C)>,
                                              creator: (string, C) -> F, decorator: F -> D)
    ensures Stored(m, configs, creator, decorator).Keys == m.Keys + Names(configs)
    decreases |configs|
  {
    if configs != [] {
      var init := configs[..|configs| - 1];
      StoredKeys(m, init, creator, decorator);
      assert Names(configs) == Names(init) + {configs[|configs| - 1].0} by {
        forall n | n in Names(configs) ensures n in Names(init) + {configs[|configs| - 1].0} {
          var i :| 0 <= i < |configs| && configs[i].0 == n;
          if i < |configs| - 1 {
            assert init[i].0 == n;
          }
        }
        forall n | n in Names(init) ensures n in Names(configs) {
          var i :| 0 <= i < |init| && init[i].0 == n;
          assert configs[i].0 == n;
        }
      }
    }
  }

  /** The entry of a name is built from the LAST config entry with that name. */
  lemma {:induction false} StoredLastWins<C, F, D>(m: map<string, D>, configs: seq<(string, C)>,
                                                  creator: (string, C) -> F, decorator: F -> D, i: nat)
    requires i < |configs|
    requires forall j :: i < j < |configs| ==> configs[j].0 != configs[i].0
    ensures configs[i].0 in Stored(m, configs, creator, decorator)
    ensures Stored(m, configs, creator, decorator)[configs[i].0] == decorator(creator(configs[i].0, configs[i].1))
    decreases |configs|
  {
    if i < |configs| - 1 {
      var init := configs[..|configs| - 1];
      StoredLastWins(m, init, creator, decorator, i);
    }
  }

  /** Names that no config entry carries keep their old binding, or stay absent. */
  lemma {:induction false} StoredFrame<C, F, D>(m: map<string, D>, configs: seq<(string, C)>,
                                               creator: (string, C) -> F, decorator: F -> D, n: string)
    requires n !in Names(configs)
    ensures n in Stored(m, configs, creator, decorator) <==> n in m
    ensures n in m ==> Stored(m, configs, creator, decorator)[n] == m[n]
    decreases |configs|
  {
    if configs != [] {
      var init := configs[..|configs| - 1];
      assert configs[|configs| - 1].0 in Names(configs);
      assert Names(init) <= Names(configs) by {
        forall k | k in Names(init) ensures k in Names(configs) {
          var i :| 0 <= i < |init| && init[i].0 == k;
          assert configs[i].0 == k;
        }
      }
      StoredFrame(m, init, creator, decorator, n);
    }
  }

  /** With distinct names (a loaded mapping), every entry is registered under its name. */
  lemma {:induction false} StoredDistinct<C, F, D>(m: map<string, D>, configs: seq<(string, C)>,
                                                  creator: (string, C) -> F, decorator: F -> D)
    requires DistinctNames(configs)
    ensures forall i :: 0 <= i < |configs| ==>
              configs[i].0 in Stored(m, configs, creator, decorator) &&
              Stored(m, configs, creator, decorator)[configs[i].0] == decorator(creator(configs[i].0, configs[i].1))
  {
    forall i | 0 <= i < |configs|
      ensures configs[i].0 in Stored(m, configs, creator, decorator)
      ensures Stored(m, configs, creator, decorator)[configs[i].0] == decorator(creator(configs[i].0, configs[i].1))
    {
      StoredLastWins(m, configs, creator, decorator, i);
    }
  }

  /** Every binding either was there before or comes from some config entry. */
  lemma {:induction false} StoredOrigin<C, F, D>(m: map<string, D>, configs: seq<(string, C)>,
                                                creator: (string, C) -> F, decorator: F -> D, n: string)
    requires n in Stored(m, configs, creator, decorator)
    ensures (n in m && Stored(m, configs, creator, decorator)[n] == m[n]) ||
            exists i :: 0 <= i < |configs| && configs[i].0 == n &&
                        Stored(m, configs, creator, decorator)[n] == decorator(creator(n, configs[i].1))
    decreases |configs|
  {
    if configs != [] {
      var init := configs[..|configs| - 1];
      var k := |configs| - 1;
      if configs[k].0 != n {
        StoredOrigin(m, init, creator, decorator, n);
        if !(n in m && Stored(m, init, creator, decorator)[n] == m[n]) {
          var i :| 0 <= i < |init| && init[i].0 == n &&
                   Stored(m, init, creator, decorator)[n] == decorator(creator(n, init[i].1));
          assert configs[i] == init[i];
        }
      }
    }
  }

  /** The binding of a configured name depends only on the configs, not on
      what the table held before. */
  lemma {:induction false} StoredOverrides<C, F, D>(m: map<string, D>, m': map<string, D>, configs: seq<(string, C)>,
                                                   creator: (string, C) -> F, decorator: F -> D, n: string)
    requires n in Names(configs)
    ensures n in Stored(m, configs, creator, decorator) && n in Stored(m', configs, creator, decorator)
    ensures Stored(m, configs, creator, decorator)[n] == Stored(m', configs, creator, decorator)[n]
    decreases |configs|
  {
    var init := configs[..|configs| - 1];
    if configs[|configs| - 1].0 != n {
      var i :| 0 <= i < |configs| && configs[i].0 == n;
      assert init[i].0 == n;
      StoredOverrides(m, m', init, creator, decorator, n);
    }
  }

  /** Register one decorated product of `creator` per entry of `configs`,
      in order, both in `storage` and as a member of the class table `cls`.
      `calls` records the creator's invocations. */
  method CreateMethods<C, F, D>(configs: seq<(string, C)>, creator: (string, C) -> F,
                                storage: Table<D>, decorator: F -> D, cls: Table<D>)
      returns (ghost calls: seq<(string, F)>)
    modifies storage, cls
    ensures storage.items == Stored(old(storage.items), configs, creator, decorator)
    ensures cls.items == Stored(old(cls.items), configs, creator, decorator)
    ensures forall n :: n in Names(configs) ==> n in storage.items && n in cls.items && cls.items[n] == storage.items[n]
    ensures |calls| == |configs|
    ensures forall k :: 0 <= k < |configs| ==> calls[k] == (configs[k].0, creator(configs[k].0, configs[k].1))
  {
    calls := [];
    var i := 0;
    while i < |configs|
      invariant 0 <= i <= |configs|
      invariant storage.items == Stored(old(storage.items), configs[..i], creator, decorator)
      invariant cls.items == Stored(old(cls.items), configs[..i], creator, decorator)
      invariant |calls| == i
      invariant forall k :: 0 <= k < i ==> calls[k] == (configs[k].0, creator(configs[k].0, configs[k].1))
    {
      var (name, config) := configs[i];
      var created := creator(name, config);
      var decorated := decorator(created);
      cls.items := cls.items[name := decorated];
      storage.items := storage.items[name := decorated];
      calls := calls + [(name, created)];
      assert configs[..i + 1][..i] == configs[..i];
      i := i + 1;
    }
    assert configs[..i] == configs;
    forall n | n in Names(configs)
      ensures n in storage.items && n in cls.items && cls.items[n] == storage.items[n]
    {
      StoredOverrides(old(storage.items), old(cls.items), configs, creator, decorator, n);
    }
  }
}
