/** The capability index of the plugin host (crates/yunxi-plugin-host/src/catalog.rs). */
module CapabilityCatalog {
  import opened Wrappers

  type PluginId = string
  type CapabilityId = string

  datatype Capability = Capability(id: CapabilityId, version: nat)

  datatype CatalogError = DuplicatePlugin | DuplicateCapability | MissingCapability | AmbiguousCapability

  type CatalogResult<T> = Result<T, CatalogError>

  predicate Declares(capabilities: seq<Capability>, c: CapabilityId) {
    exists k :: 0 <= k < |capabilities| && capabilities[k].id == c
  }

  predicate DistinctCapabilities(capabilities: seq<Capability>) {
    forall j, k :: 0 <= j < k < |capabilities| ==> capabilities[j].id != capabilities[k].id
  }

  /** The plugins that declare `c`. */
  ghost function DeclarersOf(plugins: map<PluginId, seq<Capability>>, c: CapabilityId): set<PluginId> {
    set p | p in plugins && Declares(plugins[p], c)
  }

  /** The index says what the table says: per capability exactly the plugins that declare
      it, and no entry for a capability that nobody declares. */
  ghost predicate ExactIndex(plugins: map<PluginId, seq<Capability>>, providers: map<CapabilityId, set<PluginId>>) {
    forall c :: Indexed(plugins, providers, c)
  }

  ghost predicate Indexed(plugins: map<PluginId, seq<Capability>>, providers: map<CapabilityId, set<PluginId>>,
                          c: CapabilityId)
  {
    && (c in providers <==> DeclarersOf(plugins, c) != {})
    && (c in providers ==> providers[c] == DeclarersOf(plugins, c))
  }

  /** So the table determines the index, and removing a plugin undoes adding it. */
  lemma IndexIsDetermined(plugins: map<PluginId, seq<Capability>>,
                          one: map<CapabilityId, set<PluginId>>, two: map<CapabilityId, set<PluginId>>)
    requires ExactIndex(plugins, one) && ExactIndex(plugins, two)
    ensures one == two
  {
    forall c ensures (c in one <==> c in two) && (c in one ==> one[c] == two[c]) {
      assert Indexed(plugins, one, c) && Indexed(plugins, two, c);
    }
  }

  predicate Offers(capabilities: seq<Capability>, c: CapabilityId, version: nat) {
    exists k :: 0 <= k < |capabilities| && capabilities[k] == Capability(c, version)
  }

  class Catalog {
    var plugins: map<PluginId, seq<Capability>>
    var providers: map<CapabilityId, set<PluginId>>

    ghost predicate Valid()
      reads this
    {
      ExactIndex(plugins, providers)
    }

    constructor ()
      ensures Valid() && plugins == map[]
    {
      plugins, providers := map[], map[];
    }

    /** How the index stands after the first `k` capabilities of `id` went in. */
    ghost predicate Inserted(before: map<CapabilityId, set<PluginId>>, id: PluginId, capabilities: seq<Capability>,
                             k: nat)
      requires k <= |capabilities|
      reads this`providers
    {
      forall c ::
        if Declares(capabilities[..k], c) then
          c in providers && providers[c] == (if c in before then before[c] else {}) + {id}
        else
          (c in providers <==> c in before) && (c in providers ==> providers[c] == before[c])
    }

    lemma DeclaresMore(capabilities: seq<Capability>, k: nat, c: CapabilityId)
      requires k < |capabilities|
      ensures Declares(capabilities[..k + 1], c) <==> Declares(capabilities[..k], c) || capabilities[k].id == c
    {
      var more, few := capabilities[..k + 1], capabilities[..k];
      if Declares(few, c) {
        var j :| 0 <= j < |few| && few[j].id == c;
        assert more[j].id == c;
      }
      if capabilities[k].id == c {
        assert more[k].id == c;
      }
    }

    /** The duplicate check, with a set of the ids seen so far. */
    method AreDistinct(capabilities: seq<Capability>) returns (distinct: bool)
      ensures distinct <==> DistinctCapabilities(capabilities)
    {
      var unique: set<CapabilityId> := {};
      for k := 0 to |capabilities|
        invariant forall i, j :: 0 <= i < j < k ==> capabilities[i].id != capabilities[j].id
        invariant forall c :: c in unique <==> exists j :: 0 <= j < k && capabilities[j].id == c
      {
        if capabilities[k].id in unique {
          return false;
        }
        unique := unique + {capabilities[k].id};
      }
      return true;
    }

    /** Adds the plugin to the providers of each of its capabilities. */
    method InsertProviders(id: PluginId, capabilities: seq<Capability>)
      modifies `providers
      ensures Inserted(old(providers), id, capabilities, |capabilities|)
    {
      for k := 0 to |capabilities|
        invariant Inserted(old(providers), id, capabilities, k)
      {
        var c := capabilities[k].id;
        forall d ensures Declares(capabilities[..k + 1], d) <==> Declares(capabilities[..k], d) || d == c {
          DeclaresMore(capabilities, k, d);
        }
        providers := providers[c := (if c in providers then providers[c] else {}) + {id}];
      }
    }

    method Register(id: PluginId, capabilities: seq<Capability>) returns (result: CatalogResult<()>)
      requires Valid()
      modifies this
      ensures Valid()
      ensures result.Ok? <==> id !in old(plugins) && DistinctCapabilities(capabilities)
      ensures plugins == if result.Ok? then old(plugins)[id := capabilities] else old(plugins)
      ensures result.Err? ==> providers == old(providers)
    {
      if id in plugins {
        return Err(DuplicatePlugin);
      }
      var distinct := AreDistinct(capabilities);
      if !distinct {
        return Err(DuplicateCapability);
      }
      ghost var before := providers;
      InsertProviders(id, capabilities);
      RegisteredIndex(before, id, capabilities);
      plugins := plugins[id := capabilities];
      return Ok(());
    }

    lemma RegisteredIndex(before: map<CapabilityId, set<PluginId>>, id: PluginId, capabilities: seq<Capability>)
      requires ExactIndex(plugins, before) && id !in plugins && Inserted(before, id, capabilities, |capabilities|)
      ensures ExactIndex(plugins[id := capabilities], providers)
    {
      var more := plugins[id := capabilities];
      assert capabilities[..|capabilities|] == capabilities;
      forall c ensures Indexed(more, providers, c) {
        assert Indexed(plugins, before, c);
        if Declares(capabilities, c) {
          assert DeclarersOf(more, c) == DeclarersOf(plugins, c) + {id};
        } else {
          assert DeclarersOf(more, c) == DeclarersOf(plugins, c);
        }
      }
    }

    /** How the index stands after the first `k` capabilities of `id` went out. */
    ghost predicate Removed(before: map<CapabilityId, set<PluginId>>, id: PluginId, capabilities: seq<Capability>,
                            k: nat)
      requires k <= |capabilities|
      reads this`providers
    {
      forall c ::
        if Declares(capabilities[..k], c) then
          (c in providers <==> c in before && before[c] != {id})
          && (c in providers ==> providers[c] == before[c] - {id})
        else
          (c in providers <==> c in before) && (c in providers ==> providers[c] == before[c])
    }

    method Unregister(id: PluginId)
      requires Valid()
      modifies this
      ensures Valid() && plugins == old(plugins) - {id}
    {
      if id !in plugins {
        return;
      }
      var capabilities := plugins[id];
      ghost var before, table := providers, plugins;
      plugins := plugins - {id};
      forall c ensures c in before ==> before[c] != {} {
        assert Indexed(table, before, c);
      }
      for k := 0 to |capabilities|
        invariant Removed(before, id, capabilities, k) && plugins == table - {id}
      {
        var c := capabilities[k].id;
        forall d ensures Declares(capabilities[..k + 1], d) <==> Declares(capabilities[..k], d) || d == c {
          DeclaresMore(capabilities, k, d);
        }
        if c in providers {
          var rest := providers[c] - {id};
          providers := if rest == {} then providers - {c} else providers[c := rest];
        }
      }
      UnregisteredIndex(table, before, id);
    }

    lemma UnregisteredIndex(table: map<PluginId, seq<Capability>>, before: map<CapabilityId, set<PluginId>>,
                            id: PluginId)
      requires id in table && ExactIndex(table, before) && Removed(before, id, table[id], |table[id]|)
      ensures ExactIndex(table - {id}, providers)
    {
      var less, capabilities := table - {id}, table[id];
      assert capabilities[..|capabilities|] == capabilities;
      forall c ensures Indexed(less, providers, c) {
        assert Indexed(table, before, c);
        assert DeclarersOf(less, c) == DeclarersOf(table, c) - {id};
        if Declares(capabilities, c) {
          assert id in DeclarersOf(table, c);
        }
      }
    }

    /** The registered plugins that offer this very version. */
    ghost function Providers(c: CapabilityId, version: nat): set<PluginId>
      reads this
    {
      set p | p in plugins && Offers(plugins[p], c, version)
    }

    /** `providers` looks only at the indexed plugins, and loses none by that. */
    method ProvidersOf(c: CapabilityId, version: nat) returns (found: set<PluginId>)
      requires Valid()
      ensures found == Providers(c, version)
    {
      var indexed := if c in providers then providers[c] else {};
      found := set p | p in indexed && p in plugins && Offers(plugins[p], c, version);
      forall p | p in Providers(c, version) ensures p in found {
        var k :| 0 <= k < |plugins[p]| && plugins[p][k] == Capability(c, version);
        assert Declares(plugins[p], c);
        assert p in DeclarersOf(plugins, c) && Indexed(plugins, providers, c);
      }
    }

    method ResolveUnique(c: CapabilityId, version: nat) returns (result: CatalogResult<PluginId>)
      requires Valid()
      ensures result.Ok? <==> exists p :: Providers(c, version) == {p}
      ensures result.Ok? ==> Providers(c, version) == {result.value}
      ensures result == Err(MissingCapability) <==> Providers(c, version) == {}
      ensures result.Err? ==> result.error in {MissingCapability, AmbiguousCapability}
    {
      var found := ProvidersOf(c, version);
      if found == {} {
        return Err(MissingCapability);
      }
      var p :| p in found;
      if found == {p} {
        return Ok(p);
      }
      return Err(AmbiguousCapability);
    }
  }

  /** Registering a plugin and taking it out again leaves the catalog as it was. */
  method RegisterThenUnregister(catalog: Catalog, id: PluginId, capabilities: seq<Capability>)
    requires catalog.Valid() && id !in catalog.plugins
    modifies catalog
    ensures catalog.plugins == old(catalog.plugins) && catalog.providers == old(catalog.providers)
  {
    var _ := catalog.Register(id, capabilities);
    catalog.Unregister(id);
    assert catalog.plugins == old(catalog.plugins);
    IndexIsDetermined(catalog.plugins, catalog.providers, old(catalog.providers));
  }
}
