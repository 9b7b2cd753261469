/**
 * Property groups (Spring's `PropertySource`s as decoded from one YAML document) and the
 * environment's ordered chain of them, read with first-match-wins lookup.
 */
module PropertySources {
  import opened Wrappers

  /** One decoded YAML document: the name the loader gave it and its flattened key/value pairs. */
  datatype PropertyGroup = PropertyGroup(name: string, properties: map<string, string>)

  /** The reserved key that restricts a group to one profile. */
  const OnProfileKey := "spring.config.activate.on-profile"

  /** `ps.getProperty("spring.config.activate.on-profile")`, an absent key being `null`. */
  function Marker(g: PropertyGroup): Option<string>
  {
    if OnProfileKey in g.properties then Some(g.properties[OnProfileKey]) else None
  }

  /** Group `i` is the first group of `chain` that defines `key`. */
  predicate FirstDefining(chain: seq<PropertyGroup>, key: string, i: int)
  {
    0 <= i < |chain| && key in chain[i].properties &&
    forall j | 0 <= j < i :: key !in chain[j].properties
  }

  /** The value a reader of the environment sees for `key`: the first group that defines it wins. */
  function Lookup(chain: seq<PropertyGroup>, key: string): (r: Option<string>)
    ensures r.None? <==> forall i | 0 <= i < |chain| :: key !in chain[i].properties
    ensures r.Some? ==> exists i :: FirstDefining(chain, key, i) && r.value == chain[i].properties[key]
  {
    if chain == [] then None
    else if key in chain[0].properties then
      assert FirstDefining(chain, key, 0);
      Some(chain[0].properties[key])
    else
      var r := Lookup(chain[1..], key);
      assert forall i | 0 < i < |chain| :: chain[i] == chain[1..][i - 1];
      assert r.Some? ==> exists i :: FirstDefining(chain, key, i) && r.value == chain[i].properties[key] by {
        if r.Some? {
          var i :| FirstDefining(chain[1..], key, i) && r.value == chain[1..][i].properties[key];
          assert FirstDefining(chain, key, i + 1);
        }
      }
      r
  }

  /** `environment.getProperty(key, default)` over `chain`. */
  function PropertyOr(chain: seq<PropertyGroup>, key: string, default: string): string
  {
    Lookup(chain, key).GetOr(default)
  }

  /**
   * Appending groups at the tail never changes what a key already defined reads as;
   * a key the old chain lacks reads as it does in the appended groups.
   */
  lemma {:induction false} LookupAppend(chain: seq<PropertyGroup>, more: seq<PropertyGroup>, key: string)
    ensures Lookup(chain + more, key) == if Lookup(chain, key).Some? then Lookup(chain, key) else Lookup(more, key)
  {
    if chain != [] {
      assert (chain + more)[1..] == chain[1..] + more;
      LookupAppend(chain[1..], more, key);
    } else {
      assert chain + more == more;
    }
  }

  /**
   * Spring's `ConfigurableEnvironment` as far as the loader uses it: the active profiles,
   * fixed for the run, and the mutable chain of property sources.
   */
  class Environment {
    const activeProfiles: seq<string>
    var propertySources: seq<PropertyGroup>

    constructor (profiles: seq<string>, sources: seq<PropertyGroup>)
      ensures activeProfiles == profiles && propertySources == sources
    {
      activeProfiles := profiles;
      propertySources := sources;
    }

    /** `getProperty(key, default)`: first match over the chain, else the default. */
    function GetProperty(key: string, default: string): string
      reads this
    {
      PropertyOr(propertySources, key, default)
    }

    /** `getPropertySources().addLast(g)` */
    method AddLast(g: PropertyGroup)
      modifies this
      ensures propertySources == old(propertySources) + [g]
    {
      propertySources := propertySources + [g];
    }
  }
}
