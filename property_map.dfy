/**
 * Property maps: ordered tables from camelCase property names to the
 * lower-case wire keys of the service.
 */
module PropertyMaps {
  import opened PhpValues

  /** A PHP associative array in insertion order: property name => wire key. */
  type Entries = seq<(string, string)>

  /** The table of API-key objects: both properties keep their names on the wire. */
  const API_KEY_MAP: Entries := [("key", "key"), ("active", "active")]

  predicate DistinctProperties(m: Entries) {
    forall i, j | 0 <= i < j < |m| :: m[i].0 != m[j].0
  }

  predicate DistinctWireKeys(m: Entries) {
    forall i, j | 0 <= i < j < |m| :: m[i].1 != m[j].1
  }

  /** The wire key stored under property `p`, if any. */
  function Lookup(m: Entries, p: string): (r: Option<string>)
    ensures r.None? <==> forall i | 0 <= i < |m| :: m[i].0 != p
    ensures r.Some? ==> exists i | 0 <= i < |m| :: m[i] == (p, r.value)
  {
    if m == [] then None
    else if m[0].0 == p then Some(m[0].1)
    else Lookup(m[1..], p)
  }

  /** The table read backwards: wire key => property name. */
  function Invert(m: Entries): (r: Entries)
    ensures |r| == |m|
    ensures forall i | 0 <= i < |m| :: r[i] == (m[i].1, m[i].0)
  {
    seq(|m|, i requires 0 <= i < |m| => (m[i].1, m[i].0))
  }

  /**
   * A table that is injective both ways is invertible: `p` maps to `w`
   * exactly when the inverted table maps `w` back to `p`.
   */
  lemma LookupInvert(m: Entries, p: string, w: string)
    requires DistinctProperties(m) && DistinctWireKeys(m)
    ensures Lookup(m, p) == Some(w) <==> Lookup(Invert(m), w) == Some(p)
  {
  }

  /**
   * The API-key table names exactly `key` and `active`, renames neither, has
   * no repeated property or wire key, and is its own inverse.
   */
  lemma ApiKeyMapIsIdentity(p: string)
    ensures Lookup(API_KEY_MAP, p).Some? <==> p == "key" || p == "active"
    ensures Lookup(API_KEY_MAP, p).Some? ==> Lookup(API_KEY_MAP, p).value == p
    ensures DistinctProperties(API_KEY_MAP) && DistinctWireKeys(API_KEY_MAP)
    ensures Invert(API_KEY_MAP) == API_KEY_MAP
  {
  }

  /**
   * A property map. The anonymous constructor is the abstract base's initial
   * state; `ApiKey` is the concrete API-key map.
   */
  class PropertyMap {
    var mapping: Entries

    constructor()
      ensures mapping == []
    {
      mapping := [];
    }

    constructor ApiKey()
      ensures mapping == API_KEY_MAP
    {
      mapping := [];
      new;
      var self := SetMap(API_KEY_MAP);
    }

    /** `getMap`: reads the table and changes nothing. */
    method GetMap() returns (m: Entries)
      ensures m == mapping
    {
      m := mapping;
    }

    /** `setMap`: replaces the whole table and returns this map, for chaining. */
    method SetMap(m: Entries) returns (self: PropertyMap)
      modifies this
      ensures mapping == m
      ensures self == this
    {
      mapping := m;
      self := this;
    }
  }
}
