/**
 * Cache-key construction (src/utils.rs `get_redis_id`) and the route
 * prefixes each cached entity type uses (the `PREFIX` constant of each file
 * under src/routes/).
 */
module Keys {

  /** `format!("{}_{}", route, id)`: the prefix, one underscore, the id. */
  function RedisId(route: string, id: string): (key: string)
    ensures |key| == |route| + 1 + |id|
    ensures key[..|route|] == route
    ensures key[|route|] == '_'
    ensures key[|route| + 1..] == id
  {
    route + "_" + id
  }

  /** The entity types whose rows the routes cache. */
  datatype Kind = HomeKind | ApplicationKind | SensorKind | DataContainerKind | SubscriberKind

  /** The `PREFIX` constant of the route file serving each kind. */
  function Prefix(kind: Kind): string
  {
    match kind
    case HomeKind => "Home"
    case ApplicationKind => "Application"
    case SensorKind => "Sensor"
    case DataContainerKind => "DataContainer"
    case SubscriberKind => "Subscriber"
  }

  /** The key under which a row of `kind` with primary key `id` is cached. */
  function Key(kind: Kind, id: string): string
  {
    RedisId(Prefix(kind), id)
  }

  /** For one fixed prefix, distinct ids give distinct keys. */
  lemma RedisIdInjectiveInId(route: string, a: string, b: string)
    ensures RedisId(route, a) == RedisId(route, b) <==> a == b
  {
  }

  /** The first underscore of a key whose prefix has none sits right after the prefix. */
  lemma {:induction false} ShorterPrefixSeesSeparator(r1: string, i1: string, r2: string, i2: string)
    requires RedisId(r1, i1) == RedisId(r2, i2)
    requires |r1| < |r2|
    ensures '_' in r2
  {
    var key := RedisId(r1, i1);
    assert key[..|r2|] == r2;
    assert r2[|r1|] == key[|r1|] == '_';
  }

  /**
   * When neither prefix contains `_`, a key determines both its prefix and
   * its id: the pair (prefix, id) can be read back from the key.
   */
  lemma {:induction false} RedisIdInjective(r1: string, i1: string, r2: string, i2: string)
    requires '_' !in r1 && '_' !in r2
    ensures RedisId(r1, i1) == RedisId(r2, i2) <==> r1 == r2 && i1 == i2
  {
    if RedisId(r1, i1) == RedisId(r2, i2) {
      if |r1| < |r2| {
        ShorterPrefixSeesSeparator(r1, i1, r2, i2);
      } else if |r2| < |r1| {
        ShorterPrefixSeesSeparator(r2, i2, r1, i1);
      }
      var key := RedisId(r1, i1);
      assert r1 == key[..|r1|] == r2;
    }
  }

  /** Without the no-underscore condition keys can collide: nanoid ids may contain `_`. */
  lemma PrefixWithSeparatorCollides()
    ensures RedisId("a_b", "c") == RedisId("a", "b_c")
  {
  }

  /** No route prefix contains the separator, so the key function is injective over (kind, id). */
  lemma {:induction false} KeyInjective(k1: Kind, i1: string, k2: Kind, i2: string)
    ensures Key(k1, i1) == Key(k2, i2) <==> k1 == k2 && i1 == i2
  {
    assert '_' !in Prefix(k1) && '_' !in Prefix(k2) by {
      assert forall k: Kind :: '_' !in Prefix(k) by {
        assert '_' !in "Home" && '_' !in "Application" && '_' !in "Sensor";
        assert '_' !in "DataContainer" && '_' !in "Subscriber";
      }
    }
    RedisIdInjective(Prefix(k1), i1, Prefix(k2), i2);
    assert Prefix(k1) == Prefix(k2) ==> k1 == k2;
  }

  /** Two keys built for different kinds never coincide, whatever the ids. */
  lemma {:induction false} KindsNeverShareKeys(k1: Kind, k2: Kind, i1: string, i2: string)
    requires k1 != k2
    ensures Key(k1, i1) != Key(k2, i2)
  {
    KeyInjective(k1, i1, k2, i2);
  }
}
