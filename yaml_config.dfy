/**
 * The loaded YAML configuration and its nested-key lookup
 * `YamlConfig.get(*keys, default=None)`.
 */
module YamlConfigs {
  import opened Wrappers
  import opened JsonValue

  /** The empty dict `{}` that a missing intermediate key reads as. */
  const EmptyDict: Json := JObj(map[])

  /**
   * What `get` returns or raises. No config loaded, or an empty one, is a
   * ValueError; no keys at all is an IndexError (`args[-1]`); otherwise the
   * keys are walked from the first, stopping at the first one equal to the
   * last key.
   */
  function Lookup(config: Json, keys: seq<string>, default: Json): Result<Json>
  {
    if !Truthy(config) then Err(ValueError)
    else if keys == [] then Err(IndexError)
    else Descend(config, keys, keys[|keys| - 1], default)
  }

  /**
   * The loop of `get` from `nest` over the remaining `keys`: a key other than
   * `last` descends with `.get(key, {})`, the first key equal to `last`
   * answers with `.get(key, default)`. `.get` on anything but a dict raises
   * AttributeError. Running out of keys falls off the end of the method and
   * returns None.
   */
  function Descend(nest: Json, keys: seq<string>, last: string, default: Json): Result<Json>
    decreases |keys|
  {
    if keys == [] then Ok(JNull)
    else if !nest.JObj? then Err(AttributeError)
    else if keys[0] != last then Descend(GetOr(nest.fields, keys[0], EmptyDict), keys[1..], last, default)
    else Ok(GetOr(nest.fields, keys[0], default))
  }

  /**
   * Reference reading of a key path: descend through every key but the last
   * (a missing level reads as `{}`), then look the last key up with the
   * default.
   */
  function NestedGet(nest: Json, keys: seq<string>, default: Json): Result<Json>
    requires keys != []
    decreases |keys|
  {
    if !nest.JObj? then Err(AttributeError)
    else if |keys| == 1 then Ok(GetOr(nest.fields, keys[0], default))
    else NestedGet(GetOr(nest.fields, keys[0], EmptyDict), keys[1..], default)
  }

  class YamlConfig {
    /** `self.config`: None until a file has been read. */
    var config: Json

    constructor ()
      ensures config == JNull
    {
      config := JNull;
    }

    /** `read(filepath)`: the document the YAML loader produced becomes the config. */
    method Read(loaded: Json)
      modifies this
      ensures config == loaded
    {
      config := loaded;
    }

    /** `get(*keys, default=default)`. */
    method Get(keys: seq<string>, default: Json) returns (r: Result<Json>)
      ensures r == Lookup(config, keys, default)
    {
      if !Truthy(config) {
        return Err(ValueError);
      }
      if |keys| == 0 {
        return Err(IndexError);
      }
      var last := keys[|keys| - 1];
      var nest := config;
      var i := 0;
      while i < |keys|
        invariant 0 <= i <= |keys|
        invariant Descend(nest, keys[i..], last, default) == Lookup(config, keys, default)
      {
        if !nest.JObj? {
          return Err(AttributeError);
        }
        var key := keys[i];
        if key != last {
          nest := GetOr(nest.fields, key, EmptyDict);
        } else {
          return Ok(GetOr(nest.fields, key, default));
        }
        assert keys[i..][1..] == keys[i + 1..];
        i := i + 1;
      }
      return Ok(JNull);
    }
  }

  /** The walk itself never raises ValueError or IndexError; only a dict-less level raises, with AttributeError. */
  lemma {:induction false} DescendRaisesOnlyAttributeError(nest: Json, keys: seq<string>, last: string, default: Json)
    ensures Descend(nest, keys, last, default).Err? ==> Descend(nest, keys, last, default).error == AttributeError
    decreases |keys|
  {
    if keys != [] && nest.JObj? && keys[0] != last {
      DescendRaisesOnlyAttributeError(GetOr(nest.fields, keys[0], EmptyDict), keys[1..], last, default);
    }
  }

  /** ValueError exactly when no config or an empty one is loaded; IndexError exactly when a loaded config is asked for no keys. */
  lemma LookupErrors(config: Json, keys: seq<string>, default: Json)
    ensures Lookup(config, keys, default) == Err(ValueError) <==> !Truthy(config)
    ensures Lookup(config, keys, default) == Err(IndexError) <==> Truthy(config) && keys == []
  {
    if Truthy(config) && keys != [] {
      DescendRaisesOnlyAttributeError(config, keys, keys[|keys| - 1], default);
    }
  }

  /** One key reads the top level: `config.get(key, default)`. */
  lemma SingleKey(fields: map<string, Json>, key: string, default: Json)
    requires fields != map[]
    ensures Lookup(JObj(fields), [key], default) == Ok(GetOr(fields, key, default))
  {
  }

  /** Walking `{}` down to a key equal to `last` gives the default. */
  lemma {:induction false} DescendEmpty(keys: seq<string>, last: string, default: Json)
    requires last in keys
    ensures Descend(EmptyDict, keys, last, default) == Ok(default)
    decreases |keys|
  {
    if keys[0] != last {
      DescendEmpty(keys[1..], last, default);
    }
  }

  /** A missing intermediate key makes the lookup answer the default, whatever keys follow. */
  lemma MissingIntermediateGivesDefault(fields: map<string, Json>, keys: seq<string>, default: Json)
    requires fields != map[]
    requires |keys| >= 2 && keys[0] != keys[|keys| - 1] && keys[0] !in fields
    ensures Lookup(JObj(fields), keys, default) == Ok(default)
  {
    assert keys[1..][|keys| - 2] == keys[|keys| - 1];
    DescendEmpty(keys[1..], keys[|keys| - 1], default);
  }

  /** Once a key equal to `last` is reached, the keys after it are never looked at. */
  lemma {:induction false} DescendStopsAtLast(nest: Json, keys: seq<string>, last: string, default: Json, j: int)
    requires 0 <= j < |keys| && keys[j] == last
    ensures Descend(nest, keys, last, default) == Descend(nest, keys[..j + 1], last, default)
    decreases |keys|
  {
    if nest.JObj? && keys[0] != last {
      assert keys[..j + 1][1..] == keys[1..][..j];
      DescendStopsAtLast(GetOr(nest.fields, keys[0], EmptyDict), keys[1..], last, default, j - 1);
    }
  }

  /** An earlier copy of the last key answers the lookup: `get(a, b, a)` is `get(a)`. */
  lemma EarlyLastKeyShortCircuits(config: Json, keys: seq<string>, default: Json, j: int)
    requires 0 <= j < |keys| && keys[j] == keys[|keys| - 1]
    ensures Lookup(config, keys, default) == Lookup(config, keys[..j + 1], default)
  {
    if Truthy(config) {
      DescendStopsAtLast(config, keys, keys[|keys| - 1], default, j);
    }
  }

  /** Without an earlier copy of the last key, the walk is the plain key-path reading. */
  lemma {:induction false} DescendIsNestedGet(nest: Json, keys: seq<string>, default: Json)
    requires keys != [] && keys[|keys| - 1] !in keys[..|keys| - 1]
    ensures Descend(nest, keys, keys[|keys| - 1], default) == NestedGet(nest, keys, default)
    decreases |keys|
  {
    if nest.JObj? && |keys| > 1 {
      var rest := keys[1..];
      assert keys[0] in keys[..|keys| - 1];
      assert rest[|rest| - 1] == keys[|keys| - 1];
      assert rest[..|rest| - 1] == keys[1..|keys| - 1];
      DescendIsNestedGet(GetOr(nest.fields, keys[0], EmptyDict), rest, default);
    }
  }

  /** For a loaded config whose last key does not occur earlier in the path, `get` is the nested lookup of the key path. */
  lemma LookupIsNestedGet(config: Json, keys: seq<string>, default: Json)
    requires Truthy(config) && keys != [] && keys[|keys| - 1] !in keys[..|keys| - 1]
    ensures Lookup(config, keys, default) == NestedGet(config, keys, default)
  {
    DescendIsNestedGet(config, keys, default);
  }
}
