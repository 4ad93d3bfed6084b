/** The keyed store with expiry that the cache client puts in front of Redis. */
module MessageCache {
  import opened Options
  import Text

  datatype CacheError = EmptyKey | TtlNotPositive | Miss

  /** buildKey. */
  function BuildKey(keyPrefix: string, key: string): Result<string, CacheError> {
    var trimmed := Text.TrimSpace(key);
    if trimmed == "" then Err(EmptyKey)
    else if keyPrefix == "" then Ok(trimmed)
    else Ok(keyPrefix + ":" + trimmed)
  }

  /** A key is usable exactly when it is not blank; its entry then lies under the prefix and a colon, if
      there is a prefix, and ends with the trimmed key. */
  lemma KeyShape(keyPrefix: string, key: string)
    ensures BuildKey(keyPrefix, key).Ok? <==> Text.TrimSpace(key) != ""
    ensures BuildKey(keyPrefix, key).Err? ==> BuildKey(keyPrefix, key) == Err(EmptyKey)
    ensures BuildKey(keyPrefix, key).Ok? ==>
              var k := BuildKey(keyPrefix, key).value;
              && |k| == (if keyPrefix == "" then 0 else |keyPrefix| + 1) + |Text.TrimSpace(key)|
              && Text.HasSuffix(k, Text.TrimSpace(key))
              && (keyPrefix != "" ==> keyPrefix <= k && k[|keyPrefix|] == ':')
  {
    hide Text.TrimSpace;
  }

  /** Under one prefix, two keys share an entry only when they differ in surrounding space. */
  lemma BuildKeyInjective(keyPrefix: string, a: string, b: string)
    requires BuildKey(keyPrefix, a).Ok? && BuildKey(keyPrefix, a) == BuildKey(keyPrefix, b)
    ensures Text.TrimSpace(a) == Text.TrimSpace(b)
  {
    hide Text.TrimSpace;
    if keyPrefix != "" {
      var head := keyPrefix + ":";
      assert (head + Text.TrimSpace(a))[|head|..] == Text.TrimSpace(a);
      assert (head + Text.TrimSpace(b))[|head|..] == Text.TrimSpace(b);
    }
  }

  class CacheClient<V> {
    const keyPrefix: string
    var entries: map<string, V>

    constructor (keyPrefix: string)
      ensures this.keyPrefix == keyPrefix && entries == map[]
    {
      this.keyPrefix := keyPrefix;
      entries := map[];
    }

    method Set(key: string, value: V, ttl: int) returns (r: Result<(), CacheError>)
      modifies this
      ensures var k := BuildKey(keyPrefix, key);
              if k.Err? then r == Err(k.error) && entries == old(entries)
              else if ttl <= 0 then r == Err(TtlNotPositive) && entries == old(entries)
              else r == Ok(()) && entries == old(entries)[k.value := value]
    {
      var k := BuildKey(keyPrefix, key);
      if k.Err? {
        return Err(k.error);
      }
      if ttl <= 0 {
        return Err(TtlNotPositive);
      }
      entries := entries[k.value := value];
      return Ok(());
    }

    /** Reads and removes in one step. */
    method GetDelete(key: string) returns (r: Result<V, CacheError>)
      modifies this
      ensures var k := BuildKey(keyPrefix, key);
              if k.Err? then r == Err(k.error) && entries == old(entries)
              else if k.value !in old(entries) then r == Err(Miss) && entries == old(entries)
              else r == Ok(old(entries)[k.value]) && entries == old(entries) - {k.value}
    {
      var k := BuildKey(keyPrefix, key);
      if k.Err? {
        return Err(k.error);
      }
      if k.value !in entries {
        return Err(Miss);
      }
      r := Ok(entries[k.value]);
      entries := entries - {k.value};
    }
  }
}
