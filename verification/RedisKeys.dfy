// Redis string keys with a time to live: an expired key reads as absent.
module RedisKeys {
  import opened Options

  datatype Entry = Entry(value: string, expires: nat)

  type Keys = map<nat, Entry>

  predicate Live(keys: Keys, key: nat, now: nat) {
    key in keys && now < keys[key].expires
  }

  // GET
  function Get(keys: Keys, key: nat, now: nat): Option<string> {
    if Live(keys, key, now) then Some(keys[key].value) else None
  }

  // SET key value EX ttl
  function SetEx(keys: Keys, key: nat, value: string, now: nat, ttl: nat): Keys {
    keys[key := Entry(value, now + ttl)]
  }

  // The keys after SET key value NX EX ttl; the command succeeds when the key is not live.
  function SetNx(keys: Keys, key: nat, value: string, now: nat, ttl: nat): Keys {
    if Live(keys, key, now) then keys else SetEx(keys, key, value, now, ttl)
  }

  // DEL
  function Delete(keys: Keys, key: nat): Keys {
    keys - {key}
  }
}
