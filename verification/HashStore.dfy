/**
 The hash store of the Redis adapter: named hashes with fields and an optional deadline.
 Times are in milliseconds, time-to-live values in seconds. A hash whose deadline has
 passed is dropped by Purge.
 */
module HashStore {
  import opened Wrappers
  import opened Decimals

  /** The field names used by the connection and user stores. */
  datatype Field =
    | CreationDate | AllowedCharacters | AuthenticationLevel | CurrentCharacter | PositionCount
    | X | Y | Z | InCombat | Commander | MapId | MountId | ProfessionId | RaceId | SpecializationId
    | LastUpdated | Connection

  datatype Value = Text(text: string) | Num(num: int)

  datatype Hash = Hash(fields: map<Field, Value>, deadline: Option<int>)

  type Hashes = map<string, Hash>

  // ---- The server's commands ----

  function HGet(m: Hashes, key: string, field: Field): Option<Value> {
    if key in m && field in m[key].fields then Some(m[key].fields[field]) else None
  }

  /** Writes fields over the old ones; a missing hash is created without a deadline. */
  function HSet(m: Hashes, key: string, data: map<Field, Value>): Hashes {
    if key in m then m[key := m[key].(fields := m[key].fields + data)]
    else m[key := Hash(data, None)]
  }

  /** The counter of a field, zero when missing; a text counts as the number it prints, if it prints one. */
  function CountIn(m: Hashes, key: string, field: Field): Option<int> {
    match HGet(m, key, field)
    case None => Some(0)
    case Some(Num(n)) => Some(n)
    case Some(Text(t)) => Parsed(t)
  }

  function HIncrBy(m: Hashes, key: string, field: Field, amount: int): Hashes {
    match CountIn(m, key, field)
    case Some(n) => HSet(m, key, map[field := Num(n + amount)])
    case None => m
  }

  /** Only an existing hash gets a deadline; a time-to-live of zero or less deletes it at once. */
  function Expire(m: Hashes, key: string, ttl: int, now: int): Hashes {
    if key !in m then m
    else if ttl <= 0 then m - {key}
    else m[key := m[key].(deadline := Some(now + 1000 * ttl))]
  }

  function Persist(m: Hashes, key: string): Hashes {
    if key in m then m[key := m[key].(deadline := None)] else m
  }

  function Del(m: Hashes, key: string): Hashes {
    m - {key}
  }

  predicate Expired(h: Hash, now: int) {
    h.deadline.Some? && h.deadline.value <= now
  }

  function Purge(m: Hashes, now: int): Hashes {
    map key | key in m && !Expired(m[key], now) :: m[key]
  }

  lemma ParsesOnly(text: string)
    ensures forall n :: Parsed(text) == Some(n) <==> text == Decimal(n)
  {
    hide Parsed, Decimal;
    forall n
      ensures Parsed(text) == Some(n) <==> text == Decimal(n)
    {
      ParsedExactly(text, n);
    }
  }

  // ---- The adapter ----

  class KeyValueStore {
    var hashes: Hashes

    constructor ()
      ensures hashes == map[]
    {
      hashes := map[];
    }

    method Get(key: string, field: Field) returns (value: Option<Value>)
      ensures value == HGet(hashes, key, field)
    {
      value := None;
      if key in hashes && field in hashes[key].fields {
        value := Some(hashes[key].fields[field]);
      }
    }

    /** One field; the hash keeps whatever deadline it had. */
    method Set(key: string, field: Field, value: Value)
      modifies this
      ensures hashes.Keys == old(hashes).Keys + {key}
      ensures HGet(hashes, key, field) == Some(value)
      ensures forall f | f != field :: HGet(hashes, key, f) == HGet(old(hashes), key, f)
      ensures hashes[key].deadline == if key in old(hashes) then old(hashes)[key].deadline else None
      ensures hashes - {key} == old(hashes) - {key}
      ensures hashes == HSet(old(hashes), key, map[field := value])
    {
      if key in hashes {
        assert hashes[key].fields[field := value] == hashes[key].fields + map[field := value];
        hashes := hashes[key := hashes[key].(fields := hashes[key].fields[field := value])];
      } else {
        hashes := hashes[key := Hash(map[field := value], None)];
      }
    }

    /** Several fields over the old ones; the hash keeps whatever deadline it had. */
    method WriteFields(key: string, data: map<Field, Value>)
      modifies this
      ensures hashes == HSet(old(hashes), key, data)
      ensures forall f | f in data :: HGet(hashes, key, f) == Some(data[f])
      ensures forall f | f !in data :: HGet(hashes, key, f) == HGet(old(hashes), key, f)
      ensures hashes.Keys == old(hashes).Keys + {key} && hashes - {key} == old(hashes) - {key}
      ensures hashes[key].deadline == if key in old(hashes) then old(hashes)[key].deadline else None
    {
      var fields := if key in hashes then hashes[key].fields + data else data;
      var deadline := if key in hashes then hashes[key].deadline else None;
      hashes := hashes[key := Hash(fields, deadline)];
    }

    /** Several fields at once; without a time-to-live the whole hash stops expiring. */
    method SetMultiple(key: string, data: map<Field, Value>, ttl: Option<int>, now: int)
      modifies this
      ensures hashes - {key} == old(hashes) - {key}
      ensures ttl.None? || ttl == Some(0) ==>
                && key in hashes && hashes[key].deadline == None
                && hashes == Persist(HSet(old(hashes), key, data), key)
      ensures ttl.Some? && ttl.value != 0 ==> hashes == Expire(HSet(old(hashes), key, data), key, ttl.value, now)
      ensures key in hashes ==> forall f | f in data :: HGet(hashes, key, f) == Some(data[f])
      ensures key in hashes ==> forall f | f !in data :: HGet(hashes, key, f) == HGet(old(hashes), key, f)
    {
      WriteFields(key, data);
      if ttl.Some? && ttl.value != 0 {
        ExpireKey(key, ttl.value, now);
      } else {
        PersistKey(key);
      }
    }

    /** Counts up from the stored number, printed or not, or from zero; the result is the new number. */
    method Incr(key: string, field: Field, amount: int) returns (n: Option<int>)
      modifies this
      ensures hashes == HIncrBy(old(hashes), key, field, amount)
      ensures n.None? <==> CountIn(old(hashes), key, field).None?
      ensures n.None? ==> hashes == old(hashes)
      ensures n.Some? ==> HGet(hashes, key, field) == Some(Num(n.value))
                          && n.value == CountIn(old(hashes), key, field).value + amount
      ensures match HGet(old(hashes), key, field)
              case None => n == Some(amount)
              case Some(Num(count)) => n == Some(count + amount)
              case Some(Text(text)) => forall count :: n == Some(count + amount) <==> text == Decimal(count)
    {
      hide Parsed, Decimal;
      n := None;
      var stored := Get(key, field);
      match stored {
        case None => n := Some(amount);
        case Some(Num(count)) => n := Some(count + amount);
        case Some(Text(text)) =>
          ParsesOnly(text);
          if Parsed(text).Some? {
            n := Some(Parsed(text).value + amount);
          }
      }
      if n.Some? {
        Set(key, field, Num(n.value));
      }
    }

    method ExpireKey(key: string, ttl: int, now: int)
      modifies this
      ensures hashes == Expire(old(hashes), key, ttl, now)
      ensures hashes - {key} == old(hashes) - {key}
      ensures key in hashes <==> key in old(hashes) && ttl > 0
      ensures key in hashes ==> hashes[key] == Hash(old(hashes)[key].fields, Some(now + 1000 * ttl))
    {
      if key in hashes {
        if ttl <= 0 {
          hashes := hashes - {key};
        } else {
          hashes := hashes[key := hashes[key].(deadline := Some(now + 1000 * ttl))];
        }
      }
    }

    method PersistKey(key: string)
      modifies this
      ensures hashes == Persist(old(hashes), key)
      ensures key in hashes ==> hashes[key].deadline == None && hashes[key].fields == old(hashes)[key].fields
    {
      if key in hashes {
        hashes := hashes[key := hashes[key].(deadline := None)];
      }
    }

    method DropExpired(now: int)
      modifies this
      ensures hashes == Purge(old(hashes), now)
      ensures forall key :: key in hashes <==>
                            key in old(hashes) && match old(hashes)[key].deadline
                                                  case Some(deadline) => now < deadline
                                                  case None => true
      ensures forall key | key in hashes :: hashes[key] == old(hashes)[key]
    {
      hashes := map key | key in hashes && !Expired(hashes[key], now) :: hashes[key];
    }

    method DeleteKey(key: string)
      modifies this
      ensures key !in hashes && hashes == old(hashes) - {key}
    {
      hashes := hashes - {key};
    }
  }

  // ---- Facts about lifetimes ----

  /** A hash written without a time-to-live is out of reach of the clock until it is expired again. */
  lemma PersistedSurvives(m: Hashes, key: string, data: map<Field, Value>, now: int)
    ensures var w := Persist(HSet(m, key, data), key);
            key in Purge(w, now) && Purge(w, now)[key] == w[key]
  {
  }

  /** An expiring hash is gone from its deadline on and not before. */
  lemma ExpiringVanishesOnTime(m: Hashes, key: string, ttl: int, now: int, later: int)
    requires key in m && ttl > 0
    ensures key in Purge(Expire(m, key, ttl, now), later) <==> later < now + 1000 * ttl
  {
  }
}
