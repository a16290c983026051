/** The response cache on its own: a bounded map whose entries expire. */
module ResponseCache {
  import opened Wrappers

  type Body = string

  datatype Entry<B> = Entry(body: B, expires: int)

  type Entries<B> = map<string, Entry<B>>

  predicate IsLive<B>(e: Entry<B>, now: int) { now < e.expires }

  function Live<B>(m: Entries<B>, now: int): Entries<B> { map k | k in m && IsLive(m[k], now) :: m[k] }

  function Seen<B>(m: Entries<B>, key: string, now: int): Option<Entry<B>> {
    if key in m && IsLive(m[key], now) then Some(m[key]) else None
  }

  /** Only entries that were there, unchanged. */
  ghost predicate Within<B>(m: Entries<B>, before: Entries<B>) {
    m.Keys <= before.Keys && forall k :: k in m ==> m[k] == before[k]
  }

  /** What a store may leave: the new entry; nothing else changed; nothing dropped while there
      was room; only expired entries dropped if that made room; never more than the cap. */
  ghost predicate Stored<B>(before: Entries<B>, after: Entries<B>, key: string, e: Entry<B>, now: int, cap: nat) {
    && key in after && after[key] == e && |after| <= cap
    && Within(after - {key}, before)
    && (|before| < cap ==> after == before[key := e])
    && (|before| >= cap && |Live(before, now)| < cap ==> after == Live(before, now)[key := e])
    && (|before| >= cap && |Live(before, now)| >= cap ==>
          Within(after - {key}, Live(before, now)) && |after| >= cap - 1)
  }

  lemma Inserted<B>(m: Entries<B>, key: string, e: Entry<B>)
    ensures |m[key := e]| == |m| + if key in m then 0 else 1
    ensures Within(m[key := e] - {key}, m)
  {
    assert m[key := e].Keys == m.Keys + {key};
  }

  class Cache {
    const ttl: int
    const cap: nat
    var m: Entries<Body>

    ghost predicate Valid() reads this { 1 <= cap && |m| <= cap }

    constructor (ttl: int, capacity: int)
      ensures Valid() && this.ttl == ttl && m == map[] && cap == if capacity < 1 then 1 else capacity
    {
      this.ttl := ttl;
      this.cap := if capacity < 1 then 1 else capacity;
      this.m := map[];
    }

    method Load(key: string, now: int) returns (e: Option<Entry<Body>>)
      requires Valid()
      modifies this`m
      ensures Valid()
      ensures e == Seen(old(m), key, now)
      ensures e.Some? <==> key in old(m) && now < old(m)[key].expires
      ensures e.Some? ==> e.value == old(m)[key]
      ensures m == if key in old(m) && e.None? then old(m) - {key} else old(m)
    {
      if key !in m { return None; }
      if !IsLive(m[key], now) {
        m := m - {key};
        return None;
      }
      return Some(m[key]);
    }

    /** The first eviction loop: every expired entry goes, in whatever order. */
    method DropExpired(now: int)
      modifies this`m
      ensures m == Live(old(m), now)
      ensures forall k :: k in m <==> k in old(m) && now < old(m)[k].expires
    {
      var rest := m.Keys;
      while rest != {}
        invariant rest <= m.Keys <= old(m).Keys
        invariant forall k :: k in m ==> m[k] == old(m)[k]
        invariant forall k :: k in old(m) && IsLive(old(m)[k], now) ==> k in m
        invariant forall k :: k in m && k !in rest ==> IsLive(m[k], now)
        decreases rest
      {
        var k :| k in rest;
        rest := rest - {k};
        if !IsLive(m[k], now) { m := m - {k}; }
      }
    }

    /** The second: arbitrary entries go until one more fits. */
    method DropSome()
      requires 1 <= cap
      modifies this`m
      ensures Within(m, old(m)) && |m| < cap
      ensures if |old(m)| < cap then m == old(m) else |m| == cap - 1
    {
      while |m| >= cap
        invariant Within(m, old(m))
        invariant if |old(m)| < cap then m == old(m) else |m| >= cap - 1
        decreases |m|
      {
        assert m.Keys != {};
        var k :| k in m;
        m := m - {k};
      }
    }

    method Store(key: string, e: Entry<Body>, now: int)
      requires Valid()
      modifies this`m
      ensures Valid() && Stored(old(m), m, key, e, now, cap)
    {
      if |m| >= cap {
        DropExpired(now);
        DropSome();
      }
      Inserted(m, key, e);
      m := m[key := e];
    }

    /** One call with nobody else around. `fetched` is what fill would answer; the clock moves
        on while it runs. */
    method Do(key: string, fetched: Result<Body, string>, now: int, later: int)
      returns (r: Result<Entry<Body>, string>, filled: bool)
      requires Valid() && now <= later
      modifies this`m
      ensures Valid()
      ensures filled <==> ttl <= 0 || Seen(old(m), key, now).None?
      ensures r == if !filled then Ok(Seen(old(m), key, now).value)
                   else match fetched
                        case Err(p) => Err(p)
                        case Ok(b) => Ok(Entry(b, if ttl <= 0 then 0 else later + ttl))
      ensures ttl <= 0 ==> m == old(m)
      ensures ttl > 0 && filled && r.Err? ==> m == old(m) - {key}
      ensures ttl > 0 && filled && r.Ok? ==> key in m && m[key] == r.value && IsLive(m[key], later)
    {
      if ttl <= 0 {
        if fetched.Err? { return Err(fetched.error), true; }
        return Ok(Entry(fetched.value, 0)), true;
      }
      var hit := Load(key, now);
      if hit.Some? { return Ok(hit.value), false; }
      assert m == old(m) - {key};
      var again := Load(key, now);
      if fetched.Err? { return Err(fetched.error), true; }
      var e := Entry(fetched.value, later + ttl);
      Store(key, e, later);
      return Ok(e), true;
    }
  }
}
