/** The part of github.com/patrickmn/go-cache that the autopilot uses. Instants and durations are in nanoseconds. */
module TimedCaches {
  import opened Options

  /** An expiration of 0 in go-cache means that the item never expires. */
  datatype Expiry = Never | At(instant: int)

  datatype Item<+V> = Item(value: V, expiry: Expiry)

  type Cache<+V> = map<string, Item<V>>

  predicate Expired(e: Expiry, now: int) {
    e.At? && now > e.instant
  }

  predicate Live<V>(items: Cache<V>, name: string, now: int) {
    name in items && !Expired(items[name].expiry, now)
  }

  /** A duration of 0 stands for the default lifetime, a negative one for no expiration. */
  function Deadline(dur: int, defaultLife: int, now: int): Expiry {
    var d := if dur == 0 then defaultLife else dur;
    if d > 0 then At(now + d) else Never
  }

  /** Add keeps a live item and overwrites an expired one. */
  function Added<V>(items: Cache<V>, name: string, value: V, dur: int, defaultLife: int, now: int): (r: Cache<V>)
    ensures r.Keys == items.Keys + {name}
  {
    if Live(items, name, now) then items else items[name := Item(value, Deadline(dur, defaultLife, now))]
  }

  function ExpiredNames<V>(items: Cache<V>, now: int): set<string> {
    set name | name in items && Expired(items[name].expiry, now)
  }

  function Sweep<V>(items: Cache<V>, now: int): Cache<V> {
    items - ExpiredNames(items, now)
  }

  class TimedCache<V> {
    const defaultLife: int
    var items: Cache<V>

    constructor (defaultLife: int)
      ensures this.defaultLife == defaultLife && items == map[]
    {
      this.defaultLife := defaultLife;
      items := map[];
    }

    method Flush()
      modifies this
      ensures items == map[]
    {
      items := map[];
    }

    /** The error of Add is `!ok`. */
    method Add(name: string, value: V, dur: int, now: int) returns (ok: bool)
      modifies this
      ensures ok <==> name !in old(items) || (old(items)[name].expiry.At? && now > old(items)[name].expiry.instant)
      ensures items == if !ok then old(items)
                       else old(items)[name := Item(value, if dur > 0 then At(now + dur)
                                                           else if dur == 0 && defaultLife > 0 then At(now + defaultLife)
                                                           else Never)]
      ensures items == Added(old(items), name, value, dur, defaultLife, now)
    {
      ok := !Live(items, name, now);
      if ok {
        items := items[name := Item(value, Deadline(dur, defaultLife, now))];
      }
    }

    method SetDefault(name: string, value: V, now: int)
      modifies this
      ensures items == old(items)[name := Item(value, if defaultLife > 0 then At(now + defaultLife) else Never)]
    {
      items := items[name := Item(value, Deadline(0, defaultLife, now))];
    }

    method Get(name: string, now: int) returns (r: Option<V>)
      ensures r.Some? <==> name in items && (items[name].expiry.At? ==> now <= items[name].expiry.instant)
      ensures r.Some? ==> r.value == items[name].value
    {
      if name in items && !Expired(items[name].expiry, now) {
        return Some(items[name].value);
      }
      return None;
    }

    method Delete(name: string)
      modifies this
      ensures items == old(items) - {name}
    {
      items := items - {name};
    }

    /** Counts expired items that nobody has swept yet, too. */
    method ItemCount() returns (n: nat)
      ensures n == |items|
    {
      n := |items|;
    }

    /** The janitor's sweep: one look at every item. */
    method DeleteExpired(now: int)
      modifies this
      ensures items == Sweep(old(items), now)
      ensures forall name :: name in items <==>
                name in old(items) && (old(items)[name].expiry.At? ==> now <= old(items)[name].expiry.instant)
      ensures forall name <- items :: items[name] == old(items)[name]
    {
      var left := items.Keys;
      while left != {}
        invariant left <= old(items).Keys
        invariant items.Keys == left + (old(items).Keys - ExpiredNames(old(items), now))
        invariant forall name <- items :: items[name] == old(items)[name]
        decreases left
      {
        var name :| name in left;
        if Expired(items[name].expiry, now) {
          items := items - {name};
        }
        left := left - {name};
      }
    }
  }
}
