/** The shared key-value store with expiring keys (`app/cache/store.py`). */
module TtlStore {
  import opened Common

  /** A stored value: a record written by `set`, or a counter kept by `increment`. */
  datatype Value<+T> = Record(record: T) | Count(count: int)

  datatype Entry<+T> = Entry(value: Value<T>, expires: Instant)

  /** A key's entry at an instant: expired entries do not exist. */
  function Live<T>(data: map<string, Entry<T>>, key: string, now: Instant): Option<Entry<T>> {
    if key in data && data[key].expires > now then Some(data[key]) else None
  }

  /** The store as everyone sees it from `now` on is `entry` at `key` and unchanged elsewhere. */
  ghost predicate Becomes<T(!new)>(
    before: map<string, Entry<T>>, after: map<string, Entry<T>>, now: Instant, key: string, entry: Option<Entry<T>>)
  {
    forall k, t :: t >= now ==>
      Live(after, k, t) ==
        if k == key then (if entry.Some? && entry.value.expires > t then entry else None) else Live(before, k, t)
  }

  /** The entry that `increment` leaves: the window of an existing counter is never extended. */
  function Incremented<T>(entry: Option<Entry<T>>, now: Instant, ttl: int): Result<Entry<T>> {
    if entry.None? then Ok(Entry(Count(1), now + ttl))
    else if entry.value.value.Record? then Err(ValidationFailed)
    else Ok(Entry(Count(entry.value.value.count + 1), entry.value.expires))
  }

  /** The instants at which operations happen never decrease: the clock is monotonic. */
  class MemoryStore<T(!new)> {
    var data: map<string, Entry<T>>

    constructor ()
      ensures forall k, t :: Live(data, k, t).None?
    {
      data := map[];
    }

    /** `_live`: drop the entry if it has expired; nobody can tell. */
    method FindLive(key: string, now: Instant) returns (entry: Option<Entry<T>>)
      modifies this
      ensures entry == Live(old(data), key, now)
      ensures forall k, t :: t >= now ==> Live(data, k, t) == Live(old(data), k, t)
      ensures entry.None? ==> key !in data
    {
      if key in data && data[key].expires <= now {
        data := data - {key};
        return None;
      }
      entry := if key in data then Some(data[key]) else None;
    }

    method Get(key: string, now: Instant) returns (value: Option<Value<T>>)
      modifies this
      ensures value == (if Live(old(data), key, now).None? then None else Some(Live(old(data), key, now).value.value))
      ensures forall k, t :: t >= now ==> Live(data, k, t) == Live(old(data), k, t)
    {
      var entry := FindLive(key, now);
      value := if entry.None? then None else Some(entry.value.value);
    }

    /** With `onlyIfAbsent` a live key keeps its value; written or not, the answer says which. */
    method Set(key: string, value: T, ttl: int, onlyIfAbsent: bool, now: Instant) returns (written: bool)
      modifies this
      ensures written == !(onlyIfAbsent && Live(old(data), key, now).Some?)
      ensures Becomes(
                old(data), data, now, key,
                if written then Some(Entry(Record(value), now + ttl)) else Live(old(data), key, now))
    {
      if onlyIfAbsent {
        var entry := FindLive(key, now);
        if entry.Some? {
          return false;
        }
      }
      data := data[key := Entry(Record(value), now + ttl)];
      written := true;
    }

    /** Single-use values: the first reader gets it, everyone after gets nothing. */
    method GetAndDelete(key: string, now: Instant) returns (value: Option<Value<T>>)
      modifies this
      ensures value == (if Live(old(data), key, now).None? then None else Some(Live(old(data), key, now).value.value))
      ensures Becomes(old(data), data, now, key, None)
    {
      var entry := FindLive(key, now);
      data := data - {key};
      value := if entry.None? then None else Some(entry.value.value);
    }

    method Delete(key: string, now: Instant)
      modifies this
      ensures Becomes(old(data), data, now, key, None)
    {
      data := data - {key};
    }

    /** Add one; the counter's window is set when it is created. A record that is no counter is an error. */
    method Increment(key: string, ttl: int, now: Instant) returns (r: Result<(int, Instant)>)
      modifies this
      ensures var entry := Incremented(Live(old(data), key, now), now, ttl);
              && (entry.Ok? ==> r == Ok((entry.value.value.count, entry.value.expires - now))
                                && Becomes(old(data), data, now, key, Some(entry.value)))
              && (entry.Err? ==> r.Err? && Becomes(old(data), data, now, key, Live(old(data), key, now)))
    {
      var entry := FindLive(key, now);
      if entry.Some? && entry.value.value.Record? {
        return Err(ValidationFailed);
      }
      var expires := if entry.None? then now + ttl else entry.value.expires;
      var value := if entry.None? then 1 else entry.value.value.count + 1;
      data := data[key := Entry(Count(value), expires)];
      r := Ok((value, expires - now));
    }
  }
}
