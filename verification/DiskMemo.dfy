/** The append-only disk memo of one function (guardian/cache.py, memoize_to_disk). */
module DiskMemo {
  import opened Wrappers

  /** A line of the log file; `Corrupt` does not decode as JSON. */
  datatype Line<V> = Entry(key: string, stamp: real, value: V) | Corrupt

  /** The clock during one scan: the reading taken at each line whose key matches. */
  type Clock = nat -> real

  predicate Matches<V>(line: Line<V>, key: string) { line.Entry? && line.key == key }

  predicate Live<V>(line: Line<V>, key: string, now: real, expire: real) {
    Matches(line, key) && now - line.stamp < expire
  }

  /** The first live line for the key, from line `i` on. */
  function Scan<V>(log: seq<Line<V>>, key: string, clock: Clock, expire: real, i: nat): (r: Option<nat>)
    requires i <= |log|
    ensures r.Some? ==> i <= r.value < |log| && Live(log[r.value], key, clock(r.value), expire)
    decreases |log| - i
  {
    if i == |log| then None
    else if Live(log[i], key, clock(i), expire) then Some(i)
    else Scan(log, key, clock, expire, i + 1)
  }

  /** A call of the memoized function: its key, the clock, and what the function gives if it is run. */
  datatype Call<V> = Call(key: string, clock: Clock, done: real, computed: V)

  function Logged<V>(log: seq<Line<V>>, call: Call<V>, expire: real): seq<Line<V>> {
    if Scan(log, call.key, call.clock, expire, 0).Some? then log
    else log + [Entry(call.key, call.done, call.computed)]
  }

  function Returned<V>(log: seq<Line<V>>, call: Call<V>, expire: real): V {
    match Scan(log, call.key, call.clock, expire, 0)
    case Some(i) => log[i].value
    case None => call.computed
  }

  class Memo<V> {
    const expire: real
    var log: seq<Line<V>>

    constructor (expire: real)
      ensures this.expire == expire && log == []
    {
      this.expire := expire;
      log := [];
    }

    method Invoke(call: Call<V>) returns (value: V)
      modifies this
      ensures log == Logged(old(log), call, expire)
      ensures value == Returned(old(log), call, expire)
    {
      for i := 0 to |log|
        invariant log == old(log)
        invariant Scan(log, call.key, call.clock, expire, i) == Scan(log, call.key, call.clock, expire, 0)
      {
        if log[i].Entry? && log[i].key == call.key && call.clock(i) - log[i].stamp < expire {
          return log[i].value;
        }
      }
      value := call.computed;
      log := log + [Entry(call.key, call.done, value)];
    }
  }

  // ---------------------------------------------------------------- laws

  /** Any two lines for one key are at least `expire` apart, and lines are in order of their stamps. */
  ghost predicate Spaced<V>(log: seq<Line<V>>, expire: real) {
    && (forall i, j :: 0 <= i < j < |log| && log[i].Entry? && log[j].Entry? ==> log[i].stamp <= log[j].stamp)
    && (forall i, j :: 0 <= i < j < |log| && log[i].Entry? && Matches(log[j], log[i].key) ==>
          log[j].stamp - log[i].stamp >= expire)
  }

  /** The clock never runs back: not behind a stamp in the log, nor past the time the result is stored. */
  ghost predicate Timely<V>(log: seq<Line<V>>, call: Call<V>) {
    && (forall i: nat, j :: 0 <= j < |log| && log[j].Entry? ==> log[j].stamp <= call.clock(i))
    && (forall i: nat :: call.clock(i) <= call.done)
  }

  lemma {:induction false} ScanNone<V>(log: seq<Line<V>>, key: string, clock: Clock, expire: real, i: nat, k: nat)
    requires i <= k < |log|
    requires var r := Scan(log, key, clock, expire, i); r.None? || k < r.value
    ensures !Live(log[k], key, clock(k), expire)
    decreases |log| - i
  {
    if i < k {
      ScanNone(log, key, clock, expire, i + 1, k);
    }
  }

  /** A call keeps the lines for each key at least `expire` apart. */
  lemma CallKeepsSpacing<V>(log: seq<Line<V>>, call: Call<V>, expire: real)
    requires Spaced(log, expire) && Timely(log, call)
    ensures Spaced(Logged(log, call, expire), expire)
  {
    if Scan(log, call.key, call.clock, expire, 0).None? {
      forall i | 0 <= i < |log| && log[i].Entry?
        ensures log[i].stamp <= call.done
        ensures log[i].key == call.key ==> call.done - log[i].stamp >= expire
      {
        assert log[i].stamp <= call.clock(i) <= call.done;
        ScanNone(log, call.key, call.clock, expire, 0, i);
      }
    }
  }

  /** The last line for a key; `None` when there is none. */
  function Newest<V>(log: seq<Line<V>>, key: string): (r: Option<nat>)
    ensures r.Some? ==> r.value < |log| && Matches(log[r.value], key)
  {
    if log == [] then None
    else if Matches(log[|log| - 1], key) then Some(|log| - 1)
    else Newest(log[..|log| - 1], key)
  }

  lemma {:induction false} NewestIsLast<V>(log: seq<Line<V>>, key: string, k: nat)
    requires k < |log| && Matches(log[k], key)
    ensures Newest(log, key).Some? && k <= Newest(log, key).value
  {
    if k < |log| - 1 && !Matches(log[|log| - 1], key) {
      NewestIsLast(log[..|log| - 1], key, k);
    }
  }

  /** The scan from the front finds the newest line for the key if that one is live, and nothing otherwise. */
  lemma ScanFindsNewest<V>(log: seq<Line<V>>, call: Call<V>, expire: real)
    requires Spaced(log, expire) && Timely(log, call)
    ensures var newest := Newest(log, call.key);
            Scan(log, call.key, call.clock, expire, 0) ==
            if newest.Some? && Live(log[newest.value], call.key, call.clock(newest.value), expire) then newest else None
  {
    var r, newest := Scan(log, call.key, call.clock, expire, 0), Newest(log, call.key);
    if r.Some? {
      NewestIsLast(log, call.key, r.value);
    } else if newest.Some? {
      ScanNone(log, call.key, call.clock, expire, 0, newest.value);
    }
  }

  // ---------------------------------------------------------------- whole runs

  function Run<V>(log: seq<Line<V>>, calls: seq<Call<V>>, expire: real): seq<Line<V>>
    decreases |calls|
  {
    if calls == [] then log else Run(Logged(log, calls[0], expire), calls[1..], expire)
  }

  ghost predicate AllTimely<V>(log: seq<Line<V>>, calls: seq<Call<V>>, expire: real)
    decreases |calls|
  {
    calls == [] || (Timely(log, calls[0]) && AllTimely(Logged(log, calls[0], expire), calls[1..], expire))
  }

  /** However the memo is used, one key is computed at most once in any span shorter than `expire`. */
  lemma {:induction false} RunSpaced<V>(log: seq<Line<V>>, calls: seq<Call<V>>, expire: real)
    requires Spaced(log, expire) && AllTimely(log, calls, expire)
    ensures Spaced(Run(log, calls, expire), expire)
    decreases |calls|
  {
    hide Spaced, Timely, Logged;
    if calls != [] {
      CallKeepsSpacing(log, calls[0], expire);
      RunSpaced(Logged(log, calls[0], expire), calls[1..], expire);
    }
  }

  /**
   What a call returns was computed for its key less than `expire` before the call looked at it, and the
   log holds that computation.
   */
  lemma ReturnedIsRecent<V>(log: seq<Line<V>>, call: Call<V>, expire: real) returns (i: nat)
    ensures var after := Logged(log, call, expire);
            && i < |after| && Matches(after[i], call.key) && after[i].value == Returned(log, call, expire)
            && (if i < |log| then call.clock(i) - after[i].stamp < expire else after[i].stamp == call.done)
    ensures i < |log| <==> Logged(log, call, expire) == log
  {
    var r := Scan(log, call.key, call.clock, expire, 0);
    i := if r.Some? then r.value else |log|;
    assert |log + [Entry(call.key, call.done, call.computed)]| == |log| + 1;
  }
}
