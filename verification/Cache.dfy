/** The read-through cache over Redis: its keys, the read, and the invalidation loop. */
module Cache {
  import opened Model

  // -------------------------------------------------------------------- keys

  /** Segments joined with ':'. */
  function Join(segments: seq<string>): string
    requires segments != []
  {
    if |segments| == 1 then segments[0] else segments[0] + ":" + Join(segments[1..])
  }

  /** Absent parts are skipped. */
  function Present(parts: seq<Option<string>>): seq<string> {
    if parts == [] then []
    else (if parts[0].Some? then [parts[0].value] else []) + Present(parts[1..])
  }

  function MakeKey(namespace: string, parts: seq<Option<string>>): string { Join([namespace] + Present(parts)) }

  predicate Plain(segment: string) { ':' !in segment }

  /** The first ':' is where a plain first segment ends. */
  lemma {:induction false} PlainHeads(a: string, b: string, resta: string, restb: string)
    requires Plain(a) && Plain(b) && a + ":" + resta == b + ":" + restb
    ensures a == b && resta == restb
  {
    var s, t := a + ":" + resta, b + ":" + restb;
    assert s[|a|] == ':' && t[|b|] == ':';
    assert forall k | 0 <= k < |a| :: s[k] == a[k] && s[k] != ':';
    assert forall k | 0 <= k < |b| :: t[k] == b[k] && t[k] != ':';
    assert |a| == |b|;
    assert a == s[..|a|] == t[..|b|] == b;
    assert resta == s[|a| + 1..] == t[|b| + 1..] == restb;
  }

  /** Keys of equally many segments, all plain but perhaps the last, determine their segments. */
  lemma {:induction false} JoinInjective(a: seq<string>, b: seq<string>)
    requires |a| == |b| > 0 && Join(a) == Join(b)
    requires forall k | 0 <= k < |a| - 1 :: Plain(a[k]) && Plain(b[k])
    ensures a == b
  {
    if |a| > 1 {
      PlainHeads(a[0], b[0], Join(a[1..]), Join(b[1..]));
      JoinInjective(a[1..], b[1..]);
    }
    assert a == [a[0]] + a[1..] && b == [b[0]] + b[1..];
  }

  lemma {:induction false} PresentOfSome(parts: seq<string>)
    ensures Present(seq(|parts|, i requires 0 <= i < |parts| => Some(parts[i]))) == parts
  {
    if parts != [] {
      var options := seq(|parts|, i requires 0 <= i < |parts| => Some(parts[i]));
      assert options[1..] == seq(|parts[1..]|, i requires 0 <= i < |parts[1..]| => Some(parts[1..][i]));
      PresentOfSome(parts[1..]);
    }
  }

  // ------------------------------------------------------------------ the store

  /** What Redis keeps under a key, until when. Entries leave it when they expire. */
  datatype Entry<P> = Entry(page: P, expiresAt: Instant)

  type Store<P> = map<string, Entry<P>>

  /** How Redis behaves during one read-through call. */
  datatype Link = NotConfigured | GetFails | SetFails | Up

  datatype Served<P> = Served(page: P, store: Store<P>)

  function ReadThrough<P>(store: Store<P>, now: Instant, link: Link, key: string, ttl: int, produced: P): Served<P> {
    if link.NotConfigured? || link.GetFails? then Served(produced, store)
    else if key in store then Served(store[key].page, store)
    else if link.SetFails? then Served(produced, store)
    else Served(produced, store[key := Entry(produced, now + ttl * SECOND)])
  }

  /** The store without the keys under a prefix, save those that an outage left behind. */
  function Invalidate<P>(store: Store<P>, prefix: string, kept: set<string>): Store<P> {
    map key <- store | !(prefix <= key) || key in kept :: store[key]
  }

  function Under<P>(store: Store<P>, prefix: string): set<string> { set key <- store | prefix <= key }

  function Expire<P>(store: Store<P>, now: Instant): Store<P> { map key <- store | now < store[key].expiresAt :: store[key] }

  /** The Redis client, as far as the cache uses it. */
  class Redis<P(==)> {
    var entries: Store<P>
    var clock: Instant

    constructor (now: Instant)
      ensures entries == map[] && clock == now
    {
      entries, clock := map[], now;
    }
  }

  /** A hit never looks at the produced value; failures of Redis never surface. */
  method GetOrSetJson<P(==)>(client: Redis?<P>, key: string, ttl: int, produced: P, link: Link) returns (page: P)
    requires client == null <==> link.NotConfigured?
    modifies client
    ensures client == null ==> page == produced
    ensures client != null ==> client.clock == old(client.clock)
                               && Served(page, client.entries) == ReadThrough(old(client.entries), client.clock, link, key, ttl, produced)
  {
    if client == null {
      return produced;
    }
    if link.GetFails? {
      return produced;
    }
    if key in client.entries {
      return client.entries[key].page;
    }
    page := produced;
    if !link.SetFails? {
      client.entries := client.entries[key := Entry(produced, client.clock + ttl * SECOND)];
    }
  }

  /** Deletes the keys under the prefix one by one, until Redis fails, if it does: after
      failsAfter deletions. What it deleted is what it counts; every other key stays. */
  method InvalidatePrefix<P(==)>(client: Redis?<P>, prefix: string, failsAfter: Option<nat>) returns (removed: nat)
    modifies client
    ensures client == null ==> removed == 0
    ensures client != null ==>
      && client.clock == old(client.clock)
      && client.entries == Invalidate(old(client.entries), prefix, client.entries.Keys)
      && removed == |Under(old(client.entries), prefix)| - |Under(client.entries, prefix)|
      && (failsAfter.None? || failsAfter.value >= |Under(old(client.entries), prefix)| ==>
            client.entries == Invalidate(old(client.entries), prefix, {}) && removed == |Under(old(client.entries), prefix)|)
      && (failsAfter.Some? && failsAfter.value < |Under(old(client.entries), prefix)| ==> removed == failsAfter.value)
  {
    removed := 0;
    if client == null {
      return;
    }
    var scan := Under(client.entries, prefix);
    ghost var all := scan;
    while scan != {} && (failsAfter.None? || removed < failsAfter.value)
      invariant scan <= all && removed == |all| - |scan|
      invariant failsAfter.Some? ==> removed <= failsAfter.value
      invariant client.clock == old(client.clock)
      invariant client.entries == Invalidate(old(client.entries), prefix, scan)
      decreases |scan|
    {
      var key := Pick(scan);
      client.entries := client.entries - {key};
      scan := scan - {key};
      removed := removed + 1;
    }
    assert Under(client.entries, prefix) == scan;
  }
}
