/** Replay protection: a freshness window and a nonce store with a limited lifetime. */
module NonceReplay {

  /** Milliseconds throughout. */
  datatype Request = Request(ts: int, nonce: string, readFresh: int, readStore: int)

  /** A payload timestamp: up to 10 digits are seconds, 11 to 13 are milliseconds. */
  predicate ReadableTs(ts: int) {
    0 < ts < 10_000_000_000_000
  }

  function ToMillis(ts: int): int {
    if ts < 10_000_000_000 then ts * 1000 else ts
  }

  predicate IsFresh(ts: int, now: int, window: nat) {
    ReadableTs(ts) && ToMillis(ts) - window <= now <= ToMillis(ts) + window
  }

  /** Up to ten digits are seconds, eleven to thirteen milliseconds; a timestamp is fresh when it lies at
      most a window before or after the clock, and no other text is fresh. */
  lemma FreshExact(ts: int, now: int, window: nat)
    ensures 1 <= ts <= 9_999_999_999 ==> (IsFresh(ts, now, window) <==> 1000 * ts <= now + window && now <= 1000 * ts + window)
    ensures 10_000_000_000 <= ts <= 9_999_999_999_999 ==> (IsFresh(ts, now, window) <==> ts <= now + window && now <= ts + window)
    ensures ts <= 0 || ts > 9_999_999_999_999 ==> !IsFresh(ts, now, window)
  {
  }

  /** Entries that have not passed their expiry. */
  function Purge(seen: map<string, int>, now: int): map<string, int> {
    map n | n in seen && !(now > seen[n]) :: seen[n]
  }

  function Remember(seen: map<string, int>, nonce: string, ttl: nat, now: int): map<string, int> {
    var kept := Purge(seen, now);
    if nonce in kept then kept else kept[nonce := now + ttl]
  }

  class MemNonceStore {
    var seen: map<string, int>

    constructor ()
      ensures seen == map[]
    {
      seen := map[];
    }

    method Seen(nonce: string, ttl: nat, now: int) returns (dup: bool)
      modifies this
      ensures seen == Remember(old(seen), nonce, ttl, now)
      ensures dup <==> nonce in old(seen) && now <= old(seen)[nonce]
    {
      seen := map n | n in seen && !(now > seen[n]) :: seen[n];
      if nonce in seen {
        return true;
      }
      seen := seen[nonce := now + ttl];
      return false;
    }

    /** checkReplay: freshness first, then the nonce; only a fresh request reaches the store. */
    method CheckReplay(r: Request, window: nat, ttl: nat) returns (accepted: bool)
      modifies this
      ensures accepted <==> Accepts(old(seen), r, window)
      ensures seen == After(old(seen), r, window, ttl)
    {
      if !IsFresh(r.ts, r.readFresh, window) {
        return false;
      }
      var dup := Seen(r.nonce, ttl, r.readStore);
      return !dup;
    }
  }

  predicate Accepts(seen: map<string, int>, r: Request, window: nat) {
    IsFresh(r.ts, r.readFresh, window) && r.nonce !in Purge(seen, r.readStore)
  }

  function After(seen: map<string, int>, r: Request, window: nat, ttl: nat): map<string, int> {
    if IsFresh(r.ts, r.readFresh, window) then Remember(seen, r.nonce, ttl, r.readStore) else seen
  }

  function Run(rs: seq<Request>, window: nat, ttl: nat): map<string, int> {
    if rs == [] then map[] else After(Run(rs[..|rs| - 1], window, ttl), rs[|rs| - 1], window, ttl)
  }

  predicate AcceptedAt(rs: seq<Request>, i: nat, window: nat, ttl: nat)
    requires i < |rs|
  {
    Accepts(Run(rs[..i], window, ttl), rs[i], window)
  }

  /** One monotone clock: store visits are in time order, and each request reads the clock for its
      freshness test first, at most delay before its store visit. */
  ghost predicate ClockOk(rs: seq<Request>, delay: nat) {
    && (forall i, j :: 0 <= i < j < |rs| ==> rs[i].readStore <= rs[j].readStore)
    && (forall i :: 0 <= i < |rs| ==> rs[i].readFresh <= rs[i].readStore <= rs[i].readFresh + delay)
  }

  ghost predicate SamePayload(a: Request, b: Request) {
    a.ts == b.ts && a.nonce == b.nonce
  }

  ghost predicate AcceptedTwice(rs: seq<Request>, window: nat, ttl: nat) {
    exists i, j :: 0 <= i < j < |rs| && AcceptedAt(rs, i, window, ttl) && AcceptedAt(rs, j, window, ttl) && SamePayload(rs[i], rs[j])
  }

  /** An accepted nonce is remembered until its lifetime is over. */
  lemma {:induction false} RememberedUntil(rs: seq<Request>, i: nat, n: nat, window: nat, ttl: nat, delay: nat)
    requires ClockOk(rs, delay) && i < n <= |rs| && AcceptedAt(rs, i, window, ttl)
    ensures var seen := Run(rs[..n], window, ttl);
            rs[n - 1].readStore <= rs[i].readStore + ttl ==>
              rs[i].nonce in seen && rs[i].readStore + ttl <= seen[rs[i].nonce]
  {
    assert rs[..n][..n - 1] == rs[..n - 1];
    if i + 1 < n {
      RememberedUntil(rs, i, n - 1, window, ttl, delay);
      assert rs[n - 2].readStore <= rs[n - 1].readStore;
    }
  }

  /** With a lifetime of at least twice the window plus the delay, no payload is accepted twice. */
  lemma NoReplay(rs: seq<Request>, window: nat, ttl: nat, delay: nat)
    requires ClockOk(rs, delay) && ttl >= 2 * window + delay
    ensures !AcceptedTwice(rs, window, ttl)
  {
    if AcceptedTwice(rs, window, ttl) {
      var i, j :| 0 <= i < j < |rs| && AcceptedAt(rs, i, window, ttl) && AcceptedAt(rs, j, window, ttl) && SamePayload(rs[i], rs[j]);
      assert rs[j].readStore <= rs[i].readStore + ttl;
      assert rs[j - 1].readStore <= rs[j].readStore;
      RememberedUntil(rs, i, j, window, ttl, delay);
      assert false;
    }
  }

  /** The bound is tight: a shorter lifetime admits a replay. */
  lemma ShortLifetimeReplays(window: nat, ttl: nat, delay: nat)
    requires ttl < 2 * window + delay
    ensures exists rs :: ClockOk(rs, delay) && AcceptedTwice(rs, window, ttl)
  {
    var t := 1_000_000_000_000;
    var a := Request(t, "n", t - window, t - window);
    var b := Request(t, "n", t + window, t + window + delay);
    var rs := [a, b];
    assert rs[..0] == [] && rs[..1] == [a] && [a][..0] == [];
    assert Run([a], window, ttl) == map["n" := t - window + ttl];
    assert AcceptedAt(rs, 0, window, ttl) && AcceptedAt(rs, 1, window, ttl);
    assert SamePayload(rs[0], rs[1]);
    assert ClockOk(rs, delay);
  }

  /** With the code's lifetime of twice the window, replays are excluded exactly when the two clock
      readings of a request coincide. */
  lemma ReplayExact(window: nat, delay: nat)
    ensures (forall rs :: ClockOk(rs, delay) ==> !AcceptedTwice(rs, window, 2 * window)) <==> delay == 0
  {
    if delay == 0 {
      forall rs | ClockOk(rs, delay) ensures !AcceptedTwice(rs, window, 2 * window) {
        NoReplay(rs, window, 2 * window, delay);
      }
    } else {
      ShortLifetimeReplays(window, 2 * window, delay);
    }
  }
}
