/**
 The token lease over one lock key (api/src/cache-lock.ts): claimed or renewed by its owner's token for a TTL,
 released only by it, and taken over once it expires. `Hold` and `Release` say what one call does; class
 `LockStore` runs the two Redis scripts and the memory branch step by step.
 */
module CacheLock {
  import opened Options

  // The key's value and the last instant it is kept at.
  datatype Lock<T> = Free | HeldBy(token: T, expiresAt: nat)

  function Holder<T>(lock: Lock<T>, now: nat): Option<T> {
    if lock.HeldBy? && now <= lock.expiresAt then Some(lock.token) else None
  }

  // A free or lapsed lock, and one the token has already, is its own for `ttl`; another token leaves all as it is.
  function Hold<T(==)>(lock: Lock<T>, now: nat, token: T, ttl: nat): (Lock<T>, bool) {
    if Holder(lock, now) == None || Holder(lock, now) == Some(token) then (HeldBy(token, now + ttl), true)
    else (lock, false)
  }

  function Release<T(==)>(lock: Lock<T>, now: nat, token: T): Lock<T> {
    if Holder(lock, now) == Some(token) then Free else lock
  }

  // ---------- the calls, command by command ----------

  class LockStore<T(==)> {
    var lock: Lock<T>
    var now: nat

    constructor (now: nat)
      ensures lock == Free && this.now == now
    {
      lock, this.now := Free, now;
    }

    // `GET`, of a key an expiry may have taken.
    method Get() returns (value: Option<T>)
      ensures value == Holder(lock, now)
    {
      value := if lock.HeldBy? && !(now > lock.expiresAt) then Some(lock.token) else None;
    }

    // `SET key value NX PX ttl`.
    method SetIfAbsent(token: T, ttl: nat) returns (done: bool)
      modifies `lock
      ensures done == Holder(old(lock), now).None?
      ensures lock == if done then HeldBy(token, now + ttl) else old(lock)
    {
      var present := Get();
      done := present.None?;
      if done {
        lock := HeldBy(token, now + ttl);
      }
    }

    // `PEXPIRE key ttl`.
    method Expire(ttl: nat)
      modifies `lock
      ensures lock == if Holder(old(lock), now).Some? then HeldBy(old(lock).token, now + ttl) else old(lock)
    {
      if lock.HeldBy? && now <= lock.expiresAt {
        lock := HeldBy(lock.token, now + ttl);
      }
    }

    method HoldScript(token: T, ttl: nat) returns (held: bool)
      modifies `lock
      ensures (lock, held) == Hold(old(lock), now, token, ttl)
    {
      var claimed := SetIfAbsent(token, ttl);
      if claimed {
        return true;
      }
      var holder := Get();
      if holder != Some(token) {
        return false;
      }
      Expire(ttl);
      return true;
    }

    // The memory branch: a read then a write, which no other call comes between here.
    method HoldInMemory(token: T, ttl: nat) returns (held: bool)
      modifies `lock
      ensures (lock, held) == Hold(old(lock), now, token, ttl)
    {
      var holder := Get();
      if holder.Some? && holder.value != token {
        return false;
      }
      lock := HeldBy(token, now + ttl);
      return true;
    }

    method ReleaseScript(token: T) returns (released: bool)
      modifies `lock
      ensures lock == Release(old(lock), now, token)
      ensures released == (Holder(old(lock), now) == Some(token))
    {
      var holder := Get();
      if holder != Some(token) {
        return false;
      }
      lock := Free;
      return true;
    }

    method ReleaseInMemory(token: T)
      modifies `lock
      ensures lock == Release(old(lock), now, token)
    {
      var holder := Get();
      if holder == Some(token) {
        lock := Free;
      }
    }
  }

  // ---------- one lock over any run of calls ----------

  datatype Call<T> = Holding(token: T, ttl: nat) | Releasing(token: T) | Waiting(ms: nat)

  datatype Lease<T> = Lease(lock: Lock<T>, now: nat)

  function Called<T(==)>(l: Lease<T>, call: Call<T>): Lease<T> {
    match call
    case Holding(token, ttl) => l.(lock := Hold(l.lock, l.now, token, ttl).0)
    case Releasing(token) => l.(lock := Release(l.lock, l.now, token))
    case Waiting(ms) => l.(now := l.now + ms)
  }

  // What the call answers; a release and a wait answer nothing.
  function Answer<T(==)>(l: Lease<T>, call: Call<T>): bool {
    call.Holding? && Hold(l.lock, l.now, call.token, call.ttl).1
  }

  function After<T(==)>(l: Lease<T>, calls: seq<Call<T>>): Lease<T>
    decreases |calls|
  {
    if calls == [] then l else After(Called(l, calls[0]), calls[1..])
  }

  lemma {:induction false} TimePasses<T>(l: Lease<T>, calls: seq<Call<T>>)
    ensures l.now <= After(l, calls).now
    decreases |calls|
  {
    if calls != [] {
      TimePasses(Called(l, calls[0]), calls[1..]);
    }
  }

  /**
   With one TTL per lock, once a token was answered that it holds the lock, no other token is until that TTL is
   up, unless the first released it.
   */
  lemma {:induction false} HeldForItsTtl<T>(l: Lease<T>, a: T, until: nat, ttl: nat, calls: seq<Call<T>>, i: nat)
    requires l.lock.HeldBy? && l.lock.token == a && until <= l.lock.expiresAt && until <= l.now + ttl
    requires forall k :: 0 <= k < |calls| && calls[k].Holding? && calls[k].token == a ==> calls[k].ttl == ttl
    requires forall k :: 0 <= k < |calls| && calls[k].Releasing? ==> calls[k].token != a
    requires i < |calls| && After(l, calls[..i]).now <= until
    ensures Holder(After(l, calls[..i]).lock, After(l, calls[..i]).now) == Some(a)
    ensures calls[i].Holding? ==> Answer(After(l, calls[..i]), calls[i]) == (calls[i].token == a)
    decreases |calls|
  {
    TimePasses(l, calls[..i]);
    if i > 0 {
      var next := Called(l, calls[0]);
      assert calls[..i][1..] == calls[1..][..i - 1];
      TimePasses(next, calls[1..][..i - 1]);
      HeldForItsTtl(next, a, until, ttl, calls[1..], i - 1);
      assert calls[1..][i - 1] == calls[i];
    }
  }

  // A claim that is answered starts such a time.
  lemma {:induction false} ClaimHoldsForItsTtl<T>(l: Lease<T>, a: T, ttl: nat, calls: seq<Call<T>>, i: nat)
    requires Answer(l, Holding(a, ttl))
    requires forall k :: 0 <= k < |calls| && calls[k].Holding? && calls[k].token == a ==> calls[k].ttl == ttl
    requires forall k :: 0 <= k < |calls| && calls[k].Releasing? ==> calls[k].token != a
    requires var claimed := Called(l, Holding(a, ttl));
             i < |calls| && calls[i].Holding? && calls[i].token != a && After(claimed, calls[..i]).now <= l.now + ttl
    ensures !Answer(After(Called(l, Holding(a, ttl)), calls[..i]), calls[i])
  {
    HeldForItsTtl(Called(l, Holding(a, ttl)), a, l.now + ttl, ttl, calls, i);
  }

  // And no longer: another token is answered as soon as the first released the lock, or its TTL is up.
  lemma {:induction false} FreedForOthers<T>(l: Lease<T>, a: T, b: T, ttl: nat, ms: nat)
    requires Answer(l, Holding(a, ttl)) && a != b
    ensures var claimed := Called(l, Holding(a, ttl));
            && (Answer(Called(claimed, Waiting(ms)), Holding(b, ttl)) <==> ttl < ms)
            && Answer(Called(claimed, Releasing(a)), Holding(b, ttl))
  {
  }

  // A token another has replaced neither renews nor releases anything.
  lemma {:induction false} ReplacedChangesNothing<T>(l: Lease<T>, a: T, b: T, ttl: nat)
    requires Holder(l.lock, l.now) == Some(b) && a != b
    ensures Called(l, Holding(a, ttl)) == l && !Answer(l, Holding(a, ttl)) && Called(l, Releasing(a)) == l
  {
  }
}
