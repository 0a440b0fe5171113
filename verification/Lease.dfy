/** The lease: the Redis lock commands (internal/infrastructure/redis/client.go) and the
    elector (internal/infrastructure/leaderelection/leaderelection.go). Times are in
    milliseconds. */
module Lease {

  datatype Option<+T> = None | Some(value: T)

  /** A UUID. */
  type Token = nat

  datatype Key = NoKey | Key(token: Token, expiry: nat)

  predicate Live(key: Key, now: nat) {
    key.Key? && now < key.expiry
  }

  predicate Holds(key: Key, now: nat, token: Token) {
    Live(key, now) && key.token == token
  }

  // ------------------------------------------------------------------ the commands

  /** SET NX PX. */
  function SetNX(key: Key, now: nat, token: Token, ttl: nat): Key {
    if Live(key, now) then key else Key(token, now + ttl)
  }

  /** Compare-and-extend. */
  function Extend(key: Key, now: nat, token: Token, ttl: nat): Key {
    if Holds(key, now, token) then Key(token, now + ttl) else key
  }

  /** Compare-and-delete. */
  function Delete(key: Key, now: nat, token: Token): Key {
    if Holds(key, now, token) then NoKey else key
  }

  /** Fine: applied, reply received. The rest are errors for the caller: the command was never
      applied, was applied now, or will be applied at some later time, or never. */
  datatype Fault = Fine | Lost | Unanswered | Late

  predicate Applied(fault: Fault) {
    fault.Fine? || fault.Unanswered?
  }

  /** What one call of IsLeader leaves behind. */
  datatype Call = Call(leader: bool, lock: Option<Token>, key: Key)

  /** The renewal, if there is a lock, is served at now, and the acquisition, if it comes to
      one, at later. */
  function Called(key: Key, lock: Option<Token>, now: nat, later: nat, token: Token, ttl: nat,
                  renewal: Fault, acquisition: Fault): Call
  {
    var held := lock.Some? && Holds(key, now, lock.value);
    var key' := if lock.Some? && Applied(renewal) then Extend(key, now, lock.value, ttl) else key;
    if held && renewal.Fine? then Call(true, lock, key')
    else if lock.Some? && !renewal.Fine? then Call(false, None, key')
    else
      var key'' := if Applied(acquisition) then SetNX(key', later, token, ttl) else key';
      if acquisition.Fine? && !Live(key', later) then Call(true, Some(token), key'')
      else Call(false, None, key'')
  }

  // ------------------------------------------------------------------ the objects

  class Redis {
    var key: Key

    constructor ()
      ensures key == NoKey
    {
      key := NoKey;
    }

    /** None with err false: somebody else holds the lock. */
    method AcquireLock(now: nat, ttl: nat, token: Token, fault: Fault) returns (lock: Option<Token>, err: bool)
      modifies this
      ensures key == if Applied(fault) then SetNX(old(key), now, token, ttl) else old(key)
      ensures var free := old(key).Key? ==> old(key).expiry <= now;
              && key == (if free && fault in {Fine, Unanswered} then Key(token, now + ttl) else old(key))
              && lock == (if free && fault == Fine then Some(token) else None)
      ensures err == (fault != Fine)
    {
      var ok := !Live(key, now);
      if Applied(fault) && ok {
        key := Key(token, now + ttl);
      }
      err := !fault.Fine?;
      lock := if err || !ok then None else Some(token);
    }

    method Renew(now: nat, ttl: nat, token: Token, fault: Fault) returns (renewed: bool, err: bool)
      modifies this
      ensures key == if Applied(fault) then Extend(old(key), now, token, ttl) else old(key)
      ensures var mine := old(key).Key? && old(key).token == token && now < old(key).expiry;
              && key == (if mine && fault in {Fine, Unanswered} then Key(token, now + ttl) else old(key))
              && renewed == (mine && fault == Fine)
      ensures err == (fault != Fine)
    {
      var mine := Holds(key, now, token);
      if Applied(fault) && mine {
        key := Key(token, now + ttl);
      }
      err := !fault.Fine?;
      renewed := !err && mine;
    }

    method Unlock(now: nat, token: Token, fault: Fault) returns (err: bool)
      modifies this
      ensures key == if Applied(fault) then Delete(old(key), now, token) else old(key)
      ensures var mine := old(key).Key? && old(key).token == token && now < old(key).expiry;
              key == if mine && fault in {Fine, Unanswered} then NoKey else old(key)
      ensures err == (fault != Fine)
    {
      if Applied(fault) && Holds(key, now, token) {
        key := NoKey;
      }
      err := !fault.Fine?;
    }
  }

  class Elector {
    const redis: Redis
    const ttl: nat
    var lock: Option<Token>

    constructor (redis: Redis, ttl: nat)
      ensures this.redis == redis && this.ttl == ttl && lock.None?
    {
      this.redis, this.ttl, this.lock := redis, ttl, None;
    }

    /** True exactly when the lease was renewed, or there was none to renew (any more) and nobody
        else's in the way of a new one; then the key carries this elector's token for a full ttl,
        and otherwise the elector remembers no lock. */
    method IsLeader(now: nat, later: nat, token: Token, renewal: Fault, acquisition: Fault) returns (leader: bool)
      requires now <= later
      modifies this, redis
      ensures Call(leader, lock, redis.key) == Called(old(redis.key), old(lock), now, later, token, ttl, renewal, acquisition)
      ensures leader ==> lock.Some? && redis.key in {Key(lock.value, now + ttl), Key(lock.value, later + ttl)}
      ensures leader <==> lock.Some?
      ensures var was, key := old(lock), old(redis.key);
              var mine := was.Some? && key.Key? && key.token == was.value && now < key.expiry;
              leader <==>
                || (mine && renewal.Fine?)
                || (!mine && (was.Some? ==> renewal.Fine?) && acquisition.Fine? && (key.Key? ==> key.expiry <= later))
    {
      if lock.Some? {
        var renewed, err := redis.Renew(now, ttl, lock.value, renewal);
        if err {
          lock := None;
          return false;
        }
        if renewed {
          return true;
        }
        lock := None;
      }
      var got, err := redis.AcquireLock(later, ttl, token, acquisition);
      if err || got.None? {
        return false;
      }
      lock := got;
      leader := true;
    }

    method Resign(now: nat, fault: Fault)
      modifies this, redis
      ensures lock.None?
      ensures redis.key == if old(lock).Some? && Applied(fault) then Delete(old(redis.key), now, old(lock).value)
                           else old(redis.key)
    {
      if lock.None? {
        return;
      }
      var _ := redis.Unlock(now, lock.value, fault);
      lock := None;
    }
  }
}
