/**
 * The worker's identity manager: a fixed, ordered pool of bot identities, each
 * guarded by a lock in a shared lock service keyed by the identity's uid. A
 * manager holds at most one claim at a time.
 *
 * The lock service is modelled by the set of keys it currently holds (locks
 * taken by this worker and by every other worker alike); a claim's `valid`
 * flag is a field that the lock service's renewal machinery (the environment)
 * may clear at any time.
 */
module Identity {

  import opened Wrappers

  /** One entry of the identity pool configuration file. */
  datatype IdentityModel = IdentityModel(username: string, uid: string)

  /** `IdentityClaimError`: no identity in the pool could be locked. */
  datatype ClaimError = IdentityClaimError(message: string)

  const NoneAvailable := "Could not claim an Science Platform identity (none available)."

  /** The lock service client: the set of keys locked, and whether the client was torn down. */
  class LockManager {
    var held: set<string>
    var destroyed: bool

    constructor (held: set<string>)
      ensures this.held == held && !destroyed
    {
      this.held := held;
      destroyed := false;
    }

    /** A non-blocking lock attempt: it succeeds exactly when nobody holds `key`. */
    method Lock(key: string) returns (ok: bool)
      modifies this
      ensures ok == (key !in old(held))
      ensures held == old(held) + {key}
      ensures destroyed == old(destroyed)
    {
      ok := key !in held;
      held := held + {key};
    }

    method Unlock(key: string)
      modifies this
      ensures held == old(held) - {key}
      ensures destroyed == old(destroyed)
    {
      held := held - {key};
    }

    /** Tear down the connection to the lock service; the held keys are left as they are. */
    method Destroy()
      modifies this
      ensures destroyed && held == old(held)
    {
      destroyed := true;
    }
  }

  /** A claimed identity holding its lock. */
  class IdentityClaim {
    const username: string
    const uid: string
    const lockManager: LockManager
    /** The lock's `valid` flag. */
    var lockValid: bool

    constructor (username: string, uid: string, lockManager: LockManager)
      ensures this.username == username && this.uid == uid
      ensures this.lockManager == lockManager && IsValid()
    {
      this.username := username;
      this.uid := uid;
      this.lockManager := lockManager;
      lockValid := true;
    }

    /** A claim is valid exactly when its lock is. */
    predicate IsValid()
      reads this
      ensures IsValid() <==> lockValid
    {
      lockValid
    }

    /**
     * Release the lock. A lock that is still valid gives its key back to the
     * lock service; a lock that was already lost holds nothing to give back.
     */
    method Release()
      modifies this, lockManager
      ensures !IsValid()
      ensures lockManager.held == if old(lockValid) then old(lockManager.held) - {uid} else old(lockManager.held)
      ensures lockManager.destroyed == old(lockManager.destroyed)
    {
      if lockValid {
        lockManager.Unlock(uid);
      }
      lockValid := false;
    }
  }

  /**
   * The index of the first identity, at or after `from`, whose uid is not
   * locked; `None` when every one of them is locked.
   */
  function FirstFree(pool: seq<IdentityModel>, held: set<string>, from: nat): (r: Option<nat>)
    ensures r.Some? ==> from <= r.value < |pool| && pool[r.value].uid !in held
    ensures r.Some? ==> forall k :: from <= k < r.value ==> pool[k].uid in held
    ensures r.None? <==> forall k :: from <= k < |pool| ==> pool[k].uid in held
    decreases |pool| - from
  {
    if from >= |pool| then None
    else if pool[from].uid !in held then Some(from)
    else FirstFree(pool, held, from + 1)
  }

  /** Usernames in the pool are unique. */
  predicate UniqueUsernames(pool: seq<IdentityModel>)
  {
    forall i, j :: 0 <= i < j < |pool| ==> pool[i].username != pool[j].username
  }

  class IdentityManager {
    const lockManager: LockManager
    const identities: seq<IdentityModel>
    var current: IdentityClaim?
    /** Every claim this manager has handed out. */
    ghost var claims: set<IdentityClaim>

    ghost predicate Valid()
      reads this
    {
      && (current != null ==> current in claims)
      && forall c :: c in claims ==>
           c.lockManager == lockManager && IdentityModel(c.username, c.uid) in identities
    }

    constructor (lockManager: LockManager, identities: seq<IdentityModel>)
      ensures Valid()
      ensures this.lockManager == lockManager && this.identities == identities
      ensures current == null && claims == {}
    {
      this.lockManager := lockManager;
      this.identities := identities;
      current := null;
      claims := {};
    }

    /**
     * `from_config`: a manager over a fresh lock service client and the
     * identities of the configuration file, in the file's order.
     */
    static method FromConfig(pool: seq<IdentityModel>, held: set<string>) returns (m: IdentityManager)
      ensures fresh(m) && fresh(m.lockManager) && m.Valid()
      ensures m.identities == pool && m.current == null && m.claims == {}
      ensures m.lockManager.held == held && !m.lockManager.destroyed
    {
      var lm := new LockManager(held);
      var identities := [];
      for i := 0 to |pool|
        invariant identities == pool[..i]
      {
        identities := identities + [pool[i]];
      }
      m := new IdentityManager(lm, identities);
    }

    /** Release and clear the current claim, if any, then tear down the lock service client. */
    method Close()
      requires Valid()
      modifies this, lockManager, if current != null then {current} else {}
      ensures Valid() && claims == old(claims)
      ensures current == null && lockManager.destroyed
      ensures lockManager.held ==
        if old(current) != null && old(current.lockValid) then old(lockManager.held) - {old(current).uid}
        else old(lockManager.held)
      ensures old(current) != null ==> !old(current).lockValid
    {
      if current != null {
        current.Release();
        current := null;
      }
      lockManager.Destroy();
    }

    /**
     * `get_identity`: the current claim while it is valid; otherwise forget it
     * and claim the first identity of the pool whose lock can be taken.
     */
    method GetIdentity() returns (r: Result<IdentityClaim, ClaimError>)
      requires Valid()
      modifies this, lockManager
      ensures Valid() && old(claims) <= claims
      ensures lockManager.destroyed == old(lockManager.destroyed)
      ensures old(current) != null && old(current.lockValid) ==>
        r.Ok? && r.value == old(current) && current == old(current) && claims == old(claims)
        && lockManager.held == old(lockManager.held)
      ensures !(old(current) != null && old(current.lockValid)) ==>
        ScanOutcome(FirstFree(identities, old(lockManager.held), 0), r, old(lockManager.held), old(claims))
        && (r.Ok? ==> fresh(r.value))
      ensures r.Ok? ==> current == r.value && r.value.lockValid && r.value in claims
      ensures r.Err? ==> current == null && lockManager.held == old(lockManager.held)
    {
      if current != null {
        if current.lockValid {
          return Ok(current);
        }
        current := null;
      }
      r := Scan(0);
    }

    /** What a scan of the pool from some position leaves behind, given the first free index it meets. */
    ghost predicate ScanOutcome(first: Option<nat>, r: Result<IdentityClaim, ClaimError>,
                                oldHeld: set<string>, oldClaims: set<IdentityClaim>)
      reads this, lockManager, if r.Ok? then {r.value} else {}
    {
      match first
      case Some(i) =>
        && i < |identities|
        && r.Ok? && r.value !in oldClaims
        && r.value.username == identities[i].username && r.value.uid == identities[i].uid
        && r.value.lockManager == lockManager && r.value.lockValid
        && current == r.value && claims == oldClaims + {r.value}
        && lockManager.held == oldHeld + {identities[i].uid}
      case None =>
        && r == Err(IdentityClaimError(NoneAvailable))
        && current == null && claims == oldClaims
        && lockManager.held == oldHeld
    }

    /** Try the locks of `identities[from..]` in pool order; claim the first that succeeds. */
    method Scan(from: nat) returns (r: Result<IdentityClaim, ClaimError>)
      requires Valid() && current == null && from <= |identities|
      modifies this, lockManager
      ensures Valid()
      ensures lockManager.destroyed == old(lockManager.destroyed)
      ensures ScanOutcome(FirstFree(identities, old(lockManager.held), from), r, old(lockManager.held), old(claims))
      ensures r.Ok? ==> fresh(r.value)
    {
      for i := from to |identities|
        invariant current == null && claims == old(claims) && Valid()
        invariant lockManager.held == old(lockManager.held)
        invariant lockManager.destroyed == old(lockManager.destroyed)
        invariant forall k :: from <= k < i ==> identities[k].uid in old(lockManager.held)
      {
        var identity := identities[i];
        var ok := lockManager.Lock(identity.uid);
        if ok {
          var claim := new IdentityClaim(identity.username, identity.uid, lockManager);
          current := claim;
          claims := claims + {claim};
          return Ok(claim);
        }
      }
      r := Err(IdentityClaimError(NoneAvailable));
    }

    /** The position of a username in the pool. */
    function PoolIndex(username: string): (r: Option<nat>)
      ensures r.Some? ==> r.value < |identities| && identities[r.value].username == username
      ensures r.None? ==> forall k :: 0 <= k < |identities| ==> identities[k].username != username
    {
      PoolIndexFrom(username, 0)
    }

    function PoolIndexFrom(username: string, from: nat): (r: Option<nat>)
      ensures r.Some? ==> from <= r.value < |identities| && identities[r.value].username == username
      ensures r.None? ==> forall k :: from <= k < |identities| ==> identities[k].username != username
      decreases |identities| - from
    {
      if from >= |identities| then None
      else if identities[from].username == username then Some(from)
      else PoolIndexFrom(username, from + 1)
    }

    /**
     * `get_next_identity(previous)`: release `previous`, then scan the pool
     * from the position after `previous`'s (never from the start), so that
     * only identities after it can be returned.
     */
    method GetNextIdentity(previous: IdentityClaim) returns (r: Result<IdentityClaim, ClaimError>)
      requires Valid() && previous in claims
      modifies this, lockManager, previous
      ensures Valid() && old(claims) <= claims
      ensures !previous.lockValid
      ensures lockManager.destroyed == old(lockManager.destroyed)
      ensures PoolIndex(previous.username).Some?
      ensures ScanOutcome(
        FirstFree(identities, Released(old(lockManager.held), previous, old(previous.lockValid)),
                  PoolIndex(previous.username).value + 1),
        r, Released(old(lockManager.held), previous, old(previous.lockValid)), old(claims))
      ensures r.Ok? ==> fresh(r.value)
    {
      previous.Release();
      current := null;
      assert IdentityModel(previous.username, previous.uid) in identities;
      var position := PoolIndex(previous.username);
      r := Scan(position.value + 1);
    }

    /** The lock service's keys after `claim` is released. */
    static ghost function Released(held: set<string>, claim: IdentityClaim, wasValid: bool): set<string>
    {
      if wasValid then held - {claim.uid} else held
    }
  }
}
