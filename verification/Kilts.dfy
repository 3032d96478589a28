/**
 Worker identities and credentials (pallet-qx-kilt-permissions).

 `Kilt` is the pallet's storage as a value. Its functions say what each call does, by direct
 lookup; the class `KiltPermissions` holds the same storage in fields and does it the pallet's
 way, scanning the identity map in an arbitrary order.
 */
module Kilts {
  import opened Primitives

  const MAX_NAME := 128
  const MAX_DESCRIPTION := 512
  const MAX_MODELS := 100

  datatype CredentialStatus = Active | Suspended(until: u32) | Revoked
  {
    /** Whether a worker in this state may act at block `now`: a suspension lasts through its end block. */
    predicate Permits(now: u32) {
      match this
      case Active => true
      case Suspended(until) => now > until
      case Revoked => false
    }
  }

  datatype WorkerMetadata = WorkerMetadata(name: Bytes, description: Bytes, registeredAt: u32)

  datatype WorkerDid = WorkerDid(did: Did, account: Account, metadata: WorkerMetadata, status: CredentialStatus)

  datatype Credential = Credential(
    issuer: Did, subject: Did, models: seq<u32>, issuedAt: u32, expiresAt: Option<u32>)
  {
    predicate Expired(now: u32) {
      expiresAt.Some? && now > expiresAt.value
    }
  }

  /** The identity an account gets: the first 32 bytes of its hash, padded with zeros. */
  function DidOf(cfg: Config, account: Account): Did {
    var h := cfg.hash(account);
    DidIdentifier(if |h| >= 32 then h[..32] else h + seq(32 - |h|, _ => 0))
  }

  /** A 32-byte hash is the identity itself, byte for byte. */
  lemma DidIsHash(cfg: Config, account: Account)
    requires |cfg.hash(account)| == 32
    ensures DidOf(cfg, account) == DidIdentifier(cfg.hash(account))
  {
    assert cfg.hash(account)[..32] == cfg.hash(account);
  }

  lemma DidInjective(cfg: Config, a: Account, b: Account)
    requires cfg.WellFormed()
    ensures DidOf(cfg, a) == DidOf(cfg, b) <==> a == b
  {
    DidIsHash(cfg, a);
    DidIsHash(cfg, b);
  }

  datatype Kilt = Kilt(
    workerDids: map<Account, WorkerDid>,
    accountToDid: map<Account, Did>,
    credentials: map<Did, Credential>,
    governanceDid: Did)
  {
    function GetWorkerDid(account: Account): Result<Did> {
      if account in accountToDid then Ok(accountToDid[account]) else Err(AccountHasNoDID)
    }

    predicate Owns(account: Account, did: Did) {
      account in workerDids && workerDids[account].did == did
    }

    ghost predicate Registered(did: Did) {
      exists a :: Owns(a, did)
    }

    /** Direct lookup: the credential must exist and not have expired, and whoever owns the DID must be permitted. */
    ghost function Verify(did: Did, now: u32): Result<bool> {
      if did !in credentials then Err(WorkerCredentialNotFound)
      else if credentials[did].Expired(now) then Ok(false)
      else Ok(forall a :: Owns(a, did) ==> workerDids[a].status.Permits(now))
    }

    /** The check both worker calls start with: the caller's DID, if its credential verifies. */
    ghost function Authorize(account: Account, now: u32): Result<Did> {
      match GetWorkerDid(account)
      case Err(e) => Err(e)
      case Ok(did) =>
        match Verify(did, now)
        case Err(e) => Err(e)
        case Ok(valid) => if valid then Ok(did) else Err(InvalidWorkerCredential)
    }

    /** The status of the DID's owner, if it has one, becomes suspended; nothing else changes. */
    function Suspend(did: Did, until: u32): Kilt {
      this.(workerDids := map a | a in workerDids ::
        if workerDids[a].did == did then workerDids[a].(status := Suspended(until)) else workerDids[a])
    }

    function SetGovernanceDid(origin: Origin, did: Did): Result<Kilt> {
      if !origin.Root? then Err(BadOrigin)
      else Ok(this.(governanceDid := did))
    }

    function CreateWorkerDid(cfg: Config, now: u32, origin: Origin, name: Bytes, description: Bytes): Result<Kilt> {
      if !origin.Signed? then Err(BadOrigin)
      else if origin.who in workerDids then Err(WorkerDIDAlreadyExists)
      else if |name| > MAX_NAME || |description| > MAX_DESCRIPTION then Err(InvalidBoundedVec)
      else
        var did := DidOf(cfg, origin.who);
        var worker := WorkerDid(did, origin.who, WorkerMetadata(name, description, now), Active);
        Ok(this.(workerDids := workerDids[origin.who := worker], accountToDid := accountToDid[origin.who := did]))
    }

    function IssueWorkerCredential(
      now: u32, origin: Origin, did: Did, models: seq<u32>, validity: Option<u32>): Result<Kilt>
    {
      if !origin.Root? then Err(BadOrigin)
      else if |models| > MAX_MODELS then Err(InvalidBoundedVec)
      else
        var expiresAt := if validity.Some? then Some(SatAdd(now, validity.value)) else None;
        Ok(this.(credentials := credentials[did := Credential(governanceDid, did, models, now, expiresAt)]))
    }

    function RevokeWorkerCredential(origin: Origin, did: Did): Result<Kilt> {
      if !origin.Root? then Err(BadOrigin)
      else Ok(this.(credentials := credentials - {did}))
    }

    function SuspendWorker(cfg: Config, now: u32, origin: Origin, did: Did, duration: Option<u32>): Result<Kilt> {
      if !origin.Root? then Err(BadOrigin)
      else
        var period := if duration.Some? then duration.value else cfg.workerSuspensionPeriod;
        Ok(Suspend(did, SatAdd(now, period)))
    }
  }

  /** What every reachable identity registry satisfies at block `now`. */
  ghost predicate KiltInv(cfg: Config, k: Kilt, now: u32) {
    && k.workerDids.Keys == k.accountToDid.Keys
    && (forall a <- k.workerDids :: IdentityOk(cfg, k, a, now))
    && (forall d <- k.credentials :: k.credentials[d].subject == d && k.credentials[d].issuedAt <= now)
  }

  ghost predicate IdentityOk(cfg: Config, k: Kilt, a: Account, now: u32)
    requires a in k.workerDids && k.workerDids.Keys == k.accountToDid.Keys
  {
    var worker := k.workerDids[a];
    && worker.did == DidOf(cfg, a) == k.accountToDid[a]
    && worker.account == a
    && !worker.status.Revoked?
    && worker.metadata.registeredAt <= now
  }

  /** A DID has at most one owner, which is what makes the scans order-independent. */
  lemma OwnerUnique(cfg: Config, k: Kilt, now: u32, did: Did, a: Account, b: Account)
    requires cfg.WellFormed() && KiltInv(cfg, k, now)
    requires k.Owns(a, did) && k.Owns(b, did)
    ensures a == b
  {
    assert IdentityOk(cfg, k, a, now) && IdentityOk(cfg, k, b, now);
    DidInjective(cfg, a, b);
  }

  /** For a registered account, verification reads exactly its credential and its own status. */
  lemma VerifyReadsOwner(cfg: Config, k: Kilt, now: u32, a: Account, t: u32)
    requires cfg.WellFormed() && KiltInv(cfg, k, now)
    requires a in k.workerDids
    ensures k.GetWorkerDid(a) == Ok(DidOf(cfg, a))
    ensures k.Verify(DidOf(cfg, a), t) ==
            if DidOf(cfg, a) !in k.credentials then Err(WorkerCredentialNotFound)
            else Ok(!k.credentials[DidOf(cfg, a)].Expired(t) && k.workerDids[a].status.Permits(t))
  {
    assert IdentityOk(cfg, k, a, now);
    assert k.Owns(a, DidOf(cfg, a));
    forall b | k.Owns(b, DidOf(cfg, a)) ensures b == a {
      OwnerUnique(cfg, k, now, DidOf(cfg, a), a, b);
    }
  }

  /**
   Looking an account up and asking who owns a DID are inverse to each other: the lookup finds a DID
   exactly for its one owner, and reports an error exactly for an account that owns none.
   */
  lemma LookupFindsOwner(cfg: Config, k: Kilt, now: u32, a: Account, did: Did)
    requires cfg.WellFormed() && KiltInv(cfg, k, now)
    ensures k.GetWorkerDid(a) == Ok(did) <==> k.Owns(a, did)
    ensures k.GetWorkerDid(a) == Ok(did) ==> forall b :: k.GetWorkerDid(b) == Ok(did) ==> b == a
    ensures k.GetWorkerDid(a) == Err(AccountHasNoDID) <==> forall d :: !k.Owns(a, d)
  {
    assert a in k.workerDids ==> IdentityOk(cfg, k, a, now) && k.Owns(a, k.workerDids[a].did);
    forall b | k.GetWorkerDid(a) == Ok(did) && k.GetWorkerDid(b) == Ok(did) ensures b == a {
      assert IdentityOk(cfg, k, b, now);
      OwnerUnique(cfg, k, now, did, a, b);
    }
  }

  /** Suspending a DID nobody owns changes nothing. */
  lemma SuspendUnowned(k: Kilt, did: Did, until: u32)
    requires !k.Registered(did)
    ensures k.Suspend(did, until) == k
  {
    forall a <- k.workerDids ensures k.workerDids[a].did != did {
      assert !k.Owns(a, did);
    }
    assert k.Suspend(did, until).workerDids == k.workerDids;
  }

  /** Suspending a DID with an owner changes exactly that owner's status. */
  lemma SuspendOwned(cfg: Config, k: Kilt, now: u32, did: Did, until: u32, owner: Account)
    requires cfg.WellFormed() && KiltInv(cfg, k, now)
    requires k.Owns(owner, did)
    ensures k.Suspend(did, until) ==
            k.(workerDids := k.workerDids[owner := k.workerDids[owner].(status := Suspended(until))])
  {
    forall a <- k.workerDids ensures k.workerDids[a].did == did <==> a == owner {
      if k.Owns(a, did) {
        OwnerUnique(cfg, k, now, did, owner, a);
      }
    }
    assert k.Suspend(did, until).workerDids ==
           k.workerDids[owner := k.workerDids[owner].(status := Suspended(until))];
  }

  /** `k'` keeps every identity `k` has, with its DID and metadata; suspended workers stay out of the active state. */
  ghost predicate IdentitiesKept(k: Kilt, k': Kilt) {
    && (forall a <- k.workerDids ::
          && a in k'.workerDids
          && k'.workerDids[a].(status := k.workerDids[a].status) == k.workerDids[a]
          && (k.workerDids[a].status.Suspended? ==> k'.workerDids[a].status.Suspended?))
    && (forall a <- k.accountToDid :: a in k'.accountToDid && k'.accountToDid[a] == k.accountToDid[a])
  }

  lemma CreateKeepsInv(cfg: Config, k: Kilt, now: u32, origin: Origin, name: Bytes, description: Bytes)
    requires KiltInv(cfg, k, now)
    requires k.CreateWorkerDid(cfg, now, origin, name, description).Ok?
    ensures KiltInv(cfg, k.CreateWorkerDid(cfg, now, origin, name, description).value, now)
    ensures IdentitiesKept(k, k.CreateWorkerDid(cfg, now, origin, name, description).value)
  {
    var k' := k.CreateWorkerDid(cfg, now, origin, name, description).value;
    forall a <- k'.workerDids ensures IdentityOk(cfg, k', a, now) {
      if a != origin.who {
        assert IdentityOk(cfg, k, a, now);
      }
    }
  }

  lemma SuspendKeepsInv(cfg: Config, k: Kilt, now: u32, did: Did, until: u32)
    requires KiltInv(cfg, k, now)
    ensures KiltInv(cfg, k.Suspend(did, until), now)
    ensures IdentitiesKept(k, k.Suspend(did, until))
  {
    var k' := k.Suspend(did, until);
    assert k'.workerDids.Keys == k.workerDids.Keys;
    forall a <- k'.workerDids ensures IdentityOk(cfg, k', a, now) {
      assert IdentityOk(cfg, k, a, now);
    }
  }

  /** Credential calls and the passing of blocks leave identities alone. */
  lemma CredentialsKeepInv(cfg: Config, k: Kilt, now: u32, later: u32, k': Kilt)
    requires KiltInv(cfg, k, now) && now <= later
    requires k'.workerDids == k.workerDids && k'.accountToDid == k.accountToDid
    requires forall d <- k'.credentials ::
      (d in k.credentials && k'.credentials[d] == k.credentials[d]) ||
      (k'.credentials[d].subject == d && k'.credentials[d].issuedAt <= later)
    ensures KiltInv(cfg, k', later)
    ensures IdentitiesKept(k, k')
  {
    forall a <- k'.workerDids ensures IdentityOk(cfg, k', a, later) {
      assert IdentityOk(cfg, k, a, now);
    }
  }

  /** The pallet's storage, and its calls as the pallet carries them out. */
  class KiltPermissions {
    var workerDids: map<Account, WorkerDid>
    var accountToDid: map<Account, Did>
    var credentials: map<Did, Credential>
    var governanceDid: Did

    function State(): Kilt
      reads this
    {
      Kilt(workerDids, accountToDid, credentials, governanceDid)
    }

    constructor (initial: Kilt)
      ensures State() == initial
    {
      workerDids, accountToDid := initial.workerDids, initial.accountToDid;
      credentials, governanceDid := initial.credentials, initial.governanceDid;
    }

    method Restore(saved: Kilt)
      modifies this
      ensures State() == saved
    {
      workerDids, accountToDid := saved.workerDids, saved.accountToDid;
      credentials, governanceDid := saved.credentials, saved.governanceDid;
    }

    /** Copies the hash into a zeroed 32-byte buffer. */
    static method GenerateDid(cfg: Config, account: Account) returns (did: Did)
      ensures did == DidOf(cfg, account)
      ensures |cfg.hash(account)| >= 32 ==> did.bytes == cfg.hash(account)[..32]
      ensures |cfg.hash(account)| < 32 ==> cfg.hash(account) <= did.bytes
      ensures forall i :: |cfg.hash(account)| <= i < 32 ==> did.bytes[i] == 0
    {
      var buffer := new u8[32](_ => 0);
      var hash := cfg.hash(account);
      var len := if |hash| < 32 then |hash| else 32;
      forall i | 0 <= i < len {
        buffer[i] := hash[i];
      }
      did := DidIdentifier(buffer[..]);
    }

    method SetGovernanceDid(origin: Origin, did: Did) returns (r: Result<()>)
      modifies this
      ensures r == Report(old(State()).SetGovernanceDid(origin, did))
      ensures State() == After(old(State()), old(State()).SetGovernanceDid(origin, did))
    {
      if !origin.Root? { return Err(BadOrigin); }
      governanceDid := did;
      return Ok(());
    }

    method CreateWorkerDid(cfg: Config, now: u32, origin: Origin, name: Bytes, description: Bytes)
      returns (r: Result<()>)
      modifies this
      ensures r == Report(old(State()).CreateWorkerDid(cfg, now, origin, name, description))
      ensures State() == After(old(State()), old(State()).CreateWorkerDid(cfg, now, origin, name, description))
    {
      if !origin.Signed? { return Err(BadOrigin); }
      var who := origin.who;
      if who in workerDids { return Err(WorkerDIDAlreadyExists); }
      var did := GenerateDid(cfg, who);
      if |name| > MAX_NAME { return Err(InvalidBoundedVec); }
      if |description| > MAX_DESCRIPTION { return Err(InvalidBoundedVec); }
      workerDids := workerDids[who := WorkerDid(did, who, WorkerMetadata(name, description, now), Active)];
      accountToDid := accountToDid[who := did];
      return Ok(());
    }

    method IssueWorkerCredential(now: u32, origin: Origin, did: Did, models: seq<u32>, validity: Option<u32>)
      returns (r: Result<()>)
      modifies this
      ensures r == Report(old(State()).IssueWorkerCredential(now, origin, did, models, validity))
      ensures State() == After(old(State()), old(State()).IssueWorkerCredential(now, origin, did, models, validity))
    {
      if !origin.Root? { return Err(BadOrigin); }
      var expiresAt := None;
      if validity.Some? { expiresAt := Some(SatAdd(now, validity.value)); }
      if |models| > MAX_MODELS { return Err(InvalidBoundedVec); }
      credentials := credentials[did := Credential(governanceDid, did, models, now, expiresAt)];
      return Ok(());
    }

    method RevokeWorkerCredential(origin: Origin, did: Did) returns (r: Result<()>)
      modifies this
      ensures r == Report(old(State()).RevokeWorkerCredential(origin, did))
      ensures State() == After(old(State()), old(State()).RevokeWorkerCredential(origin, did))
    {
      if !origin.Root? { return Err(BadOrigin); }
      credentials := credentials - {did};
      return Ok(());
    }

    /** The call: defaults the duration, then scans for the owner. */
    method SuspendWorker(cfg: Config, now: u32, origin: Origin, did: Did, duration: Option<u32>)
      returns (r: Result<()>)
      requires cfg.WellFormed() && KiltInv(cfg, State(), now)
      modifies this
      ensures r == Report(old(State()).SuspendWorker(cfg, now, origin, did, duration))
      ensures State() == After(old(State()), old(State()).SuspendWorker(cfg, now, origin, did, duration))
    {
      if !origin.Root? { return Err(BadOrigin); }
      var period := cfg.workerSuspensionPeriod;
      if duration.Some? { period := duration.value; }
      SuspendScan(cfg, now, did, SatAdd(now, period));
      return Ok(());
    }

    /** The helper without an origin check, with an explicit duration. */
    method SuspendWorkerCredential(cfg: Config, now: u32, did: Did, duration: u32)
      requires cfg.WellFormed() && KiltInv(cfg, State(), now)
      modifies this
      ensures Ok(State()) == old(State()).SuspendWorker(cfg, now, Root, did, Some(duration))
    {
      SuspendScan(cfg, now, did, SatAdd(now, duration));
    }

    /** Walks the identities in an arbitrary order, suspends the first one with this DID and stops. */
    method SuspendScan(cfg: Config, now: u32, did: Did, until: u32)
      requires cfg.WellFormed() && KiltInv(cfg, State(), now)
      modifies this
      ensures State() == old(State()).Suspend(did, until)
    {
      var rest := workerDids.Keys;
      while rest != {}
        invariant rest <= workerDids.Keys
        invariant State() == old(State())
        invariant forall a :: State().Owns(a, did) ==> a in rest
        decreases rest
      {
        var account :| account in rest;
        if workerDids[account].did == did {
          SuspendOwned(cfg, State(), now, did, until, account);
          workerDids := workerDids[account := workerDids[account].(status := Suspended(until))];
          return;
        }
        rest := rest - {account};
      }
      SuspendUnowned(State(), did, until);
    }

    /** Walks the identities in an arbitrary order and answers from the first one with this DID. */
    method VerifyWorkerCredential(cfg: Config, now: u32, did: Did) returns (r: Result<bool>)
      requires cfg.WellFormed() && KiltInv(cfg, State(), now)
      ensures r == State().Verify(did, now)
    {
      if did !in credentials { return Err(WorkerCredentialNotFound); }
      var credential := credentials[did];
      if credential.expiresAt.Some? {
        if now > credential.expiresAt.value { return Ok(false); }
      }
      var rest := workerDids.Keys;
      while rest != {}
        invariant rest <= workerDids.Keys
        invariant forall a :: State().Owns(a, did) ==> a in rest
        decreases rest
      {
        var account :| account in rest;
        var info := workerDids[account];
        if info.did == did {
          assert State().Owns(account, did);
          forall b | State().Owns(b, did) ensures b == account {
            OwnerUnique(cfg, State(), now, did, account, b);
          }
          match info.status {
            case Active => return Ok(true);
            case Suspended(until) =>
              if now > until { return Ok(true); }
              return Ok(false);
            case Revoked => return Ok(false);
          }
        }
        rest := rest - {account};
      }
      return Ok(true);
    }

    method GetWorkerDid(account: Account) returns (r: Result<Did>)
      ensures r == State().GetWorkerDid(account)
    {
      if account in accountToDid {
        return Ok(accountToDid[account]);
      }
      return Err(AccountHasNoDID);
    }
  }
}
