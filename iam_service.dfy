/** The identity table: provisions, validates and revokes ephemeral agent
    identities (src/core/iam_service.py). Time is a parameter `now`, in seconds. */
module Iam {

  import opened Values

  datatype AgentRole = AgentRole(name: string, description: string)

  datatype AgentIdentity = AgentIdentity(
    agentId: string,
    role: AgentRole,
    scopes: set<string>,
    createdAt: real,
    ttl: int)

  /** The default time-to-live of an identity, one hour. */
  const DefaultTtl: int := 3600

  /** Expiry is strict: at exactly `ttl` seconds the identity is still valid. */
  predicate IsExpired(identity: AgentIdentity, now: real)
  {
    now - identity.createdAt > identity.ttl as real
  }

  /** Plain membership: a scope such as "*" is one more string, not a wildcard. */
  predicate HasScope(identity: AgentIdentity, requiredScope: string)
  {
    requiredScope in identity.scopes
  }

  predicate IsHexDigit(c: char)
  {
    '0' <= c <= '9' || 'a' <= c <= 'f'
  }

  /** The value of `uuid.uuid4().hex`: 32 lower-case hexadecimal digits. */
  predicate IsUuidHex(h: string)
  {
    |h| == 32 && forall i :: 0 <= i < |h| ==> IsHexDigit(h[i])
  }

  /** The shape of every provisioned id: "agt_" followed by 8 hexadecimal digits. */
  predicate IsAgentId(id: string)
  {
    |id| == 12 && id[..4] == "agt_" && forall i :: 4 <= i < 12 ==> IsHexDigit(id[i])
  }

  /** The active identities, by id. */
  type Table = map<string, AgentIdentity>

  datatype IamError = Unregistered(agentId: string) | Expired(agentId: string)

  /** The text of the `PermissionError` that `validate_agent` raises. */
  function ErrorMessage(e: IamError): string
  {
    match e
    case Unregistered(id) => "IAM: Agent " + id + " is not registered or anonymous."
    case Expired(id) => "IAM: Token expired for agent " + id + ". Execution blocked."
  }

  function NewIdentity(role: AgentRole, scopes: seq<string>, ttl: int, uuidHex: string, now: real): (identity: AgentIdentity)
    requires IsUuidHex(uuidHex)
    ensures IsAgentId(identity.agentId) && identity.agentId[4..] == uuidHex[..8]
    ensures identity.role == role && identity.ttl == ttl && identity.createdAt == now
    ensures forall s :: s in identity.scopes <==> s in scopes
  {
    AgentIdentity("agt_" + uuidHex[..8], role, (set s | s in scopes), now, ttl)
  }

  /** `provision_identity` on the table `t`: the new identity and the new table.
      A colliding id would overwrite the old entry, as a dict assignment does. */
  function Provision(t: Table, role: AgentRole, scopes: seq<string>, ttl: int, uuidHex: string, now: real): (r: (AgentIdentity, Table))
    requires IsUuidHex(uuidHex)
    ensures IsAgentId(r.0.agentId)
    ensures r.0.role == role && r.0.ttl == ttl && r.0.createdAt == now
    ensures forall s :: s in r.0.scopes <==> s in scopes
    ensures r.0.agentId in r.1 && r.1[r.0.agentId] == r.0
    ensures r.1.Keys == t.Keys + {r.0.agentId}
    ensures forall id :: id in t && id != r.0.agentId ==> r.1[id] == t[id]
  {
    var identity := NewIdentity(role, scopes, ttl, uuidHex, now);
    (identity, t[identity.agentId := identity])
  }

  /** `revoke_identity`: remove the id if present; otherwise a no-op. */
  function Revoke(t: Table, agentId: string): (r: Table)
    ensures agentId !in r
    ensures r.Keys == t.Keys - {agentId}
    ensures forall id :: id in r ==> r[id] == t[id]
    ensures agentId !in t ==> r == t
  {
    t - {agentId}
  }

  /** `validate_agent` on the table `t`: the outcome and the table afterwards. */
  function Validate(t: Table, agentId: string, now: real): (r: (Result<AgentIdentity, IamError>, Table))
    ensures agentId !in t ==> r == (Err(Unregistered(agentId)), t)
    ensures agentId in t && IsExpired(t[agentId], now) ==>
              r.0 == Err(Expired(agentId)) && r.1 == Revoke(t, agentId)
    ensures r.0.Ok? <==> agentId in t && !IsExpired(t[agentId], now)
    ensures r.0.Ok? ==> r.0.value == t[agentId] && r.1 == t
    ensures r.0.Err? ==> agentId !in r.1 && r.0.error.agentId == agentId
  {
    if agentId !in t then (Err(Unregistered(agentId)), t)
    else if IsExpired(t[agentId], now) then (Err(Expired(agentId)), Revoke(t, agentId))
    else (Ok(t[agentId]), t)
  }

  /** A failed validation leaves the id out of the table, so no later
      validation of it succeeds, whatever the clock says: expiry never flaps. */
  lemma FailureIsFinal(t: Table, agentId: string, now: real, later: real)
    requires Validate(t, agentId, now).0.Err?
    ensures Validate(Validate(t, agentId, now).1, agentId, later) ==
            (Err(Unregistered(agentId)), Validate(t, agentId, now).1)
  {
  }

  /** Revocation is final: every later validation of that id fails. */
  lemma RevokedNeverValidates(t: Table, agentId: string, now: real)
    ensures Validate(Revoke(t, agentId), agentId, now).0 == Err(Unregistered(agentId))
  {
  }

  /** A fresh identity validates at every moment up to and including
      `created_at + ttl`, and fails at every moment after it. */
  lemma {:induction false} ValidityWindow(t: Table, role: AgentRole, scopes: seq<string>, ttl: int, uuidHex: string, created: real, now: real)
    requires IsUuidHex(uuidHex)
    ensures var (identity, t1) := Provision(t, role, scopes, ttl, uuidHex, created);
            Validate(t1, identity.agentId, now).0.Ok? <==> now <= created + ttl as real
  {
    var (identity, t1) := Provision(t, role, scopes, ttl, uuidHex, created);
    assert identity.agentId in t1 && t1[identity.agentId] == identity;
  }

  /** Provisioning an id that is not yet active adds exactly one entry. */
  lemma ProvisionFreshGrows(t: Table, role: AgentRole, scopes: seq<string>, ttl: int, uuidHex: string, now: real)
    requires IsUuidHex(uuidHex)
    requires "agt_" + uuidHex[..8] !in t
    ensures |Provision(t, role, scopes, ttl, uuidHex, now).1| == |t| + 1
  {
    var (identity, t1) := Provision(t, role, scopes, ttl, uuidHex, now);
    assert identity.agentId == "agt_" + uuidHex[..8];
    assert t1.Keys == t.Keys + {identity.agentId};
  }

  /** A provisioned identity holds exactly the scopes it was given: "*" among
      them grants no other scope. */
  lemma ProvisionedScopesExact(t: Table, role: AgentRole, scopes: seq<string>, ttl: int, uuidHex: string, now: real, s: string)
    requires IsUuidHex(uuidHex)
    ensures var identity := Provision(t, role, scopes, ttl, uuidHex, now).0;
            HasScope(identity, s) <==> s in scopes
  {
  }

  class IamService {
    var activeAgents: Table

    constructor ()
      ensures activeAgents == map[]
    {
      activeAgents := map[];
    }

    method ProvisionIdentity(role: AgentRole, scopes: seq<string>, ttl: int, uuidHex: string, now: real)
      returns (identity: AgentIdentity)
      requires IsUuidHex(uuidHex)
      modifies this
      ensures (identity, activeAgents) == Provision(old(activeAgents), role, scopes, ttl, uuidHex, now)
    {
      identity := NewIdentity(role, scopes, ttl, uuidHex, now);
      activeAgents := activeAgents[identity.agentId := identity];
    }

    method ValidateAgent(agentId: string, now: real) returns (r: Result<AgentIdentity, IamError>)
      modifies this
      ensures (r, activeAgents) == Validate(old(activeAgents), agentId, now)
    {
      if agentId !in activeAgents {
        return Err(Unregistered(agentId));
      }
      var identity := activeAgents[agentId];
      if IsExpired(identity, now) {
        RevokeIdentity(agentId);
        return Err(Expired(agentId));
      }
      r := Ok(identity);
    }

    method RevokeIdentity(agentId: string)
      modifies this
      ensures activeAgents == Revoke(old(activeAgents), agentId)
    {
      if agentId in activeAgents {
        activeAgents := activeAgents - {agentId};
      }
    }
  }
}
