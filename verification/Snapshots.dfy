/** The certificate-to-Agent-to-Tunnel authorization snapshot. */
module Snapshots {
  import opened Primitives

  // The 32 bytes are read as one big-endian number, so that the order of blobs in
  // SQL is the order of numbers.
  datatype Fingerprint = Fingerprint(digest: int)

  type AgentId = string
  type TunnelId = string

  datatype TunnelStatus = Enabled | Disabled

  datatype AgentGrant = AgentGrant(agent: AgentId, tunnels: map<TunnelId, TunnelStatus>)

  type Grants = map<Fingerprint, AgentGrant>

  datatype Snapshot = Snapshot(version: nat, grants: Grants)

  datatype AuthorizationError = UnknownCertificate | AgentMismatch | TunnelNotAuthorized | TunnelDisabled

  const MAX_AGENTS_PER_SNAPSHOT := 4096
  const MAX_TUNNELS_PER_AGENT := 4096

  predicate Bounded(grant: AgentGrant) {
    |grant.tunnels| <= MAX_TUNNELS_PER_AGENT
  }

  /** The bounds under which a snapshot has a digest at all. */
  predicate Encodable(grants: Grants) {
    && |grants| <= MAX_AGENTS_PER_SNAPSHOT
    && forall fp {:trigger Bounded(grants[fp])} | fp in grants :: Bounded(grants[fp])
  }

  function Authorize(grants: Grants, certificate: Fingerprint, agent: AgentId, tunnel: TunnelId)
    : Result<(), AuthorizationError>
  {
    if certificate !in grants then Err(UnknownCertificate)
    else if grants[certificate].agent != agent then Err(AgentMismatch)
    else if tunnel !in grants[certificate].tunnels then Err(TunnelNotAuthorized)
    else if grants[certificate].tunnels[tunnel].Disabled? then Err(TunnelDisabled)
    else Ok(())
  }

  function WithoutTunnel(grant: AgentGrant, agent: AgentId, tunnel: TunnelId): AgentGrant {
    if grant.agent == agent then grant.(tunnels := grant.tunnels - {tunnel}) else grant
  }

  /** Drops one tunnel of one Agent, and every grant that is left (or was already) without tunnels. */
  function RemoveAgentTunnel(grants: Grants, agent: AgentId, tunnel: TunnelId): Grants {
    map fp | fp in grants && WithoutTunnel(grants[fp], agent, tunnel).tunnels != map[]
      :: WithoutTunnel(grants[fp], agent, tunnel)
  }

  /** Exactly the pair (agent, tunnel) loses its authority; every other triple keeps its answer. */
  lemma RemoveAgentTunnelExact(grants: Grants, agent: AgentId, tunnel: TunnelId,
                               certificate: Fingerprint, a: AgentId, t: TunnelId)
    ensures Authorize(RemoveAgentTunnel(grants, agent, tunnel), certificate, a, t).Ok?
            <==> Authorize(grants, certificate, a, t).Ok? && (a, t) != (agent, tunnel)
  {
    if certificate in grants {
      var rest := WithoutTunnel(grants[certificate], agent, tunnel);
      if grants[certificate].agent == a && t in grants[certificate].tunnels && (a, t) != (agent, tunnel) {
        assert t in rest.tunnels;
        assert rest.tunnels != map[];
      }
    }
  }

  lemma RemoveAgentTunnelIdempotent(grants: Grants, agent: AgentId, tunnel: TunnelId)
    ensures RemoveAgentTunnel(RemoveAgentTunnel(grants, agent, tunnel), agent, tunnel)
            == RemoveAgentTunnel(grants, agent, tunnel)
  {
    var once := RemoveAgentTunnel(grants, agent, tunnel);
    forall fp | fp in once
      ensures WithoutTunnel(once[fp], agent, tunnel) == once[fp]
    {
      assert once[fp].tunnels - {tunnel} == once[fp].tunnels || once[fp].agent != agent;
    }
  }

  /** A snapshot whose certificates are a subset, each with no more tunnels, stays encodable. */
  lemma SmallerIsEncodable(small: Grants, large: Grants)
    requires Encodable(large)
    requires small.Keys <= large.Keys
    requires forall fp :: fp in small ==> small[fp].tunnels.Keys <= large[fp].tunnels.Keys
    ensures Encodable(small)
  {
    Subset(small.Keys, large.Keys);
    forall fp | fp in small
      ensures Bounded(small[fp])
    {
      assert Bounded(large[fp]);
      Subset(small[fp].tunnels.Keys, large[fp].tunnels.Keys);
    }
  }

  lemma WithoutIsEncodable(grants: Grants, removed: set<Fingerprint>)
    requires Encodable(grants)
    ensures Encodable(grants - removed)
  {
    SmallerIsEncodable(grants - removed, grants);
  }

  lemma Subset<T>(small: set<T>, large: set<T>)
    requires small <= large
    ensures |small| <= |large|
  {
    assert large == small + (large - small);
  }

  /** The status of a tunnel decides: disabling it denies exactly its own certificate and
      tunnel, and enabling it grants exactly that, to the certificate's Agent. */
  lemma StatusDecides(grants: Grants, fp: Fingerprint, tunnel: TunnelId, status: TunnelStatus,
                      certificate: Fingerprint, a: AgentId, t: TunnelId)
    requires fp in grants
    ensures var changed := grants[fp := grants[fp].(tunnels := grants[fp].tunnels[tunnel := status])];
            Authorize(changed, certificate, a, t).Ok? <==>
            if (certificate, t) == (fp, tunnel) then status.Enabled? && a == grants[fp].agent
            else Authorize(grants, certificate, a, t).Ok?
  {
  }
}
