/** The durable authorization snapshot: two row tables and a head with a digest. */
module SnapshotRepository {
  import opened Primitives
  import opened Snapshots

  datatype CommitOutcome = Applied(previous: Option<nat>, current: nat) | Unchanged(version: nat)

  datatype CommitError = Codec | Corrupt | StaleVersion(current: nat, received: nat) | ConflictingVersion(version: nat)

  datatype Committed = Committed(head: Option<Snapshot>, reply: Result<CommitOutcome, CommitError>)

  /** An operator's commit of a complete snapshot: only a newer version replaces the head. */
  function CommitSnapshot(head: Option<Snapshot>, candidate: Snapshot): Committed {
    if !Encodable(candidate.grants) then Committed(head, Err(Codec))
    else if head.Some? && candidate.version < head.value.version then
      Committed(head, Err(StaleVersion(head.value.version, candidate.version)))
    else if head.Some? && candidate.version == head.value.version then
      Committed(head, if candidate.grants == head.value.grants then Ok(Unchanged(candidate.version))
                      else Err(ConflictingVersion(candidate.version)))
    else
      Committed(Some(candidate),
                Ok(Applied(if head.None? then None else Some(head.value.version), candidate.version)))
  }

  type AgentRows = map<Fingerprint, AgentId>
  type TunnelRows = map<(Fingerprint, TunnelId), TunnelStatus>

  /** The row tables hold exactly these grants. */
  ghost predicate Represents(agents: AgentRows, tunnels: TunnelRows, grants: Grants) {
    && agents.Keys == grants.Keys
    && (forall fp | fp in grants :: agents[fp] == grants[fp].agent)
    && (forall fp, t :: (fp, t) in tunnels <==> fp in grants && t in grants[fp].tunnels)
    && (forall fp, t | (fp, t) in tunnels :: tunnels[(fp, t)] == grants[fp].tunnels[t])
  }

  lemma RepresentsOne(agents: AgentRows, tunnels: TunnelRows, a: Grants, b: Grants)
    requires Represents(agents, tunnels, a) && Represents(agents, tunnels, b)
    ensures a == b
  {
    forall fp | fp in a ensures fp in b && a[fp] == b[fp] {
      forall t | t in a[fp].tunnels ensures t in b[fp].tunnels && a[fp].tunnels[t] == b[fp].tunnels[t] {
        assert (fp, t) in tunnels;
      }
      forall t | t in b[fp].tunnels ensures t in a[fp].tunnels {
        assert (fp, t) in tunnels;
      }
      assert a[fp].tunnels == b[fp].tunnels;
    }
  }

  lemma TunnelInserted(agents: AgentRows, tunnels: TunnelRows, base: Grants, fp: Fingerprint, agent: AgentId,
                       rows: map<TunnelId, TunnelStatus>, t: TunnelId, status: TunnelStatus)
    requires Represents(agents, tunnels, base[fp := AgentGrant(agent, rows)])
    ensures Represents(agents, tunnels[(fp, t) := status], base[fp := AgentGrant(agent, rows[t := status])])
  {
  }

  lemma AgentInserted(agents: AgentRows, tunnels: TunnelRows, base: Grants, fp: Fingerprint, agent: AgentId)
    requires Represents(agents, tunnels, base) && fp !in base
    ensures Represents(agents[fp := agent], tunnels, base[fp := AgentGrant(agent, map[])])
  {
  }

  lemma OneMore<K, V>(all: map<K, V>, left: set<K>, k: K)
    requires k in all && k in left
    ensures (all - left)[k := all[k]] == all - (left - {k})
  {
  }

  datatype Head = Head(version: nat, digest: Digest<Grants>)

  class SnapshotTables {
    var agents: AgentRows
    var tunnels: TunnelRows
    var head: Option<Head>
    ghost var contents: Grants

    ghost predicate Valid()
      reads this
    {
      && Represents(agents, tunnels, contents)
      && (head.None? ==> contents == map[])
      && (head.Some? ==> head.value.digest == Sha256(contents))
    }

    ghost function Latest(): Option<Snapshot>
      reads this
    {
      if head.None? then None else Some(Snapshot(head.value.version, contents))
    }

    constructor ()
      ensures Valid() && Latest() == None
    {
      agents, tunnels, head, contents := map[], map[], None, map[];
    }

    /** Inserts the tunnel rows of one certificate, one after another. */
    method InsertTunnels(fp: Fingerprint, agent: AgentId, rows: map<TunnelId, TunnelStatus>, ghost base: Grants)
      requires Represents(agents, tunnels, base[fp := AgentGrant(agent, map[])])
      modifies this`tunnels
      ensures Represents(agents, tunnels, base[fp := AgentGrant(agent, rows)])
    {
      var left := rows.Keys;
      ghost var inserted: map<TunnelId, TunnelStatus> := map[];
      while left != {}
        invariant left <= rows.Keys && inserted == rows - left
        invariant Represents(agents, tunnels, base[fp := AgentGrant(agent, inserted)])
        decreases |left|
      {
        var t :| t in left;
        TunnelInserted(agents, tunnels, base, fp, agent, inserted, t, rows[t]);
        tunnels := tunnels[(fp, t) := rows[t]];
        left := left - {t};
        inserted := inserted[t := rows[t]];
      }
      assert inserted == rows;
    }

    method InsertGrant(fp: Fingerprint, grant: AgentGrant, ghost base: Grants)
      requires Represents(agents, tunnels, base) && fp !in base
      modifies this`agents, this`tunnels
      ensures Represents(agents, tunnels, base[fp := grant])
    {
      AgentInserted(agents, tunnels, base, fp, grant.agent);
      agents := agents[fp := grant.agent];
      InsertTunnels(fp, grant.agent, grant.tunnels, base);
    }

    /** Deletes every row and inserts the grants again. */
    method ReplaceRows(grants: Grants)
      modifies this`agents, this`tunnels, this`contents
      ensures contents == grants && Represents(agents, tunnels, contents)
    {
      tunnels := map[];
      agents := map[];
      var left := grants.Keys;
      ghost var inserted: Grants := map[];
      while left != {}
        invariant left <= grants.Keys && inserted == grants - left
        invariant Represents(agents, tunnels, inserted)
        decreases |left|
      {
        var fp :| fp in left;
        InsertGrant(fp, grants[fp], inserted);
        OneMore(grants, left, fp);
        left := left - {fp};
        inserted := inserted[fp := grants[fp]];
      }
      assert inserted == grants;
      contents := grants;
    }

    /** The stored rows as grants, checked against the head's digest. */
    method LoadLatest() returns (r: Result<Option<Snapshot>, CommitError>)
      requires Valid()
      ensures r == if head.Some? && !Encodable(contents) then Err(Codec) else Ok(Latest())
    {
      if head.None? { return Ok(None); }
      var grants := ReadRows();
      if !Encodable(grants) { return Err(Codec); }
      if head.value.digest != Sha256(grants) { assert false; return Err(Corrupt); }
      return Ok(Some(Snapshot(head.value.version, grants)));
    }

    method ReadTunnels(fp: Fingerprint) returns (rows: map<TunnelId, TunnelStatus>)
      requires Represents(agents, tunnels, contents) && fp in contents
      ensures rows == contents[fp].tunnels
    {
      var left := tunnels.Keys;
      rows := map[];
      while left != {}
        invariant left <= tunnels.Keys
        invariant forall t :: t in rows <==> (fp, t) in tunnels && (fp, t) !in left
        invariant forall t | t in rows :: rows[t] == tunnels[(fp, t)]
        decreases |left|
      {
        var row :| row in left;
        assert row == (row.0, row.1);
        if row.0 == fp { rows := rows[row.1 := tunnels[row]]; }
        left := left - {row};
      }
      assert forall t | t in contents[fp].tunnels :: (fp, t) in tunnels;
      assert rows == contents[fp].tunnels;
    }

    method ReadRows() returns (grants: Grants)
      requires Represents(agents, tunnels, contents)
      ensures grants == contents
    {
      var left := agents.Keys;
      grants := map[];
      while left != {}
        invariant left <= agents.Keys && grants == contents - left
        decreases |left|
      {
        var fp :| fp in left;
        var rows := ReadTunnels(fp);
        grants := grants[fp := AgentGrant(agents[fp], rows)];
        left := left - {fp};
      }
      assert grants == contents;
    }

    /** Makes `candidate` the head, rows and digest together. */
    method Replace(candidate: Snapshot)
      modifies this
      ensures Valid() && Latest() == Some(candidate)
    {
      ReplaceRows(candidate.grants);
      head := Some(Head(candidate.version, Sha256(candidate.grants)));
    }

    method Commit(candidate: Snapshot) returns (r: Result<CommitOutcome, CommitError>)
      requires Valid()
      modifies this
      ensures Valid()
      ensures Committed(Latest(), r) == CommitSnapshot(old(Latest()), candidate)
    {
      if !Encodable(candidate.grants) { return Err(Codec); }
      var digest := Sha256(candidate.grants);
      var previous: Option<nat> := None;
      if head.Some? {
        if candidate.version < head.value.version {
          return Err(StaleVersion(head.value.version, candidate.version));
        }
        if candidate.version == head.value.version {
          if head.value.digest == digest { return Ok(Unchanged(candidate.version)); }
          return Err(ConflictingVersion(candidate.version));
        }
        previous := Some(head.value.version);
      }
      Replace(candidate);
      return Ok(Applied(previous, candidate.version));
    }
  }

  /** A commit is accepted exactly if it can be encoded and is newer than the head or the
      same again; it is the head then, and otherwise the head stays. */
  lemma CommitOutcomeIsExact(head: Option<Snapshot>, candidate: Snapshot)
    ensures var done := CommitSnapshot(head, candidate);
            && (done.reply.Ok? <==>
                  && Encodable(candidate.grants)
                  && (head.None? || head.value.version < candidate.version || head == Some(candidate)))
            && done.head == (if done.reply.Ok? then Some(candidate) else head)
            && (done.reply.Ok? ==> (done.reply.value.Unchanged? <==> head == Some(candidate)))
  {
  }
}
