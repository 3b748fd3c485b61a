/**
 * The LH-Raft election state machine: a registry of consensus nodes keyed by id,
 * a map from zone to the id of its elected leader, and a reputation threshold.
 * A node's zone is its location. Calls are modelled as sequential (the Go code's
 * read/write lock only serialises them).
 */
module LHRaft {

  datatype NodeState = Follower | Candidate | Leader

  datatype ConsensusNode = ConsensusNode(
    id: string,
    location: string,
    reputation: real,
    isLeader: bool,
    groupMembers: seq<string>,
    state: NodeState)

  datatype ConsensusError =
    | NodeNotFound(nodeId: string)
    | NoLeaderForZone(zone: string)
    | LocalConsensusFailed(zone: string)

  datatype Outcome = Pass | Fail(error: ConsensusError)

  /** Initial reputation of the running "best so far" in an election. */
  const NoReputation: real := -1.0

  /**
   * `w` may win an election in `zone`: it is in the zone, beats the -1 starting
   * value, and no node of the zone has a higher reputation.
   */
  ghost predicate IsBestInZone(nodes: map<string, ConsensusNode>, zone: string, w: string) {
    && w in nodes && nodes[w].location == zone && nodes[w].reputation > NoReputation
    && forall x :: x in nodes && nodes[x].location == zone ==> nodes[x].reputation <= nodes[w].reputation
  }

  /**
   * An election may report no winner ("") only when no node with a non-empty id
   * and a reputation above -1 is in the zone, or the node whose id is "" is itself
   * a best node of the zone (the Go code uses "" as its "nobody" marker).
   */
  ghost predicate NoWinnerAllowed(nodes: map<string, ConsensusNode>, zone: string) {
    forall x :: x in nodes && nodes[x].location == zone && nodes[x].reputation > NoReputation && x != "" ==>
      IsBestInZone(nodes, zone, "")
  }

  ghost predicate ElectionWinner(nodes: map<string, ConsensusNode>, zone: string, w: string) {
    && (w != "" ==> IsBestInZone(nodes, zone, w))
    && (w == "" ==> NoWinnerAllowed(nodes, zone))
  }

  function Crowned(node: ConsensusNode): ConsensusNode {
    node.(isLeader := true, state := Leader)
  }

  /**
   * One election in `zone` took the registry and leader map (n0, l0) to (n1, l1)
   * and reported `w`: with a winner, only the zone's entry and the winner's
   * leadership fields change (a previous leader keeps its flag); without one,
   * nothing changes.
   */
  ghost predicate Elected(
    n0: map<string, ConsensusNode>, l0: map<string, string>, zone: string, w: string,
    n1: map<string, ConsensusNode>, l1: map<string, string>)
  {
    && ElectionWinner(n0, zone, w)
    && (w == "" ==> n1 == n0 && l1 == l0)
    && (w != "" ==> w in n0 && l1 == l0[zone := w] && n1 == n0[w := Crowned(n0[w])])
  }

  /** Some election in `zone` took (n0, l0) to (n1, l1). */
  ghost predicate ReElected(
    n0: map<string, ConsensusNode>, l0: map<string, string>, zone: string,
    n1: map<string, ConsensusNode>, l1: map<string, string>)
  {
    exists w :: Elected(n0, l0, zone, w, n1, l1)
  }

  /**
   * After a re-election the zone either names a best node of the zone, which
   * now leads, or nothing changed at all.
   */
  lemma ReElectionOutcome(
    n0: map<string, ConsensusNode>, l0: map<string, string>, zone: string,
    n1: map<string, ConsensusNode>, l1: map<string, string>)
    requires ReElected(n0, l0, zone, n1, l1)
    ensures || (n1 == n0 && l1 == l0)
            || (zone in l1 && IsBestInZone(n0, zone, l1[zone]) && l1[zone] in n1 && n1[l1[zone]].isLeader)
  {
  }

  /**
   * Invariant of the registry: keys are the nodes' ids, the leadership flag and
   * the state agree, "" never leads, and every recorded leader is registered
   * (no operation removes a node).
   */
  ghost predicate ValidState(nodes: map<string, ConsensusNode>, zoneLeaders: map<string, string>) {
    && (forall id :: id in nodes ==>
          nodes[id].id == id && nodes[id].state == (if nodes[id].isLeader then Leader else Follower))
    && (forall z :: z in zoneLeaders ==> zoneLeaders[z] != "" && zoneLeaders[z] in nodes)
  }

  /** An election keeps the registry invariant. */
  lemma ElectedKeepsValid(
    n0: map<string, ConsensusNode>, l0: map<string, string>, zone: string, w: string,
    n1: map<string, ConsensusNode>, l1: map<string, string>)
    requires ValidState(n0, l0) && Elected(n0, l0, zone, w, n1, l1)
    ensures ValidState(n1, l1)
  {
  }

  /**
   * With a strict maximum in the zone, electing again right after an election
   * picks the same node and changes nothing.
   */
  lemma ElectionIdempotent(
    n0: map<string, ConsensusNode>, l0: map<string, string>, zone: string, w: string,
    n1: map<string, ConsensusNode>, l1: map<string, string>,
    w2: string, n2: map<string, ConsensusNode>, l2: map<string, string>)
    requires w != "" && Elected(n0, l0, zone, w, n1, l1)
    requires forall x :: x in n0 && x != w && n0[x].location == zone ==> n0[x].reputation < n0[w].reputation
    requires Elected(n1, l1, zone, w2, n2, l2)
    ensures w2 == w && n2 == n1 && l2 == l1
  {
    assert IsBestInZone(n1, zone, w);
    if w2 == "" {
      assert false;
    }
    assert IsBestInZone(n1, zone, w2);
    assert w2 == w;
    assert n1[w] == Crowned(n1[w]);
  }

  class LHRaftConsensus {
    var nodes: map<string, ConsensusNode>
    var zoneLeaders: map<string, string>
    const threshold: real

    ghost predicate Valid()
      reads this
    {
      ValidState(nodes, zoneLeaders)
    }

    /** An empty registry with no zone leaders. */
    constructor (threshold: real)
      ensures Valid()
      ensures nodes == map[] && zoneLeaders == map[] && this.threshold == threshold
    {
      nodes := map[];
      zoneLeaders := map[];
      this.threshold := threshold;
    }

    /**
     * Stores a fresh follower under `id`, replacing any node already registered
     * there (there is no duplicate check).
     */
    method RegisterNode(id: string, location: string, reputation: real)
      requires Valid()
      modifies this
      ensures Valid()
      ensures nodes == old(nodes)[id := ConsensusNode(id, location, reputation, false, [], Follower)]
      ensures zoneLeaders == old(zoneLeaders)
    {
      var node := ConsensusNode(id, location, reputation, false, [], Follower);
      nodes := nodes[id := node];
    }

    /** The ids of the nodes in `location` whose reputation reaches the threshold, each once, in no fixed order. */
    method FormCandidateGroups(location: string) returns (candidates: seq<string>)
      ensures forall id :: id in candidates <==>
                id in nodes && nodes[id].location == location && nodes[id].reputation >= threshold
      ensures forall i, j :: 0 <= i < j < |candidates| ==> candidates[i] != candidates[j]
    {
      candidates := [];
      var unvisited := nodes.Keys;
      while unvisited != {}
        invariant unvisited <= nodes.Keys
        invariant forall id :: id in candidates <==>
                    id in nodes && id !in unvisited && nodes[id].location == location && nodes[id].reputation >= threshold
        invariant forall i, j :: 0 <= i < j < |candidates| ==> candidates[i] != candidates[j]
        decreases unvisited
      {
        var id :| id in unvisited;
        var node := nodes[id];
        if node.location == location && node.reputation >= threshold {
          candidates := candidates + [id];
        }
        unvisited := unvisited - {id};
      }
    }

    /**
     * The scan of an election: visits the nodes in an unspecified order and keeps
     * the first one seen with the highest reputation in `zone`, starting from -1
     * and "" ("nobody"). The threshold plays no part.
     */
    method BestCandidate(zone: string) returns (best: string)
      ensures best != "" ==> IsBestInZone(nodes, zone, best)
      ensures best == "" ==> NoWinnerAllowed(nodes, zone)
    {
      best := "";
      var highest := NoReputation;
      var unvisited := nodes.Keys;
      while unvisited != {}
        invariant unvisited <= nodes.Keys
        invariant highest >= NoReputation
        invariant highest == NoReputation ==> best == ""
        invariant highest > NoReputation ==>
                    best in nodes && best !in unvisited && nodes[best].location == zone && nodes[best].reputation == highest
        invariant forall x :: x in nodes && x !in unvisited && nodes[x].location == zone ==> nodes[x].reputation <= highest
        decreases unvisited
      {
        var id :| id in unvisited;
        var node := nodes[id];
        if node.location == zone && node.reputation > highest {
          highest := node.reputation;
          best := id;
        }
        unvisited := unvisited - {id};
      }
      if best == "" && highest > NoReputation {
        assert IsBestInZone(nodes, zone, "");
      }
    }

    /**
     * Elects the highest-reputation node of `zone`, records it as the zone's
     * leader and marks it leader; returns "" and changes nothing when there is
     * no winner.
     */
    method ElectZoneLeader(zone: string) returns (winner: string)
      requires Valid()
      modifies this
      ensures Valid()
      ensures Elected(old(nodes), old(zoneLeaders), zone, winner, nodes, zoneLeaders)
    {
      winner := BestCandidate(zone);
      if winner != "" {
        zoneLeaders := zoneLeaders[zone := winner];
        nodes := nodes[winner := Crowned(nodes[winner])];
      }
    }

    /**
     * Sets a node's reputation. A leader whose new reputation is below the
     * threshold is demoted to follower and an election is then run for its zone
     * (synchronously here); any other node keeps its leadership fields. An
     * unknown id is an error and changes nothing.
     */
    method UpdateNodeReputation(nodeId: string, newReputation: real) returns (result: Outcome)
      requires Valid()
      modifies this
      ensures Valid()
      ensures nodeId !in old(nodes) ==>
                result == Fail(NodeNotFound(nodeId)) && nodes == old(nodes) && zoneLeaders == old(zoneLeaders)
      ensures nodeId in old(nodes) ==> result == Pass
      ensures nodeId in old(nodes) && !(old(nodes)[nodeId].isLeader && newReputation < threshold) ==>
                && nodes == old(nodes)[nodeId := old(nodes)[nodeId].(reputation := newReputation)]
                && zoneLeaders == old(zoneLeaders)
      ensures nodeId in old(nodes) && old(nodes)[nodeId].isLeader && newReputation < threshold ==>
                var demoted := old(nodes)[nodeId].(reputation := newReputation, isLeader := false, state := Follower);
                ReElected(old(nodes)[nodeId := demoted], old(zoneLeaders), demoted.location, nodes, zoneLeaders)
    {
      if nodeId !in nodes {
        return Fail(NodeNotFound(nodeId));
      }
      var node := nodes[nodeId];
      node := node.(reputation := newReputation);
      if node.isLeader && newReputation < threshold {
        node := node.(isLeader := false, state := Follower);
        nodes := nodes[nodeId := node];
        ghost var n0, l0 := nodes, zoneLeaders;
        var w := ElectZoneLeader(node.location);
        assert Elected(n0, l0, node.location, w, nodes, zoneLeaders);
      } else {
        nodes := nodes[nodeId := node];
      }
      result := Pass;
    }

    /**
     * The local phase, a stub: it succeeds exactly when the leader id is
     * registered, whatever the transaction.
     */
    function AchieveLocalConsensus(leaderId: string, transaction: seq<bv8>): (ok: bool)
      reads this
      ensures ok <==> leaderId in nodes
    {
      leaderId in nodes
    }

    /** The global phase, a stub: it always succeeds, whatever the transaction. */
    function PropagateToGlobalConsensus(transaction: seq<bv8>): (r: Outcome)
      ensures r == Pass
    {
      Pass
    }

    /**
     * Sends a transaction through its zone's leader: fails without a recorded
     * leader, fails the local phase when that leader is not registered, and
     * otherwise succeeds. On a valid registry a recorded leader is always
     * registered, so the local failure cannot happen and the call fails
     * exactly when the zone has no leader.
     */
    method PropagateTransaction(transaction: seq<bv8>, zone: string) returns (result: Outcome)
      ensures zone !in zoneLeaders ==> result == Fail(NoLeaderForZone(zone))
      ensures zone in zoneLeaders && zoneLeaders[zone] !in nodes ==> result == Fail(LocalConsensusFailed(zone))
      ensures result == Pass <==> zone in zoneLeaders && zoneLeaders[zone] in nodes
      ensures Valid() ==> (result == Pass <==> zone in zoneLeaders)
      ensures Valid() ==> result != Fail(LocalConsensusFailed(zone))
    {
      if zone !in zoneLeaders {
        return Fail(NoLeaderForZone(zone));
      }
      var leaderId := zoneLeaders[zone];
      var success := AchieveLocalConsensus(leaderId, transaction);
      if !success {
        return Fail(LocalConsensusFailed(zone));
      }
      result := PropagateToGlobalConsensus(transaction);
    }
  }

  /**
   * Two nodes in zone Z1 with threshold 0.5: the better one (B, 0.95) is elected;
   * dropping B to 0.3 demotes it, and the re-election and a later election both
   * pick A (0.9).
   */
  method ElectionScenario() returns (first: string, reelected: string, second: string)
    ensures first == "B" && reelected == "A" && second == "A"
  {
    var c := new LHRaftConsensus(0.5);
    c.RegisterNode("A", "Z1", 0.9);
    c.RegisterNode("B", "Z1", 0.95);
    ghost var n0 := c.nodes;
    assert "A" in n0 && n0["A"].location == "Z1" && "" !in n0;
    first := c.ElectZoneLeader("Z1");
    if first == "" {
      assert false;
    }
    assert n0["B"].reputation <= n0[first].reputation;
    assert first == "B";
    ghost var n1, l1 := c.nodes, c.zoneLeaders;
    var r := c.UpdateNodeReputation("B", 0.3);
    ghost var demoted := n1["B"].(reputation := 0.3, isLeader := false, state := Follower);
    ghost var n2 := n1["B" := demoted];
    assert "A" in n2 && n2["A"].location == "Z1" && "" !in n2;
    ghost var w :| Elected(n2, l1, "Z1", w, c.nodes, c.zoneLeaders);
    if w == "" {
      assert false;
    }
    assert n2["A"].reputation <= n2[w].reputation;
    assert w == "A";
    reelected := c.zoneLeaders["Z1"];
    ghost var n3 := c.nodes;
    assert "A" in n3 && n3["A"].location == "Z1" && "" !in n3 && n3["B"].reputation == 0.3;
    second := c.ElectZoneLeader("Z1");
    if second == "" {
      assert false;
    }
    assert n3["A"].reputation <= n3[second].reputation;
  }

  /**
   * Elections ignore the threshold: the only node of Z1, once leader and then
   * dropped to 0.3 under a threshold of 0.5, is demoted and at once elected
   * again, so it leads with a reputation below the threshold.
   */
  method DemotedLeaderReelectedScenario() returns (leader: string, reputation: real, isLeader: bool)
    ensures leader == "A" && isLeader && reputation == 0.3 && reputation < 0.5
  {
    var c := new LHRaftConsensus(0.5);
    c.RegisterNode("A", "Z1", 0.9);
    ghost var n0 := c.nodes;
    assert "A" in n0 && n0["A"].location == "Z1" && "" !in n0;
    var first := c.ElectZoneLeader("Z1");
    if first == "" {
      assert false;
    }
    ghost var n1, l1 := c.nodes, c.zoneLeaders;
    var r := c.UpdateNodeReputation("A", 0.3);
    ghost var n2 := n1["A" := n1["A"].(reputation := 0.3, isLeader := false, state := Follower)];
    assert "A" in n2 && n2["A"].location == "Z1" && "" !in n2;
    ghost var w :| Elected(n2, l1, "Z1", w, c.nodes, c.zoneLeaders);
    if w == "" {
      assert false;
    }
    leader := c.zoneLeaders["Z1"];
    reputation := c.nodes["A"].reputation;
    isLeader := c.nodes["A"].isLeader;
  }

  /**
   * An election does not clear the previous leader's flag: after B outranks A
   * in Z1, the zone records B while both nodes still say they lead.
   */
  method StaleLeaderFlagScenario() returns (zoneLeader: string, aIsLeader: bool, bIsLeader: bool)
    ensures zoneLeader == "B" && aIsLeader && bIsLeader
  {
    var c := new LHRaftConsensus(0.5);
    c.RegisterNode("A", "Z1", 0.9);
    ghost var n0 := c.nodes;
    assert "A" in n0 && n0["A"].location == "Z1" && "" !in n0;
    var first := c.ElectZoneLeader("Z1");
    if first == "" {
      assert false;
    }
    c.RegisterNode("B", "Z1", 0.95);
    ghost var n1 := c.nodes;
    assert "B" in n1 && n1["B"].location == "Z1" && "" !in n1 && n1["A"].reputation == 0.9;
    var second := c.ElectZoneLeader("Z1");
    if second == "" {
      assert false;
    }
    assert n1["B"].reputation <= n1[second].reputation;
    zoneLeader := c.zoneLeaders["Z1"];
    aIsLeader := c.nodes["A"].isLeader;
    bIsLeader := c.nodes["B"].isLeader;
  }
}
