# LH-Raft election and device ledger model

A Dafny model of the chaincode of a location-aware blockchain for IoT devices:

- **LH-Raft election** (`lhraft.dfy`, module `LHRaft`): a registry of consensus
  nodes keyed by id, each with a location (its zone), a reputation, a leadership
  flag and a Follower/Candidate/Leader state; a map from zone to the id of the
  zone's leader; and a reputation threshold. Nodes are registered, grouped into
  candidate lists per zone, elected zone leader, demoted when their reputation
  drops, and used to route transactions. The class `LHRaftConsensus` keeps the
  two maps as fields that its methods reassign; its loops visit the registry in
  an unspecified order, as iteration over a Go map does.
- **Reputation arithmetic** (`reputation.dfy`, module `Reputation`): the
  weighted score over four metrics and the exponentially smoothed update after
  one outcome, over exact reals.
- **Device manager** (`devices.dfy`, module `Devices`): device records with
  transaction counters in a key-value world state (a map), created, looked up,
  given a status, charged with transactions (which recompute the lifetime
  reputation, a formula separate from the smoothed one) and queried by zone.
- **Smart contract** (`contract.dfy`, module `Contract`): the registered
  contract's own device records (location, zone, reputation), seeded by
  InitLedger, registered, queried and given a new reputation.
- `wrappers.dfy` holds the Option and Result types the error paths use.

Behaviour of the code as written that the model keeps and proves:

- An election ignores the threshold, and its scan starts from reputation -1
  with the empty id as "nobody". A node whose id is "" or whose reputation is
  at most -1 can never be recorded as leader. When several nodes tie for the
  maximum, the contract allows any of them.
- An election never clears the flag of a previous leader
  (`StaleLeaderFlagScenario`).
- Because elections ignore the threshold, a leader demoted below the threshold
  that is still the best node of its zone is elected again at once
  (`DemotedLeaderReelectedScenario`).
- The asynchronous re-election after a demotion runs synchronously, right after
  the demotion is written.

Where the code's own comments and tests say more than the code does, the model
follows the code:

- The comment at chaincode/consensus/lhraft.go:113 ties re-election to a leader
  whose reputation "dropped below threshold", but the election the code then
  runs (lhraft.go:88-93) does not consult the threshold, so the demoted node can
  win again (`DemotedLeaderReelectedScenario`).
- chaincode/main_test.go:58-74 expects registering an existing device to fail
  with "already exists", and chaincode/main_test.go:136-142 expects a reputation
  of 1.5 to be refused; chaincode/main.go has neither check (see Findings).

## Model

| member | source | states |
|---|---|---|
| Reputation.CalculateReputation | chaincode/consensus/reputation.go:16-33 | the score is always in [0, 1] |
| Reputation.CalculateReputationExtremes | chaincode/consensus/reputation.go:18-32 | all-ones metrics score 1, all-zeros metrics score 0 |
| Reputation.CalculateReputationMonotone | chaincode/consensus/reputation.go:18-32 | raising any metric never lowers the score |
| Reputation.CalculateReputationUnclamped | chaincode/consensus/reputation.go:18-32 | the weights total 1; with all metrics in [0, 1] the score is the plain weighted sum 0.4·s + 0.2·r + 0.2·u + 0.2·q |
| Reputation.TimeImpact | chaincode/consensus/reputation.go:38-50 | time credit is 1 for an instant answer, 0 from 5 s on, and in [0, 1] for any non-negative duration |
| Reputation.Target | chaincode/consensus/reputation.go:39-53 | the value one outcome pulls towards lies in [0, 1] for a non-negative duration |
| Reputation.UpdateReputationBasedOnPerformance | chaincode/consensus/reputation.go:36-56 | the smoothed reputation is always in [0, 1] |
| Reputation.SmoothingClosesTenthOfGap | chaincode/consensus/reputation.go:53-56 | from a reputation in [0, 1], one update moves exactly 10% of the way to the target and lands between the old value and the target |
| Reputation.UpdateFromHalfOnInstantSuccess | chaincode/consensus/reputation.go:44-56 | an instant success moves 0.5 to exactly 0.55 |
| LHRaft.LHRaftConsensus.constructor | chaincode/consensus/lhraft.go:39-45 | a new instance has no nodes, no zone leaders and the given threshold |
| LHRaft.LHRaftConsensus.RegisterNode | chaincode/consensus/lhraft.go:48-63 | stores a follower with the given location and reputation, not leader and with no group members, overwriting any node with that id; zone leaders unchanged; registry invariant kept |
| LHRaft.LHRaftConsensus.FormCandidateGroups | chaincode/consensus/lhraft.go:66-77 | returns each id whose node is in the location with reputation at least the threshold, exactly once, and changes nothing |
| LHRaft.LHRaftConsensus.BestCandidate | chaincode/consensus/lhraft.go:84-93 | a non-empty result is a node of the zone above -1 whose reputation no zone node exceeds; "" only when no other node of the zone is above -1 or the node with id "" is itself a best node |
| LHRaft.LHRaftConsensus.ElectZoneLeader | chaincode/consensus/lhraft.go:80-102 | with a winner, records it for the zone and marks it leader, changing no other zone entry and no other node (a previous leader keeps its flag); with no winner returns "" and changes nothing |
| LHRaft.ElectedKeepsValid | chaincode/consensus/lhraft.go:95-99 | an election keeps the registry invariant: keys are node ids, the flag and the state agree, "" never leads, every recorded leader is registered |
| LHRaft.ElectionIdempotent | chaincode/consensus/lhraft.go:84-99 | with a strict maximum in the zone, electing again picks the same node and changes nothing |
| LHRaft.ReElectionOutcome | chaincode/consensus/lhraft.go:84-101 | after a re-election the zone names a best node of the zone, now leading, or nothing changed |
| LHRaft.LHRaftConsensus.UpdateNodeReputation | chaincode/consensus/lhraft.go:105-123 | unknown id: node-not-found error, nothing changes; otherwise sets the reputation, and a leader falling below the threshold becomes a follower and its zone is re-elected, while any other node keeps its leadership fields |
| LHRaft.LHRaftConsensus.AchieveLocalConsensus | chaincode/consensus/lhraft.go:145-157 | the local phase succeeds exactly when the leader id is registered, whatever the transaction |
| LHRaft.LHRaftConsensus.PropagateToGlobalConsensus | chaincode/consensus/lhraft.go:159-162 | the global phase always succeeds, whatever the transaction |
| LHRaft.LHRaftConsensus.PropagateTransaction | chaincode/consensus/lhraft.go:126-161 | fails with no-leader when the zone has no entry and with local failure when the recorded leader is not registered; succeeds exactly when the zone's recorded leader is registered; on a valid registry (where every recorded leader is registered) the local failure cannot occur and the call fails exactly when the zone has no leader |
| LHRaft.ElectionScenario | chaincode/consensus/lhraft.go:80-119 | A (0.9) and B (0.95) in Z1, threshold 0.5: B is elected; dropping B to 0.3 re-elects A, and a later election also picks A |
| LHRaft.DemotedLeaderReelectedScenario | chaincode/consensus/lhraft.go:113-118 | a sole leader dropped below the threshold is demoted and re-elected, leading with reputation 0.3 < 0.5 |
| LHRaft.StaleLeaderFlagScenario | chaincode/consensus/lhraft.go:95-99 | after B outranks A, the zone records B while A and B both carry the leader flag |
| Devices.NewDevice | chaincode/device.go:47-57 | a new device has the given id, location and zone, reputation 1, status "active" and zero, consistent counters |
| Devices.ResponseTimeScore | chaincode/device.go:130-133 | the response-time score is non-negative, at most 1 for non-negative times, and 0 from 5000 ms on |
| Devices.CumulativeReputation | chaincode/device.go:129-136 | lifetime trust is non-negative, at most 1 with consistent counters and a non-negative time, 0.7 times the success rate from 5000 ms on, and 1 for all successes answered instantly |
| Devices.Recorded | chaincode/device.go:120-137 | one more transaction, and one more success exactly when the status is "success", otherwise one more failure; counter consistency preserved; reputation recomputed and in [0, 1] for consistent counters and non-negative time; no other field changes |
| Devices.DeviceManager.GetDevice | chaincode/device.go:95-111 | returns the stored record when the key is present, a does-not-exist error otherwise |
| Devices.DeviceManager.DeviceExists | chaincode/device.go:68-74 | true exactly when GetDevice finds the record |
| Devices.DeviceManager.CreateDevice | chaincode/device.go:38-65 | existing id: already-exists error, nothing written; otherwise writes only the new device under the id |
| Devices.DeviceManager.UpdateDeviceStatus | chaincode/device.go:77-92 | unknown id: does-not-exist error, nothing written; otherwise only that record's status and timestamp change |
| Devices.DeviceManager.RecordTransaction | chaincode/device.go:114-145 | unknown id: does-not-exist error, nothing written; otherwise only that record changes, as Recorded says; counter consistency of the ledger is preserved |
| Devices.DeviceManager.QueryDevicesByZone | chaincode/device.go:148-172 | returns one record per stored key whose zone matches, each read from its key, with no key twice and no key missed |
| Contract.PutAllEffect | chaincode/main.go:35-45 | writing a list of devices adds exactly their ids, keeps every other key, and leaves the last device under its id |
| Contract.SmartContract.InitLedger | chaincode/main.go:24-46 | afterwards "device1" holds the seed record (location "zone1", zone "Z1", reputation 1) and every other key is unchanged |
| Contract.SmartContract.RegisterDevice | chaincode/main.go:51-66 | writes a device with the given location and zone and reputation 1 under the id, replacing any existing record; nothing else changes |
| Contract.SmartContract.QueryDevice | chaincode/main.go:69-85 | returns the stored record when present, a does-not-exist error otherwise |
| Contract.SmartContract.UpdateDeviceReputation | chaincode/main.go:88-103 | unknown id: the query's error, nothing written; otherwise only that record's reputation and timestamp change, to any value |
| Contract.DuplicateRegistrationScenario | chaincode/main.go:51-66 | as written, registering an existing id succeeds and replaces its record |
| Contract.SmartContract.RegisterDeviceChecked | chaincode/main_test.go:58-74 | the test-expected variant: an existing id is an already-exists error and nothing is written |
| Contract.CheckedDuplicateRegistrationScenario | chaincode/main_test.go:58-74 | with the check, a second registration is refused and the first record stays |
| Contract.OutOfRangeReputationScenario | chaincode/main.go:88-103 | as written, a reputation of 1.5 is accepted and stored |
| Contract.SmartContract.UpdateDeviceReputationChecked | chaincode/main_test.go:136-142 | the test-expected variant: a value outside [0, 1] is refused before the ledger is read and nothing is written; otherwise as UpdateDeviceReputation; every changed record ends in [0, 1] |
| Contract.CheckedOutOfRangeReputationScenario | chaincode/main_test.go:136-142 | with the check, 1.5 is refused even for an id that is not stored |

## Findings

| source | as written | input that shows it | evidently intended | confidence | as-written member | corrected member |
|---|---|---|---|---|---|---|
| chaincode/main.go:51-66 | RegisterDevice writes without checking whether the id exists | registering "test-device" twice: the second call succeeds and replaces the record | an "already exists" error, as chaincode/main_test.go:58-74 asserts | medium, not executed | Contract.DuplicateRegistrationScenario | Contract.SmartContract.RegisterDeviceChecked |
| chaincode/main.go:88-103 | UpdateDeviceReputation stores any value | UpdateDeviceReputation("test-device", 1.5) succeeds and stores 1.5 | an error for values outside [0, 1], as chaincode/main_test.go:136-142 asserts | medium, not executed | Contract.OutOfRangeReputationScenario | Contract.SmartContract.UpdateDeviceReputationChecked |

The corrected variants are what the tests assert; the plain RegisterDevice and
UpdateDeviceReputation keep the code's behaviour.

## Left out

- Locks (the registry's read/write mutex and each node's mutex) and the goroutine that runs a re-election: calls are modelled as sequential.
- LHRaft.LHRaftConsensus.UpdateNodeReputation: the re-election that the code starts in a goroutine runs synchronously right after the demotion, so no state between the demotion and the election's end is observable, and neither is an election that interleaves with other calls.
- A node's last-heartbeat time, which the code never sets or reads.
- The threshold is a constant of the instance: no core operation writes it, although the Go field is exported.
- LHRaft.LHRaftConsensus.PropagateTransaction: the local and global consensus steps are stubs in the code (the local step only checks that the leader is registered; the global step always succeeds), so no quorum or vote counting is modelled; the transaction bytes are unused.
- Floating point: reputations are exact reals, so 0.55 is exact here and rounding is not modelled.
- Integer width: transaction counters are unbounded naturals (64-bit overflow is not modelled), and counters are taken to be non-negative, as every record the code writes has them so.
- Clocks and transaction timestamps (`time.Now`, the transaction timestamp) are opaque integer parameters.
- Ledger plumbing: JSON encoding and decoding and their errors, failures of the ledger's get and put calls, and the query-string encoding of the zone query (a predicate over the map here).
- GetDeviceHistory in chaincode/device.go: it only replays the ledger's per-key history, which a map does not keep.
- The two device stores (chaincode/device.go and chaincode/main.go) are separate maps: they use different record types, and the device manager is not registered with the chaincode.
- The HTTP layer in application/ and the integration tests: request routing and placeholder responses with no logic of their own.
