# VSID: a verified model of flow tracking and flow classification

VSID tracks TCP and UDP flows, measures their packets with attribute meters and
labels each flow with the protocol whose stored fingerprint it resembles most. This
project models the parts that do the work and proves what they are for.

- **The flow key** (`murmur3.dfy`, `flow_key.dfy`, `hash_vectors.dfy`). The canonical
  form of a 5-tuple is a complete invariant of "same flow"; every step of the 32-bit
  MurmurHash3 can be undone, which gives exact non-collision theorems for the table's
  keys. Published test vectors, and flows whose hashes stand in the repository's result
  files, are worked out step by step.
- **A flow** (`flow_control.dfy`, `meters.dfy`, `meter_laws.dfy`, `divergence.dfy`,
  `classifier.dfy`, `flow_model.dfy`, `flow_laws.dfy`). The state machine, the data
  packet filter, the meters, the smoothed Kullback-Leibler sum and the choice of a
  label, as values, with theorems over any packet history. `control_history.dfy` and
  `flow_histories.dfy` tell what a flow and its meters hold by its packets alone, and
  `score_laws.dfy` what a model scores by the numbers alone. `attribute_meter.dfy` and
  `flow.dfy` are the same as objects updated in place, proved against the values.
- **Packets and verdicts** (`ipv4_packet.dfy`, `packet_handler.dfy`). Packet objects
  that carry their verdict; a flow gives each of its packets one, on every path. On top
  of it all, the netfilter handler that answers the kernel and counts its answers.
- **The flow manager** (`pipeline*.dfy`, `flow_manager.dfy`). A state machine whose
  steps are the reader's call, a worker's test, pop and processing, a shutdown, and the
  parts of the final call. What every interleaving keeps is proved part by part
  (`pipeline_invariant.dfy`, `pipeline_history.dfy`, `pipeline_lives.dfy`,
  `pipeline_flows.dfy`) and stated for whole runs in `pipeline_runs.dfy` and, by the
  packets and the numbers of the flows, in `pipeline_outcomes.dfy`;
  `pipeline_ending.dfy` says when the final call returns, `pipeline_race.dfy` and
  `pipeline_settling.dfy` when finer steps of the reader and of a worker do harm, and
  `pipeline_examples.dfy` gives short runs in which they do. The class in
  `flow_manager.dfy`, with real flow objects in a real table and real packet objects in
  its queues, takes exactly these steps and keeps a list of its observers' calls;
  `flow_manager_runs.dfy` says what its observers have been told of each flow object.
- **The protocol database and training** (`protocol_db.dfy`, `protocol_db_laws.dfy`,
  `decimal_codec.dfy`, `protocol_model_db.dfy`, `attribute_meter_factory.dfy`,
  `environment.dfy`, `training.dfy`, `protocol_model_updater.dfy`). Reading and writing
  YAML nodes, the meters that reading enables, the order in which each port sees the
  models, and the merging of finished flows into the models.
- **The confusion matrix** (`analyse.dfy`, `analyser.dfy`) of the results script.
  (`wrappers.dfy` holds what several of these share.)

Things to know when reading the model:

- Probabilities are `real`. The base-2 logarithm is a parameter; `Divergence.IsLog2`
  lists the four facts used of it. The tangent inequality among them is
  log2(x) <= c (x - 1) with c = 1 / ln 2, strict away from 1.
- Six meters have laws of their own. Any other (`Meters.Kind.Other`) is some function of
  the memory it finds, of the calls made to it and of the position read; every theorem
  about flows, the flow manager and the handler holds with any such meters.
- `Env.Valid` asks that every meter an enabled model uses exists in every flow. It holds
  of every database that can be read, because reading enables those meters in the
  factory (`Environments.ReadDatabaseIsUsable`, `Environments.SetUp`).
- Meters leave memory uninitialised where the source does: what a new flow finds there
  is arbitrary, and differs from flow to flow (`Setup.junk`).
- The steps of the state machine are coarser than the code. `getFlow` and
  `incPktsInQueue` are not under one lock (`src/common/src/FlowManager.cpp:152-156`);
  the model takes them as one step. `PipelineRace.LookupAndCountAgreeIff` takes them
  as two, with any steps of the workers in between: table and queues agree afterwards
  unless all the packets that waited for the flow were served in between, left it
  finished, and there is room in the queue. `PipelineExamples.LookupAndCountCanFail` is
  a run in which this happens; it ends with a packet counter of -1.
- Nor is `processPacket` under one lock (`src/common/src/FlowManager.cpp:97-127`): after
  the flow has taken the packet and counts it no more, the reader can look the flow up,
  and the final call can finish it, before the worker has had it reported and deleted.
  `PipelineSettling.ServingSlowlyAgreesIff` takes this as three steps, with any steps of
  the other threads in between: table and queues agree afterwards, and every flow has had
  the one life it should have, unless the table has another flow under that key when the
  worker deletes by hash. The flow in the worker's hands makes
  way only for a packet for which it has expired, by the UDP or the close-wait timeout
  or by a TCP timeout of 0, or for the final call (`FedFlowStaysIff`), so nothing happens
  as long as packets are punctual (`PunctualPacketsDoNoHarm`).
  `PipelineExamples.LateSynLosesItsFlow` is a run in which a new flow is deleted while
  its packet is queued.
- A worker's loop is three steps: it tests the shutdown flag, it pops, it processes. The
  final call is one step for the look at all queues, with which it takes the table's
  lock, then one for each flow, and the return.
- Flows get numbers so that the history can speak of them; the code has no such numbers.
- Addresses are the 32-bit words that the program compares: network order, read on a
  little-endian machine.
- How numbers, flags and probabilities are spelt is the parameter `ProtocolDb.Codec`. Of
  numbers and flags the round trip asks that they can be read again; of probabilities it
  cannot ask this, since no spelling tells all real numbers apart, so it says instead
  what becomes of each. `DecimalCodecs.DecimalsAreFaithful` exhibits a codec.

Where the code and what is said about it differ, the model follows the code:

- The TCP timeout compares a truth value with the timeout
  (`src/common/src/FlowManager.cpp:319-320`), so it is taken for no timeout of a second
  or more; and the close-wait branch is never taken between whole steps, because a
  finished flow never waits in the table without queued packets: only a reader that
  comes between a worker's feeding and its deleting takes it
  (`PipelineExamples.LateSynLosesItsFlow`). With a timeout of 0 a connection that has
  just begun is replaced (`PipelineExamples.TimeoutZeroReplacesLiveFlows`).
- The state FINISHING is never entered.
- The comment in `src/protocol_model/src/AttributeMeter.cpp:13-18` says that the
  smoothing constants are replaced when a database is read; that code is commented out.
- `finished()` may wait for ever. Before it has the lock, it can return exactly if there
  was no shutdown, or every queue is empty but for a packet that its worker has set out
  to pop; once it has the lock, exactly if no worker holds a packet
  (`PipelineEnding.FinalCallCanReturnIff`). A packet just popped when all queues look
  empty is a deadlock (`PipelineExamples.EmptyQueuesAreNotEnough`).
- The best match starts at 100, so with a threshold above 100 a flow can be labelled
  with the empty name: `Classifier.BestMatchIsNobody` says exactly when,
  `Classifier.CompleteAgreementNamesNobody` is a case.
- A score of 0 never counts. A flow may have agreed completely with the model that it is
  labelled with, but not at the packet whose score won
  (`FlowLaws.LabelsComeFromDisagreement`).
- The first-bit-positions meter charges 32 bits for every packet, however short, so its
  probabilities sum to 1 only if no measured payload has one to three bytes; after a
  single byte they sum to a quarter (`MeterLaws.SingleByteSumsToAQuarter`).
- A model that repeats a port hint appears repeatedly in that port's list
  (`ProtocolDbLaws.PortListIsAPermutation`, `ScanVisitsEachOnceIff`), and may hide
  another (`RepeatedHintHidesAModel`).
- Writing replaces the version, and a model without meters does not come back
  (`ProtocolDbLaws.RoundTripIsIdentity`, `ModelWithoutMetersIsLost`). A probability that
  training computed comes back as it is spelt, which need not be the same
  (`DecimalCodecs.ThirdsDoNotComeBack`); a second round trip changes nothing more
  (`ProtocolDbLaws.OneRoundTripSettles`).
- A read that fails keeps the models it had read, and they take precedence in the next
  (`ProtocolDbLaws.ReadingKeepsWhatIsThere`).
- `gather_results` fails on a default protocol without an entry
  (`Analysers.UnknownDefaultFails`), on a classified result without a protocol, and,
  its counts made, without a flows file (`Analysers.DefaultAloneFails`).

## Model

| member | source | states |
|---|---|---|
| Murmur3.MurmurHash3 | contrib/hash/src/murmur3.c:71-124 | the loop over blocks counted from -nblocks, the fall-through tail and the finalisation compute the hash function of key bytes and seed |
| Murmur3.FmixInverse | contrib/hash/src/murmur3.c:45-54 | the finalisation mix has a two-sided inverse |
| Murmur3.MixKeyInverse | contrib/hash/src/murmur3.c:92-94 | the scrambling of a block is undone by the inverse multipliers and rotation |
| Murmur3.MixBlockInverse | contrib/hash/src/murmur3.c:90-98 | a round of the body can be undone for any block |
| Murmur3.SeedsAndHashesCorrespond | contrib/hash/src/murmur3.c:71-124 | for a fixed key, seed to hash is a bijection on 32-bit words: exactly one seed gives each hash |
| Murmur3.OneBlockApartNeverCollide | contrib/hash/src/murmur3.c:84-99 | equal-length keys that differ in exactly one aligned block never collide, for any seed and length |
| Murmur3.OnlyTailsApartNeverCollide | contrib/hash/src/murmur3.c:104-114 | equal-length keys that differ only after the last whole block never collide |
| Murmur3.LengthsNeverCollide | contrib/hash/src/murmur3.c:119-121 | keys that leave the same state before finalisation but have different lengths, modulo 2^32, never collide |
| Murmur3.ZerosInTheTailNeverCollide | contrib/hash/src/murmur3.c:104-119 | zero bytes that fit into the tail leave the state as it is and change the hash all the same |
| HashVectors.EmptyKey | contrib/hash/src/murmur3.c:71-124 | a published vector: the empty key with seed 1 |
| HashVectors.OneBlockKey | contrib/hash/src/murmur3.c:71-124 | a published vector: the block 21 43 65 87 with seed 0 |
| HashVectors.KeyWithoutABlock | contrib/hash/src/murmur3.c:71-124 | a published vector: the tail 21 43 65 with seed 0 |
| HashVectors.UdpFlowOutOfOrder | results/only_video/dt0.1/co100/results_dl25.co100.dt0.1.yaml:6 | a recorded flow has the hash recorded for it |
| HashVectors.TcpFlowOutOfOrder | results/only_video/dt0.1/co100/results_dl25.co100.dt0.1.yaml:10 | a recorded TCP flow likewise |
| HashVectors.TcpFlowInOrder | results/all_protocols/dt0.01/co100/results_dl10.co100.dt0.01.yaml:328 | a recorded flow whose lower address sends likewise |
| FlowKey.HashTuple | src/common/inc/Hasher.h:85-131 | the branches that fill the input array, and the hash of its bytes, give the hash of the canonical form |
| FlowKey.CanonicalFormIdentifiesFlows | src/common/inc/Hasher.h:88-125 | two tuples have the same four words if and only if they are the same flow |
| FlowKey.LowerAddressComesFirst | src/common/inc/Hasher.h:91-105 | the first two words are the lower and the higher address |
| FlowKey.LowerPortComesFirst | src/common/inc/Hasher.h:107-125 | of equal addresses the lower port takes the upper half of the third word |
| FlowKey.SameFlowIsAnEquivalence | src/common/src/IPv4.cpp:31-67 | same flow is reflexive, symmetric and transitive |
| FlowKey.DirectionTellsMembership | src/common/inc/Flow.h:119-146 | the direction is unknown exactly off the flow, forward exactly for the tuple itself, backward exactly for its reverse |
| FlowKey.BothDirectionsHashAlike | src/common/inc/Hasher.h:85-131 | both directions of a flow have one table key |
| FlowKey.OneWordApartNeverCollide | src/common/inc/Hasher.h:129 | canonical forms that differ in a single word have different hashes |
| FlowKey.ProtocolsNeverShareAKey | src/common/inc/Hasher.h:88-130 | TCP and UDP flows between the same endpoints never share a table key |
| FlowKey.PortsNeverShareAKey | src/common/inc/Hasher.h:88-130 | different flows of one protocol between the same two hosts never share a table key |
| FlowControl.StateHasClosedForm | src/common/src/Flow.cpp:69-231 | over any history: FINISHED iff some packet ends the flow (FIN, RST, or a first TCP packet without SYN), else ESTABLISHED iff some later packet answers, else ESTABLISHING |
| FlowControl.StatesOnlyAdvance | src/common/src/Flow.cpp:69-231 | the rank of the state never falls, FINISHING is not entered, a finished flow only counts packets |
| FlowControl.FirstPayloadIsUnique | src/common/src/Flow.cpp:85-200 | at most one non-empty packet of a flow is flagged as its first; it is a data packet and its bytes are the ones kept |
| ControlHistory.ControlHasClosedForm | src/common/src/Flow.cpp:63-299 | after any packets the whole control is told by them: state, counts, both directions and the clock by the data packets, the kept bytes by the first flagged payload |
| ControlHistory.EachPacketIsTold | src/common/src/Flow.cpp:85-258 | a packet is flagged as first if and only if it is the first of all, and UDP, or a TCP packet without FIN or RST from originator to responder of an established flow with no flagged payload before it; it counts as data if and only if the flow is not over, it does not end it, and it is not an empty SYN or ACK |
| Meters.ReactionSlotIsInTheTable | src/protocol_model/src/ActionReactionFirst3ByteHashMeter.cpp:72-103 | neither 8-bit sum wraps and the slot is at most 114 of 115 |
| AttributeMeters.AddDigits | src/protocol_model/src/ActionReactionFirst3ByteHashMeter.cpp:84-95 | the do-while loop adds the decimal digits of a byte to an 8-bit sum |
| AttributeMeters.MixedSlot | src/protocol_model/src/ActionReactionFirst3ByteHashMeter.cpp:75-99 | the two cross sums of the first three bytes of both packets, mixed |
| AttributeMeters.ReadFirstBytes | src/protocol_model/src/ActionReactionFirst3ByteHashMeter.cpp:57-70 | the first three payload bytes, zero-padded |
| AttributeMeters.AttributeMeter.constructor | src/protocol_model/src/AttributeMeter.cpp:7-22 | a new meter is all zero, its last packet arbitrary |
| AttributeMeters.AttributeMeter.CountPayload | src/protocol_model/src/ByteFrequency.cpp:48-63 | one slot per byte is incremented and the total grows by the payload |
| AttributeMeters.AttributeMeter.CountByteBits | src/protocol_model/src/FirstBitPositionsMeter.cpp:62-77 | the mask loop increments a slot for each set and each clear bit |
| AttributeMeters.AttributeMeter.CountPayloadBits | src/protocol_model/src/FirstBitPositionsMeter.cpp:50-81 | the first four bytes of a payload are counted and 32 bits charged |
| AttributeMeters.AttributeMeter.CountReaction | src/protocol_model/src/ActionReactionFirst3ByteHashMeter.cpp:51-107 | a packet that changes direction scores in its slot; its first bytes replace the last packet's |
| AttributeMeters.AttributeMeter.CountDirectionChange | src/protocol_model/src/DirectionChangesMeter.cpp:24-36 | the incremental update of the change ratio |
| AttributeMeters.AttributeMeter.CountDirectionBytes | src/protocol_model/src/DirectionBytesCountMeter.cpp:27-54 | the incremental update of both byte shares |
| AttributeMeters.AttributeMeter.CalculateMeasurement | src/protocol_model/inc/AttributeMeter.h:47-53 | one call leaves the meter as its kind prescribes |
| AttributeMeters.AttributeMeter.At | src/protocol_model/src/ByteFrequency.cpp:25-46 | the probability computed on demand: 0 of an empty total, -1 past the end |
| MeterLaws.ReadingsAreShares | src/protocol_model/src/ByteFrequency.cpp:25-46 | what is read of a counting meter, times its total, is the count, 0 of an empty total; a direction meter is read as it is; -1 past the end |
| MeterLaws.OtherMetersReadTheirCalls | src/protocol_model/inc/AttributeMeter.h:47-53 | any other meter reads a function of the memory it found and of all the calls made to it |
| MeterLaws.ByteFrequencyIsTheHistogram | src/protocol_model/src/ByteFrequency.cpp:25-63 | after any calls each slot counts the occurrences of its byte in all payloads; what is read sums to 1, or is all 0 |
| MeterLaws.ActionReactionIsTheTable | src/protocol_model/src/ActionReactionFirst3ByteHashMeter.cpp:27-107 | each slot counts the reactions whose decimal digits, and those of the last packet with a payload, add up to it, over any calls; what is read sums to 1, or is all 0 |
| MeterLaws.BitSlotsCountPackets | src/protocol_model/src/FirstBitPositionsMeter.cpp:50-81 | slot 16i+b counts packets with binary digit b of byte i set, from the most significant, and with slot 16i+8+b all packets longer than i bytes |
| MeterLaws.BitProbabilitiesSumToOne | src/protocol_model/src/FirstBitPositionsMeter.cpp:25-81 | what is read sums to 1 if and only if no counted payload has one to three bytes |
| MeterLaws.SingleByteSumsToAQuarter | src/protocol_model/src/FirstBitPositionsMeter.cpp:25-81 | after one packet with a one-byte payload what is read sums to 1/4 |
| MeterLaws.DirectionChangesIsTheRatio | src/protocol_model/src/DirectionChangesMeter.cpp:24-36 | called at packets 1, 2, 3, ..., the meter holds the share of calls whose direction differs from the last, and the rest |
| MeterLaws.DirectionChangesIsADistribution | src/protocol_model/src/DirectionChangesMeter.cpp:24-36 | which is a distribution |
| MeterLaws.DirectionBytesIsTheRatio | src/protocol_model/src/DirectionBytesCountMeter.cpp:27-54 | the meter holds each side's bytes over all bytes, the truncating casts losing nothing |
| MeterLaws.DirectionBytesIsADistribution | src/protocol_model/src/DirectionBytesCountMeter.cpp:27-54 | which is a distribution once a byte was seen |
| Divergence.SmoothedIsAPositiveDistribution | src/common/src/Flow.cpp:352-353 | smoothing turns a distribution into a strictly positive one |
| Divergence.DivergenceOfDistributions | src/common/src/Flow.cpp:337-374 | Gibbs: between distributions the sum is not negative, so the sign is never flipped, and it is 0 exactly when they are equal |
| Classifier.ScanFindsFirstHit | src/common/src/Flow.cpp:305-406 | a scan stops at the first score under the threshold once hits count, and otherwise leaves the least positive score so far and its earliest holder |
| Classifier.ClassificationIsExact | src/common/src/Flow.cpp:265-421 | a flow is classified exactly by the first deciding round, with the name that round gives; until then the best match is the best of all scores looked at |
| Classifier.ClassificationIsFinal | src/common/src/Flow.cpp:265-271 | once set, name and divergence never change |
| Classifier.ClassifiedIffSomeRoundDecides | src/common/src/Flow.cpp:305-421 | classified if and only if some round within the limits is decisive |
| Classifier.BestMatchIsNobody | src/common/src/Flow.cpp:408-421 | the best match labels a flow with the empty name exactly when the threshold exceeds 100 and no score lay between 0 and 100 |
| Classifier.CompleteAgreementNamesNobody | src/common/src/Flow.cpp:379-421 | with a threshold of 200 and the best match on, a flow whose only score is 0 is classified, under the empty name |
| FlowModel.ControlRunsAlone | src/common/src/Flow.cpp:63-299 | measuring and classifying never influence the state machine |
| FlowLaws.CallsAreConsecutive | src/common/src/Flow.cpp:260-299 | meters are called at data packets 1, 2, 3, ... until the flow is classified or past the cut-off, and never again |
| FlowLaws.MetersHoldTheirCalls | src/common/src/Flow.cpp:284-299 | each meter holds what its calls make of it |
| FlowHistories.MetersAreShownTheData | src/common/src/Flow.cpp:260-299 | call k shows the meters data packet k and the flow as the packets up to it make it, but for the clock; and there is such a call exactly while the flow is unclassified and within the cut-off limit |
| FlowHistories.FlowDirectionChanges | src/protocol_model/src/DirectionChangesMeter.cpp:24-36 | in any flow the meter holds the share of data packets that run another way than the one before, the first counting if it belongs to the flow |
| FlowHistories.FlowDirectionBytes | src/protocol_model/src/DirectionBytesCountMeter.cpp:27-54 | in any flow the meter holds the shares of the payload bytes that data packets carried either way |
| FlowHistories.FlowReactions | src/protocol_model/src/ActionReactionFirst3ByteHashMeter.cpp:51-107 | in any flow each slot counts the data packets with a payload that is not the first, running another way than the one before, whose digits and the previous add up to it |
| FlowHistories.FirstPayloadHistogram | src/protocol_model/src/ByteFrequencyFirstOrigToDestPacket.cpp:26-67 | the first-packet meter is the histogram of the first payload, a distribution, if that was looked at, and all 0 only if it was not |
| FlowLaws.FlowByteHistogram | src/common/src/Flow.cpp:337-374 | once a byte was seen a flow's histogram meets the hypothesis of the Gibbs inequality |
| FlowLaws.VerdictFollowsRounds | src/common/src/Flow.cpp:301-421 | a flow's label is the classifier's run over its rounds of scores, one per data packet |
| FlowLaws.FlowIsClassifiedExactly | src/common/src/Flow.cpp:260-421 | a flow is classified if and only if one of its data packets is decisive, and gets that round's name |
| FlowLaws.LearningClassifiesNothing | src/common/src/Flow.cpp:301-303 | in learning mode a flow keeps the verdict it was made with, which is none |
| FlowLaws.ZeroScoreMeansAgreement | src/common/src/Flow.cpp:325-379 | between distributions a model scores 0 exactly when it agrees with the flow on all enabled meters |
| ScoreLaws.DivergenceIsAMagnitude | src/common/src/Flow.cpp:337-374 | the divergence of a meter is the magnitude of the sum of (p+1)/(n+1) log2((p+1)/(q+1)) over its n positions |
| ScoreLaws.ScoreIsTheSumOfShares | src/common/src/Flow.cpp:327-374 | a model scores the sum of these over its enabled meters |
| ScoreLaws.PartsAddUp | src/common/src/Flow.cpp:327-374 | a model with two lists of meters scores what the two lists score together |
| ScoreLaws.MeterOrderIsIrrelevant | src/common/src/Flow.cpp:327-374 | the order of the meters does not matter |
| ScoreLaws.PacketScores | src/common/src/Flow.cpp:305-374 | the scores of a data packet are those of the enabled models, in the order of the destination port of the first packet, or in the main order without port hints |
| ScoreLaws.ZeroMeterDiverges | src/common/src/Flow.cpp:365-373 | against a meter that reads all zero the sum is negative for every model distribution, and the meter adds its magnitude |
| FlowLaws.LabelsComeFromDisagreement | src/common/src/Flow.cpp:325-421 | over any packets: the divergence a flow is labelled with, if it is under 100, is the positive score of a model of that name at one of its data packets, and that model did not agree with the flow there |
| Flows.Flow.constructor | src/common/src/Flow.cpp:29-61 | a new flow, with one meter of each kind |
| Flows.Flow.Arrives | src/common/src/Flow.cpp:69-231 | the branches of the state machine, and whether the packet goes no further; if so it has been accepted, and else it has no verdict yet |
| Flows.Flow.Admit | src/common/src/Flow.cpp:69-263 | the state machine, the data packet filter and the counters; exactly the packets that are not data have been accepted |
| Flows.Flow.MeasurePacket | src/common/src/Flow.cpp:284-297 | every meter is shown the packet |
| Flows.Flow.MeterScore | src/common/src/Flow.cpp:335-370 | the accumulation loop computes the smoothed divergence, its sign dropped |
| Flows.Flow.ModelScore | src/common/src/Flow.cpp:325-374 | the loop over a model's meters adds the divergences of the enabled ones |
| Flows.Flow.ConsiderModel | src/common/src/Flow.cpp:379-402 | a model classifies the flow, or improves the best match, or neither |
| Flows.Flow.ScanModels | src/common/src/Flow.cpp:305-406 | the loop over the lookup order, left at the first classification, is the scan of all enabled models' scores |
| Flows.Flow.Classify | src/common/src/Flow.cpp:301-421 | the scan, then the best match at the defining limit |
| Flows.Flow.Analyse | src/common/src/Flow.cpp:284-422 | measuring and classifying, classification skipped while learning |
| Flows.Flow.HandleData | src/common/src/Flow.cpp:265-424 | a data packet is accepted on each of its paths, and analysed while the flow is unclassified and within the limit |
| Flows.Flow.AddPacket | src/common/src/Flow.cpp:63-426 | the whole method takes the flow one step, and the packet passes on one verdict, an accept, before it is destroyed |
| PipelineInvariant.WorkerFindsCountedFlow | src/common/src/FlowManager.cpp:97-106 | a worker's lookup for a packet in hand creates and replaces nothing |
| PipelineInvariant.AddPacketKeepsInv | src/common/src/FlowManager.cpp:143-199 | the reader's call keeps table and queues in agreement |
| PipelineInvariant.WorkKeepsInv | src/common/src/FlowManager.cpp:97-141 | so does the processing of the packet a worker holds |
| PipelineInvariant.FinishKeepsInv | src/common/src/FlowManager.cpp:529-542 | so does finishing a flow that counts no packets |
| PipelineInvariant.RetireKeepsInv | src/common/src/FlowManager.cpp:117-127 | after a packet is processed its flow is unfinished, or waits for queued packets, or is gone |
| PipelineHistory.AddPacketTraffic | src/common/src/FlowManager.cpp:143-199 | what becomes of a submitted packet: accepted after a shutdown, dropped if and only if its flow's queue is full, queued, or processed at once without workers |
| PipelineHistory.ProcessTraffic | src/common/src/FlowManager.cpp:97-141 | processing accepts the packet and delivers it to the flow that counted it |
| PipelineHistory.AddPacketKeepsOrder | src/common/src/FlowManager.cpp:156-184 | the reader's call appends to what is taken and waiting under a key |
| PipelineHistory.WorkKeepsOrder | src/common/src/FlowManager.cpp:97-141 | a worker processes the first waiting packet of its key |
| PipelineLives.AddPacketKeepsLives | src/common/src/FlowManager.cpp:143-199 | the reader's call keeps the account of creations, retirements, reports and removals |
| PipelineLives.WorkKeepsLives | src/common/src/FlowManager.cpp:97-141 | so does the processing of a packet |
| PipelineLives.FinishKeepsLives | src/common/src/FlowManager.cpp:529-542 | so does finishing a flow |
| PipelineFlows.EvolvesOneStep | src/common/src/FlowManager.cpp:103-106 | a flow that is the replay of its packets is so after one more, marked as notified or not |
| PipelineFlows.EndIsTheFirstEndingPacket | src/common/src/Flow.cpp:100-231 | a flow's life ends with the first packet that ends a flow, if there is one |
| PipelineFlows.FinishedFlowsOnlyCount | src/common/src/Flow.cpp:219-231 | a finished flow only counts the packets still coming |
| PipelineRuns.EveryRunIsBalanced | src/common/src/FlowManager.cpp:143-199 | after any run submitted = accepted + dropped + queued or in hand, packet by packet |
| PipelineRuns.EveryRunIsInOrder | src/common/src/FlowManager.cpp:48-199 | after any run the deliveries taken under a key are those processed and then those waiting, in order |
| PipelineRuns.EveryRunIsTold | src/common/src/FlowManager.cpp:97-545 | after any run the table, the reports and the labels are exactly what the history says |
| PipelineRuns.StepsStayReachable | src/common/src/FlowManager.cpp:48-199 | an enabled step leads from a state of some run to a state of some run |
| PipelineRuns.FinishingStaysReachable | src/common/src/FlowManager.cpp:529-542 | so does finishing flows without packets, in any order, once the final call holds the lock |
| PipelineRuns.TableMatchesQueues | src/common/src/FlowManager.cpp:143-199 | in every interleaving an entry sits under its own flow's hash, counts exactly the packets of that hash that are queued or in a worker's hands, and all of them are with the one worker it is pinned to |
| PipelineRuns.WorkersFindTheCountedFlow | src/common/src/FlowManager.cpp:48-106 | in every interleaving a worker's lookup returns the flow that the reader counted the packet for |
| PipelineRuns.NoFinishedFlowLingers | src/common/src/FlowManager.cpp:117-127 | between steps no flow in the table is FINISHED or FINISHING, and one in FINISHED_NOTIFIED has packets still to come |
| PipelineRuns.TcpFlowsExpireOnlyAtTimeoutZero | src/common/src/FlowManager.cpp:315-396 | after any run a TCP lookup replaces a flow if and only if the TCP timeout is 0, nothing of it is queued and the clock has moved |
| PipelineOutcomes.UdpFlowIsReplacedIff | src/common/src/FlowManager.cpp:273-312 | after any run a UDP packet that the reader adds replaces the flow under its key if and only if nothing of it waits and its clock is more than the UDP timeout behind; the old flow then has left once and is retired as it was, and the entry is made for this packet; otherwise it is still the old flow |
| PipelineOutcomes.NewFlowIsMadeIff | src/common/src/FlowManager.cpp:229-396 | after any run a packet, TCP or UDP, has a flow made for it if and only if there is none under its key or that one is too old |
| PipelineOutcomes.ClockOfAFlow | src/common/src/Flow.cpp:47-299 | the clock of a flow in the table is that of the last data packet processed for it, or of the packet it was made for |
| PipelineExamples.UdpFlowTimesOut | src/common/src/FlowManager.cpp:273-312 | a run from the start in which a UDP flow is replaced |
| PipelineRuns.EveryPacketHasOneFate | src/common/src/FlowManager.cpp:143-199 | every submitted packet was accepted once, or dropped once, or is queued or in a worker's hands once |
| PipelineRuns.PacketsOfAKeyStayInOrder | src/common/src/FlowManager.cpp:156-184 | packets with one hash are processed in submission order, dropped ones aside, over deletions, re-creations and other queues |
| PipelineRuns.EveryFlowIsSettledOnce | src/common/src/FlowManager.cpp:458-545 | when the final call returns the table is empty; every flow ever created left it once, retired as its last relevant packet left it, and each observer heard of it once if it was worth reporting, else never |
| PipelineOutcomes.FlowsAreReportedForTheirPackets | src/common/src/FlowManager.cpp:458-499 | when the final call has returned each finish observer has heard once of each flow with a data packet and, up to its end, three packets over all, two for UDP, and never of another |
| PipelineEnding.FinalCallCanReturnIff | src/common/src/FlowManager.cpp:514-545 | from any reachable state some further steps let the final call return if and only if: before it holds the lock, there was no shutdown or every queue is empty but for the packet its worker has set out to pop; afterwards, no worker holds a packet |
| PipelineEnding.HeldPacketDeadlocks | src/common/src/FlowManager.cpp:527-536 | with the lock held and a packet in a worker's hands no steps whatever process a packet again, and the flow that the call waits for stays |
| PipelineExamples.ShutdownStrandsPackets | src/common/src/FlowManager.cpp:48-74 | a packet queued at a shutdown that no worker saw coming keeps the final call from ever returning |
| PipelineExamples.EmptyQueuesAreNotEnough | src/common/src/FlowManager.cpp:514-536 | with one packet just popped the final call can return, and if it takes the lock now it never does |
| PipelineExamples.TimeoutZeroReplacesLiveFlows | src/common/src/FlowManager.cpp:315-324 | with a TCP timeout of 0 the lookup for a packet in another second replaces a flow that is being established |
| PipelineRuns.TableHoldsReplays | src/common/src/FlowManager.cpp:97-141 | at any time a flow in the table is the replay of the packets processed for it |
| PipelineOutcomes.TableTellsOfPackets | src/common/src/Flow.cpp:63-299 | after any run the control of a flow in the table is told by the packets processed for it |
| PipelineOutcomes.QueuesTakeFlowsInTurn | src/common/src/FlowManager.cpp:258-267 | after any run the flow made as number i is pinned to queue i modulo the number of workers |
| PipelineRuns.EveryLabelIsAnnouncedOnce | src/common/src/FlowManager.cpp:103-115 | a classification observer hears of a flow once if one of its packets was decisive, else never |
| PipelineRace.FlowIsGoneIff | src/common/src/FlowManager.cpp:143-184 | between a reader's lookup and its count, in any steps of the workers, the flow stays in the table, the same and in the same queue, unless all packets that waited for it were served and left it finished |
| PipelineRace.CountLateKeepsInvIff | src/common/src/FlowManager.cpp:154-184 | the reader's second half keeps table and queues in agreement if and only if the packet's flow is still in the table, or the queue is full |
| PipelineRace.UncountedPacketUnderflows | src/common/src/FlowManager.cpp:97-105 | a worker that serves a packet without a flow creates one of its own with a counter of -1, which stays in the table exactly when the packet does not end it |
| PipelineRace.LookupAndCountAgreeIff | src/common/src/FlowManager.cpp:143-184 | lookup, any steps of the workers, count: the invariant holds afterwards if and only if a packet that waited at the lookup is unserved, or those packets do not finish the flow, or the queue is full |
| PipelineSettling.AtOnceIsServe | src/common/src/FlowManager.cpp:97-127 | the worker's three parts, with nothing in between, are the one step |
| PipelineSettling.FedFlowStaysIff | src/common/src/FlowManager.cpp:97-127 | after a flow was fed, whatever the other threads do, it stays in the table with its state unless a packet comes for which it has expired, or the final call finishes it |
| PipelineSettling.ServingSlowlyAgreesIff | src/common/src/FlowManager.cpp:97-127 | feeding, any steps of others, reporting, any steps of others, deleting by hash: invariant and account of lives hold afterwards if and only if the worker did not find its flow over, or no other flow is under the key by then |
| PipelineSettling.PunctualPacketsDoNoHarm | src/common/src/FlowManager.cpp:269-365 | which is so if the packets that come in between are within the timeouts, and the final call leaves the flow alone |
| PipelineExamples.LateSynLosesItsFlow | src/common/src/FlowManager.cpp:354-365 | a run from the start: a stray packet is fed and its flow reported, a SYN later than the close-wait timeout replaces the flow, the worker deletes the new one while its packet is queued |
| PipelineExamples.LookupAndCountCanFail | src/common/src/FlowManager.cpp:143-184 | a run from the start: a stray packet, the lookup for a SYN, the worker, the count; a flow with a packet counter of -1 is in the table |
| FlowManagers.FlowManager.constructor | src/common/src/FlowManager.cpp:16-34 | an empty table, one queue per worker, and all workers before their loops |
| FlowManagers.FlowManager.TakeTurn | src/common/src/FlowManager.cpp:260-265 | queues take turns |
| FlowManagers.FlowManager.MakeFlow | src/common/src/FlowManager.cpp:239-267 | a new flow is pinned to the asking worker, else to the queue whose turn it is |
| FlowManagers.FlowManager.Insert | src/common/src/FlowManager.cpp:237-270 | it goes into the table under its key, sharing nothing with other flows |
| FlowManagers.FlowManager.GetFlow | src/common/src/FlowManager.cpp:229-403 | lookup, creation, and replacement on each of the three timeouts |
| FlowManagers.FlowManager.NotifyFlowFinished | src/common/src/FlowManager.cpp:458-499 | the observers' calls are made if there were at least 3 packets overall (UDP: 2) and one of data, as the history has them; the flow is marked either way |
| FlowManagers.FlowManager.CallFinishObservers | src/common/src/FlowManager.cpp:493-497 | every finish observer is called once with the flow, in order |
| FlowManagers.FlowManager.NotifyFlowClassified | src/common/src/FlowManager.cpp:506-512 | every classification observer is called once with the flow, in order |
| FlowManagers.FlowManager.PassOn | src/common/src/FlowManager.cpp:103-115 | the flow object goes one step; observers are called exactly if that classified it |
| FlowManagers.FlowManager.Erase | src/common/src/FlowManager.cpp:440 | an entry leaves the table |
| FlowManagers.FlowManager.DeleteFlow | src/common/src/FlowManager.cpp:429-443 | deletion is put off while packets are queued |
| FlowManagers.FlowManager.Take | src/common/src/FlowManager.cpp:103-115 | the flow takes the packet, whose verdict is passed on; the observers' calls are those of the history, where a first label is announced |
| FlowManagers.FlowManager.SettleIfFinished | src/common/src/FlowManager.cpp:117-127 | a finished flow is reported and deleted |
| FlowManagers.FlowManager.ProcessPacket | src/common/src/FlowManager.cpp:97-141 | the whole of a packet's processing, which passes on one accept |
| FlowManagers.FlowManager.PinFlow | src/common/src/FlowManager.cpp:160-170 | a flow without a queue gets the one whose turn it is |
| FlowManagers.FlowManager.TryPush | src/common/src/FlowManager.cpp:172-176 | a push succeeds exactly while there is room |
| FlowManagers.FlowManager.Enqueue | src/common/src/FlowManager.cpp:158-184 | queued for the worker of its flow without a verdict, or uncounted and dropped |
| FlowManagers.FlowManager.AddPacket | src/common/src/FlowManager.cpp:143-199 | the reader's call is the state machine's step; what the packet object tells is its fate |
| FlowManagers.FlowManager.Look | src/common/src/FlowManager.cpp:52 | a worker goes on exactly if there was no shutdown |
| FlowManagers.FlowManager.Fetch | src/common/src/FlowManager.cpp:54-69 | the head of the queue passes into the worker's hands, or it waits |
| FlowManagers.FlowManager.Serve | src/common/src/FlowManager.cpp:60-64 | the packet in hand is processed: the state machine's step, and one accept |
| FlowManagers.FlowManager.Shutdown | src/common/inc/FlowManager.h:145 | the flag is set |
| FlowManagers.FlowManager.Close | src/common/src/FlowManager.cpp:516-528 | the final call takes the lock exactly when it finds all queues empty |
| FlowManagers.FlowManager.FinishFlows | src/common/src/FlowManager.cpp:529-545 | the second loop finishes flows without packets, in whatever order; it gets through exactly if no flow counts packets |
| FlowManagerRuns.EveryFlowObjectIsReportedOnce | src/common/src/FlowManager.cpp:458-545 | when the final call has returned, each finish observer has been called with each flow object ever made exactly once if it was worth reporting, and else never |
| FlowManagerRuns.EveryFlowObjectIsAnnouncedOnce | src/common/src/FlowManager.cpp:97-115 | at any time each classification observer has been called with a flow object exactly once if one of its data packets was decisive, and else never |
| IPv4Packets.VerdictSetter.SetVerdict | src/netfilter/src/PacketHandler.cpp:237-254 | an answer goes to the kernel and into the statistics; a verdict above the highest is refused, and the highest overruns the statistics |
| IPv4Packets.VerdictSetter.SetAccept | src/netfilter/src/PacketHandler.cpp:418-422 | answers only if the verdict waits for the flow manager |
| IPv4Packets.VerdictSetter.SetDrop | src/netfilter/src/PacketHandler.cpp:424-428 | likewise |
| IPv4Packets.IPv4Packet.AcceptPkt | src/common/src/IPv4.cpp:76-83 | the first verdict is passed on, later ones are not |
| IPv4Packets.IPv4Packet.DropPkt | src/common/src/IPv4.cpp:85-92 | likewise |
| IPv4Packets.IPv4Packet.SetVerdict | src/common/src/IPv4.cpp:70-74 | the default verdict is to accept |
| IPv4Packets.IPv4Packet.Destroy | src/common/src/IPv4.cpp:9-23 | a packet gone without a verdict was dropped |
| PacketHandlers.PacketHandler.HandleTransport | src/netfilter/src/PacketHandler.cpp:328-383 | a TCP or UDP packet is answered at once, or is left to the flow manager |
| PacketHandlers.PacketHandler.HandlePacket | src/netfilter/src/PacketHandler.cpp:262-408 | whatever arrives is counted and answered once, or queued to be answered |
| PacketHandlers.PacketHandler.Serve | src/common/src/FlowManager.cpp:60-64 | the packet in a worker's hands has told one verdict, and the kernel one answer if that was still to come |
| PacketHandlers.PacketHandler.Shutdown | src/netfilter/src/PacketHandler.cpp:410-415 | handler and flow manager are shut down, and the books still balance |
| PacketHandlers.PacketHandler.FinishFlows | src/common/src/FlowManager.cpp:529-545 | nor does the final call change what is owed |
| PacketHandlers.PacketHandler.StatisticsAddUp | src/netfilter/src/PacketHandler.cpp:214-268 | after any calls the packet counter is the sum of the statistics, plus the packets queued or in hand only where the verdict waits; the drops counted are the manager's |
| PacketHandlers.PacketHandler.NoVerdictTwice | src/netfilter/src/PacketHandler.cpp:214-254 | no packet number is answered more often than it arrived; each packet object has passed on exactly one verdict, or waits and has passed on none |
| ProtocolDbLaws.ClampIsIdempotent | src/protocol_model/src/ProtocolModelDb.cpp:65-69 | keeping the cut-off above the defining limit, in 32-bit arithmetic, is idempotent |
| ProtocolDbLaws.LimitsAreRead | src/protocol_model/src/ProtocolModelDb.cpp:60-69 | a cut-off limit that is neither 0 nor above the defining limit becomes the next number after that, which is 0 after the last 32-bit one |
| ProtocolDbLaws.MeterDefaults | src/protocol_model/src/ProtocolModelDb.cpp:286-388 | what the entries of a meter's node are taken for: its name, its fingerprint, a count that is 0 by default, and a flag that holds only with a count |
| ProtocolDbLaws.ModelDefaults | src/protocol_model/src/ProtocolModelDb.cpp:195-254 | what the entries of a model's node are taken for: its name, its meters, a count that is 0 by default, a flag that is off by default, and hints, none by default |
| ProtocolDbLaws.FileDefaults | src/protocol_model/src/ProtocolModelDb.cpp:71-117 | a file without a version is of version 0.1, and one without models holds none |
| ProtocolDbLaws.ReadDbIsValid | src/protocol_model/src/ProtocolModelDb.cpp:58-178 | whatever the file holds, a database that was read is valid |
| ProtocolDbLaws.ReadingEnablesMeters | src/protocol_model/src/ProtocolModelDb.cpp:318-336 | every enabled meter of every model of a database that was read has been enabled in the factory, and has the size on record there |
| ProtocolDbLaws.ReadingEnablesOnlyFlagged | src/protocol_model/src/ProtocolModelDb.cpp:305-336 | and no meter is enabled but one that the factory knows and some model's node flags |
| ProtocolDbLaws.ReadingKeepsWhatIsThere | src/protocol_model/src/ProtocolModelDb.cpp:117-144 | reading adds to the models that are there, whatever they are, those of other names; whether it succeeds does not depend on them |
| Environments.ReadDatabaseIsUsable | src/protocol_model/src/ProtocolModelDb.cpp:58-193 | flows can be judged by any database that was read, with the meters that reading enabled |
| Environments.SetUp | src/pcap_classifier/src/main.cpp:133-145 | a program that reads its database gets such an environment exactly if the file can be read |
| AttributeMeterFactories.AttributeMeterFactory.RegisterFactory | src/protocol_model/src/AttributeMeterFactory.cpp:43-50 | a meter is known by its name and not enabled |
| AttributeMeterFactories.AttributeMeterFactory.Create | src/protocol_model/src/AttributeMeterFactory.cpp:31-41 | a new meter of that name, or none |
| AttributeMeterFactories.AttributeMeterFactory.EnableAttribute | src/protocol_model/src/AttributeMeterFactory.cpp:83-96 | a known meter is enabled, an unknown one is not |
| AttributeMeterFactories.AttributeMeterFactory.GetAllMeters | src/protocol_model/src/AttributeMeterFactory.cpp:53-81 | one meter for each enabled name, and no others |
| ProtocolDbLaws.MeterRoundTrip | src/protocol_model/src/ProtocolModelDb.cpp:286-506 | a meter written and read is the same but for its probabilities, each of which is what its spelling reads as; if one cannot be read the meter is refused |
| ProtocolDbLaws.ModelRoundTrip | src/protocol_model/src/ProtocolModelDb.cpp:195-490 | a model with meters comes back with them as spelt, or is refused if one cannot be read; a model without meters does not come back |
| ProtocolDbLaws.WrittenDbReadsBack | src/protocol_model/src/ProtocolModelDb.cpp:30-413 | reading what was written gives the same limits and, in order, all models with meters and everything they hold, their probabilities as spelt; it fails exactly if one of those is not legible |
| ProtocolDbLaws.RoundTripIsIdentity | src/protocol_model/src/ProtocolModelDb.cpp:30-413 | nothing is lost if and only if every model has a meter, every probability is spelt, and the version is the program's |
| ProtocolDbLaws.ReadDbRoundTrips | src/protocol_model/src/ProtocolModelDb.cpp:30-413 | of a database that was read from a file nothing is lost if and only if every model has a meter and the version is the program's, if what can be read is written so that it reads the same |
| ProtocolDbLaws.OneRoundTripSettles | src/protocol_model/src/ProtocolModelDb.cpp:30-413 | what was written and read once comes back the same from then on |
| DecimalCodecs.DecimalsAreFaithful | src/protocol_model/src/ProtocolModelDb.cpp:286-506 | there is a codec that meets all that is asked of one: decimal digits, and multiples of 10^-17 |
| DecimalCodecs.SpeltIffWhole | src/protocol_model/src/ProtocolModelDb.cpp:492-506 | it spells exactly those multiples |
| DecimalCodecs.ThirdsDoNotComeBack | src/protocol_model/src/ProtocolModelDb.cpp:492-506 | a meter of three thirds is written, read, and not the same |
| ProtocolDbLaws.StampsDoNotMatter | src/protocol_model/src/ProtocolModelDb.cpp:86-115 | the modification times of a file change nothing else that is read of it |
| ProtocolDbLaws.UntimedFileHasChangedNow | src/protocol_model/src/ProtocolModelDb.cpp:108-115 | a file without modification times has changed now |
| ProtocolDbLaws.TimesReadBack | src/protocol_model/src/ProtocolModelDb.cpp:399-406 | the modification times written are those read |
| ProtocolDbLaws.ModelWithoutMetersIsLost | src/protocol_model/src/ProtocolModelDb.cpp:469-490 | a database of one model without meters is written and read back as an empty one |
| ProtocolDbLaws.PortListIsAPermutation | src/protocol_model/src/ProtocolModelDb.cpp:138-178 | a port's list rearranges the main order if and only if no model repeats the port |
| ProtocolDbLaws.HintersComeFirst | src/protocol_model/src/ProtocolModelDb.cpp:138-178 | a port is shown the models that hint it first, then the others, each in the main order |
| ProtocolDbLaws.ScanReadsTheList | src/protocol_model/src/ProtocolModelDb.cpp:524-563 | the first size() lookups read the port's list, or the main order |
| ProtocolDbLaws.ScanVisitsEachOnce | src/protocol_model/src/ProtocolModelDb.cpp:524-563 | without repeated hints a scan visits each model once, for every port |
| ProtocolDbLaws.ScanVisitsEachOnceIff | src/protocol_model/src/ProtocolModelDb.cpp:524-563 | and with them exactly when only the last model repeats the port and all models hint it |
| ProtocolDbLaws.RepeatedHintHidesAModel | src/protocol_model/src/ProtocolModelDb.cpp:138-178 | of two models the first of which hints port 80 twice, a scan for port 80 sees the first twice and the second never |
| ProtocolModelDbs.ReadFingerPrint | src/protocol_model/src/ProtocolModelDb.cpp:369-378 | the loop over a fingerprint's nodes |
| ProtocolModelDbs.ReadAttributeMeter | src/protocol_model/src/ProtocolModelDb.cpp:286-388 | a meter's node is read, found not valid, or refused; a known meter whose flag is set has been enabled in any case |
| ProtocolModelDbs.ReadAttributeMeters | src/protocol_model/src/ProtocolModelDb.cpp:256-276 | the first meter that is not valid spoils the model, and nothing after it is enabled |
| ProtocolModelDbs.ReadProtocolModel | src/protocol_model/src/ProtocolModelDb.cpp:195-284 | a model's node likewise |
| ProtocolModelDbs.TakeHints | src/protocol_model/src/ProtocolModelDb.cpp:138-141 | a model goes to the end of each list it hints |
| ProtocolModelDbs.FillOrder | src/protocol_model/src/ProtocolModelDb.cpp:157-178 | the nested loops append to each list the models not in it |
| ProtocolModelDbs.WriteAttributeMeter | src/protocol_model/src/ProtocolModelDb.cpp:492-506 | a meter's node |
| ProtocolModelDbs.WriteProtocolModel | src/protocol_model/src/ProtocolModelDb.cpp:469-490 | a model's node, without a list of meters if it has none |
| ProtocolModelDbs.MergeFingerPrint | src/protocol_model/src/AttributeMeter.cpp:57-61 | the loop blends every slot |
| ProtocolModelDbs.ProtocolModelDb.constructor | src/protocol_model/src/ProtocolModelDb.cpp:14-28 | the default limits and nothing else |
| ProtocolModelDbs.ProtocolModelDb.Admit | src/protocol_model/src/ProtocolModelDb.cpp:126-142 | a model joins unless its name is taken |
| ProtocolModelDbs.ProtocolModelDb.ReadLimits | src/protocol_model/src/ProtocolModelDb.cpp:60-115 | limits, version and modification times, or refusal |
| ProtocolModelDbs.ReadModifiedTimes | src/protocol_model/src/ProtocolModelDb.cpp:89-115 | the times that can be read, in order; the present if the file has none |
| ProtocolModelDbs.ProtocolModelDb.Read | src/protocol_model/src/ProtocolModelDb.cpp:30-193 | reading succeeds at most once, exactly when every node is what it should be; the object then holds the database, after a failed read on top of what that left; the factory has enabled its meters |
| ProtocolModelDbs.ProtocolModelDb.Write | src/protocol_model/src/ProtocolModelDb.cpp:391-413 | the database as a tree of nodes, with the present before the other modification times |
| ProtocolModelDbs.ProtocolModelDb.Find | src/protocol_model/src/ProtocolModelDb.cpp:508-515 | the model of a name, if there is one |
| ProtocolModelDbs.ProtocolModelDb.IncreaseFlowCount | src/protocol_model/inc/ProtocolModel.h:33 | the 32-bit flow counter of one model goes up |
| ProtocolModelDbs.ProtocolModelDb.MergeMeter | src/protocol_model/src/AttributeMeter.cpp:42-64 | a meter takes in another of its name, and nothing else changes |
| Training.MergingIsAveraging | src/protocol_model/src/AttributeMeter.cpp:57-63 | after any merges a fingerprint is (c f0 + sum of observations) / (c + k) |
| Training.MergingOrderIsIrrelevant | src/protocol_model/src/AttributeMeter.cpp:42-64 | the order of merging does not matter |
| Training.MergingKeepsBounds | src/protocol_model/src/AttributeMeter.cpp:57-61 | probabilities stay between 0 and 1 |
| Training.MergingKeepsDistributions | src/protocol_model/src/AttributeMeter.cpp:42-64 | distributions stay distributions |
| ProtocolModelUpdaters.LineIsTheFirst | src/training/src/ProtocolModelUpdater.cpp:31-33 | the training line used is the first with the flow's hash |
| ProtocolModelUpdaters.EachMeterTakesItsName | src/training/src/ProtocolModelUpdater.cpp:48-61 | the first meter of each name in a model takes in all the flow's meters of that name, and any other is left alone |
| ProtocolModelUpdaters.TrainingIsAveraging | src/training/src/ProtocolModelUpdater.cpp:19-75 | after any flows have finished each meter of the database is (c f0 + sum) / (c + k) over the meters of its name of the flows whose first line names its model |
| ProtocolModelUpdaters.TrainingCountsFlows | src/training/src/ProtocolModelUpdater.cpp:37-44 | each model counts, in 32 bits, the flows whose first line names it, and keeps its name, flag and hints |
| ProtocolModelUpdaters.TrainingKeepsDbValid | src/training/src/ProtocolModelUpdater.cpp:46-61 | training keeps names, sizes, hints, port orders and counter ranges |
| ProtocolModelUpdaters.ProtocolModelUpdater.Train | src/training/src/ProtocolModelUpdater.cpp:37-61 | the flow counts for the model and its meters are merged by name; updated exactly if one was |
| ProtocolModelUpdaters.ProtocolModelUpdater.FlowFinished | src/training/src/ProtocolModelUpdater.cpp:19-75 | the first matching line decides which model is trained, and no other changes; updated exactly if a meter was merged |
| Analyse.CountsAreTheConfusionMatrix | tools/analyse_results.py:345-424 | after any results each count is a cell, a row or a column of the confusion matrix, and TP + FP + TN + FN + NC is the number of results since the entry was made |
| Analyse.TablesAreTransposes | tools/analyse_results.py:397-403 | the false positive and false negative tables are transposes |
| Analyse.FalsePositivesEqualFalseNegatives | tools/analyse_results.py:397-403 | over all protocols there are as many false positives as false negatives |
| Analyse.FMeasureInClosedForm | tools/analyse_results.py:147-162 | the F-measure is 100 * 2TP / (2TP + FP + FN), 0 without true positives |
| Analyse.RecallAndPrecision | tools/analyse_results.py:147-162 | recall is 100 TP / (TP + FN) and precision 100 TP / (TP + FP), both 0 without true positives |
| Analysers.ProtocolResult.CalculateAnalysis | tools/analyse_results.py:147-162 | recall, precision and F-measure of the counters |
| Analysers.Analyser.LeaveAside | tools/analyse_results.py:405-409 | every protocol not concerned gains a true negative, and no other |
| Analysers.Analyser.CountUp | tools/analyse_results.py:385-424 | the counters and tables that a result changes; none, if it is classified and names no protocol |
| Analysers.Analyser.GatherResult | tools/analyse_results.py:345-424 | one result, entries made first |
| Analysers.Analyser.GatherResults | tools/analyse_results.py:330-432 | all results, or those up to the first that cannot be read, or none: which of the failures it ends with, and what is on the books then |
| Analysers.UnknownDefaultFails | tools/analyse_results.py:342-343 | a default protocol that has no entry |
| Analysers.DefaultAloneFails | tools/analyse_results.py:330-432 | a default protocol without a flows file: a flow is counted, and gathering fails after all |

## Left out

- Packet capture, netfilter queue I/O, header parsing, signals, option parsing, YAML text, file renames and logging: packets are tuples, flags, payload and a time in seconds, files are node trees; how a time is spelt, and what time it is, are parameters.
- Mutexes, condition variables and the lock-free queue: queues are bounded sequences and steps are atomic; of the locks only the one on the table appears, while the final call holds it.
- Interleavings finer than those of `PipelineRace` and `PipelineSettling`: a reader's lookup between a worker's counting down and its feeding of the same flow; a reader that times a flow out at the moment its worker reports it, so that an observer hears of it from both threads; two threads in one flow object.
- The receive buffer of the netfilter handler, and the kernel's return codes.
- The 32-bit counters of packets per flow and the 64-bit totals of the meters do not wrap; the length of a payload is unbounded.
- Floating-point rounding: the truncating casts in the ratio meters are exact here.
- Exceptions thrown by a meter, which the source logs and passes over; no meter modelled throws.
- The public `deleteFlow(packet)`, `deleteFlow(hash)`, `flowExists` and `getFlow(hash)`, which the pipeline does not call.
- The `learningMode` branch beyond skipping classification.
- Laws for the nine other meters: ByteFrequencyFirst8PacketsMeter, ByteFrequencyFirstDestToOrigPacket, DirectionBytesCountFirst10PacketMeter, DirectionChangesFirst8PacketsMeter, EntropyFirstOrigToDestPacket, First4ByteFrequencyMeter, First16ByteFrequencyMeter, PayloadSizeFirstPacketMeter and RtmpRegexMatchMeter; flows may have them, as meters of kind `Other`.
- The 128-bit MurmurHash variants.
- The final call looks at the queues one after the other; the model looks at all of them at once, which is the same if the reader itself makes the call.
- The destructor of the flow manager, which shuts down and joins the workers.
- ProtocolModelDbs.ProtocolModelDb.MergeMeter: asks that the meter's 32-bit flow count is not at its last value, where the source divides by zero.
- ProtocolModelUpdaters.ProtocolModelUpdater.FlowFinished: asks likewise that no meter's flow count can get to its last value by this flow; so do Train and TrainingIsAveraging.
- The models of the database are values in a list that the database object reassigns; the source shares pointers to them between its lists, here the other lists hold positions.
- A training file that was never opened, through which the source dereferences a null pointer.
- The expected counters, divergence and packet-count ranges of the results script, its file formats, the text form of a tuple, and the variants of the ratios that count unclassified flows as misses.
