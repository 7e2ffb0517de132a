# Verified models of the eNB control procedures

This Dafny project models the parts of the repository that keep state over long
runs or that translate between representations, and proves what they keep.

| file | component |
|---|---|
| MeasTypes, MeasEnb, MeasReplica, MeasIntegrity, MeasTriggers, MeasLife, MeasCgi, MeasReports, MeasAsked, MeasAccept, MeasExamples, MeasManager, Bands | RRC measurement manager: three tables per UE, a tree of controller triggers, and the deltas sent to the UE |
| FrameTiming, DlHarq, DlAccounting, DlFeedback, DlRate, DlHarqUe | subframe timing and downlink HARQ of one UE |
| UlSlot, UlErrors, UlJournal, UlBlocks, RandomAccess, UlSlotUe | uplink HARQ, Msg3 and uplink failure of one UE slot (FDD) |
| UeTable, Cba, Pucch, Mib | UE slot table, contention-based access, PUCCH resources, master information block |
| AsnCodec, AsnCodecCode | the encoder and decoder emitted by the ASN.1 code generator, for all schemas |
| BitString | integers from ASN.1 bit strings |
| TestScheduler, TestProgress | machine allocation of the generic autotests |
| Arith, Options | quotients and residues; values that may be missing |

Where the source updates things in place there is a class or a method with loops, proved
equal to a specification function; the theorems are about the specification functions, over
every input and every run. Time is the absolute subframe number; the code sees only the
subframe and the frame counter modulo 1024, so every timing theorem includes the wrap. One
step of the eNB receives subframe u after transmitting subframe u + 2, as
`targets/RT/USER/lte-softmodem.c:1645-1646` sets it up; a special subframe is transmitted
after the reception of the same step.

What the source cannot decide by itself is an input of the model: scheduling decisions,
decoder results, detected scheduling requests, the answers of the agent and the UE
capabilities.

Some properties one would expect turn out to hold only under a condition, or the code does
something else than its comments say. Where a theorem is named, it gives the exact condition
or the exact behaviour:

- The UE and the eNB hold the same measurement configuration exactly if every configured
  request names a report type and does not empty a cell list (or drop the CGI cell) of an
  object it reuses (`ReplicaAgreement`, `NoReportType`, `StaleCells`).
- Triggers and measurements match one to one exactly if, in addition, transaction ids are
  fresh (`KeptRuns`, `SameTransaction`).
- Each measurement stays on its carrier exactly if no request takes over an object identity
  that its UE uses for another carrier; the tree scan does not look at the UE, so a second UE
  can cause this (`CarrierRuns`, `TwoUes`), while one UE alone cannot (`OneUeRuns`).
- Each measurement keeps the report configuration built from its own request exactly if every
  request finds its report identity, in its own UE's table, free or holding what it is about to
  send (`ReportRuns`). This scan does not look at the UE either, so an equal request of another
  UE can overwrite a configuration in use (`TwoUesShare`). With one UE the condition is that
  requests the code takes for the same are also sent alike (`OneUeReportRuns`, `OneUeShares`).
- Given that, and that the UEs are in sync, the UE of each trigger measures its carrier and
  reports, field by field, what the trigger asks for (`ServedRuns`). Bandwidth and cell lists are
  those of the last request for the object, whichever trigger it came from (`WishRuns`).
- At most one CGI measurement is stored in every run, without any condition on the requests
  (`CgiRuns`): a CGI request is refused whenever any trigger is stored, which is stricter than
  the comment beside the code says.
- A HARQ process is used again before its feedback is read exactly in three TDD subframes
  (`ReuseAfterAck`), because transmission runs two subframes ahead of reception.
- In FDD every trial is answered exactly once exactly if an awaited block gets feedback and a
  second feedback in the same subframe finds its process closed (`AccountingRuns`); two NAKs at
  once are counted for a round that was never sent (`TwoNaks`).
- A set of one subframe answered with a scheduling request in channel selection is always taken
  for NAK; otherwise every block is credited with what the UE meant (`CreditedAsMeant`).
- The end of a rate adaptation window is tested for equality: once more blocks than it holds have
  been sent, no window ends any more and the MCS offset never rises again (`MissedExactly`,
  `Missed`).
- Cleaning an uplink slot leaves a PHICH answer that is due, although the comment there says it is
  cleared later. The next UE in the slot inherits it as a NAK, and a block is expected from that UE
  that nobody granted (`Inherited`).
- PUCCH feedback multiplexed without a scheduling request is credited as the UE meant it exactly
  if the UE acknowledged no block (`MultiplexedCredit`, `MultiplexedNeverDelivers`).
- A message with an optional encapsulated list is not decoded (`OptionalListBreaks`), given that
  the ASN.1 library rejects the list struct that the emitted encoder passes on unencoded.
- The 64-bit conversion is right exactly for values below 2^31, because the byte is shifted
  as an int (`ToUint64`); with the byte widened first it is always right (`ToUint64Wide`).
- Live test threads never share a machine exactly if the machine list has no duplicates
  (`NeverShare`).
- A periodic report is checked as inter-frequency even on the serving band, because the band is
  looked up for events A1 and A2 only (emage_tech_oai/emoai_rrc_measurements.c:1011-1065); the
  model does the same.

## Model

| member | source | states |
|---|---|---|
| Bands.FindBandIndex | emage_tech_oai/emoai_rrc_measurements.c:562-581 | the first band whose open channel range contains the number, -1 if there is none |
| Bands.CompareCarriers | emage_tech_oai/emoai_rrc_measurements.c:593-634 | 1 exactly for equal channel numbers, non-zero exactly for equal physical frequencies |
| MeasAccept.WidthExactly | emage_tech_oai/emoai_rrc_measurements.c:47-175 | every band of the tables is as wide as its channel range is long, except bands 66 and 70, whose entries are narrower |
| MeasAccept.UsableExactly | emage_tech_oai/emoai_rrc_measurements.c:706-764 | a carrier is usable exactly if the UE supports its band and every frequency of the channel of the requested bandwidth lies in the band |
| MeasAccept.AcceptedExactly | emage_tech_oai/emoai_rrc_measurements.c:1165-1340 | while the triggers agree on frequencies, a request leads to a message exactly if object and report part are fine, a report type is set and there is room, all said about the set of stored triggers and not through the scans |
| MeasAccept.RefusedExactly | emage_tech_oai/emoai_rrc_measurements.c:1196-1261 | a request that leads to no message, and does not lack a report type, changes no table of any UE and no trigger but for bandwidth and cell lists |
| MeasAccept.SharedExactly | emage_tech_oai/emoai_rrc_measurements.c:801-980 | a request shares the report configuration of a stored one exactly if the kinds agree and each field it gives has the value the stored one gave, or else the default |
| MeasReplica.ListReplaced | emage_tech_oai/emoai_rrc_measurements.c:1547-1575 | at the UE, "remove cells 1..32, then add 1..n" gives the list just sent if and only if something was sent or nothing was stored |
| MeasReplica.ObjectReplacedExactly | emage_tech_oai/emoai_rrc_measurements.c:1520-1611 | reconfiguring an object at the UE equals creating it afresh if and only if no stored cell list is replaced by an empty one and no CGI cell is dropped |
| MeasReplica.ReleaseAgrees | emage_tech_oai/emoai_rrc_measurements.c:1444-1500 | the UE's implied removals take away exactly what the reference counting of the eNB took away, whatever else is configured |
| MeasReplica.ConfigureAgrees | emage_tech_oai/emoai_rrc_measurements.c:1501-1811 | after an addition the UE's configuration equals the eNB's tables if and only if a report type is set and the object was replaced |
| MeasReplica.StepInSync | emage_tech_oai/emoai_rrc_measurements.c:1833-1864 | one event leaves all UEs in sync with the eNB if and only if it is safe, a condition on the request and the tables before it |
| MeasReplica.ReplicaAgreement | emage_tech_oai/emoai_rrc_measurements.c:1397-1891 | in every run with any number of UEs, all UEs hold exactly the eNB's configuration after every message if and only if every event is safe |
| MeasIntegrity.ReleaseTidy | emage_tech_oai/emoai_rrc_measurements.c:1466-1499 | a removal leaves every reference resolved and no object or report configuration without a measurement |
| MeasIntegrity.ConfigureTidy | emage_tech_oai/emoai_rrc_measurements.c:1506-1808 | an addition keeps this if and only if it has a report type or the report slot was in use |
| MeasIntegrity.TidyRuns | emage_tech_oai/emoai_rrc_measurements.c:1397-1811 | every run keeps referential integrity and exact garbage collection after every event if and only if no configured request lacks a report type |
| MeasReports.SentTheSame | emage_tech_oai/emoai_rrc_measurements.c:801-980 | two report configurations that the code takes for the same are sent the same if and only if thresholds use the same scale and the given fields agree |
| MeasReports.StepReports | emage_tech_oai/emoai_rrc_measurements.c:1798-1805 | one event of a well-behaved run leaves every trigger's stored report configuration the one built from its own request if and only if the event is safe, a condition on the requesting UE's table before it |
| MeasReports.ReportRuns | emage_tech_oai/emoai_rrc_measurements.c:1077-1102 | in every well-behaved run with any number of UEs, each trigger's stored report configuration stays its own after every event if and only if every configured request finds its report identity, in its own UE's table, free or holding what it sends |
| MeasReports.OneUeReportRuns | emage_tech_oai/emoai_rrc_measurements.c:1077-1102 | with requests for one UE only, this holds if and only if every request that shares a stored configuration is sent like the one it shares |
| MeasAsked.AskedExactly | emage_tech_oai/emoai_rrc_measurements.c:1501-1811 | after a configured request, from a state in sync, the UE has exactly one more measurement; its report configuration carries the requested kind, thresholds, hysteresis, time to trigger, quantities, cells, interval and amount, 0 where not given; its object carries the requested carrier, bandwidth, i-th cell and i-th blacklisted range if and only if the request is safe |
| MeasAsked.MeasuresUnique | emage_tech_oai/emoai_rrc_measurements.c:1520-1611 | a request leaves no freedom: two objects that measure what it asks are equal |
| MeasAsked.WishRuns | emage_tech_oai/emoai_rrc_measurements.c:1397-1891 | in every run whose configured requests have a report type, any number of UEs, every measurement of every UE measures and reports, field by field, what was asked for last under its identities, after every event, if and only if every event is safe |
| MeasAsked.ServedRuns | emage_tech_oai/emoai_rrc_measurements.c:1397-1891 | in every well-behaved and safe run, the UE of each trigger measures the trigger's carrier and reports what the trigger asks for, after every event, if and only if no request takes over an identity its UE uses for another carrier or another report |
| MeasTriggers.InsertSorted | emage_tech_oai/emoai_rrc_measurements.c:252-260 | the tree stays strictly sorted by transaction id and holds the new trigger if its id was fresh |
| MeasTriggers.JudgedMatched | emage_tech_oai/emoai_rrc_measurements.c:1226-1340 | a request keeps the one-to-one match between triggers and measurements if and only if, should it be configured, it has a report type and a fresh transaction id |
| MeasTriggers.ReportMatched | emage_tech_oai/emoai_rrc_measurements.c:262-296 | a measurement report keeps the one-to-one match |
| MeasLife.ReportExactly | emage_tech_oai/emoai_rrc_measurements.c:262-296 | in a matched state, after a report the measurement it names lives exactly if it lived before and the agent knows its trigger; all other measurements and triggers are as before; a message goes out exactly if a live measurement went |
| MeasLife.ReportEffect | emage_tech_oai/emoai_rrc_measurements.c:275-296 | the same for every state of the manager: the measurement stays exactly if it has a trigger that the agent knows |
| MeasLife.LifeRuns | emage_tech_oai/emoai_rrc_measurements.c:1444-1500 | in every run a configured measurement stays configured with the same identities after every event if and only if no event ends it |
| MeasLife.WellBehavedLife | emage_tech_oai/emoai_rrc_measurements.c:262-296 | in well-behaved runs only two kinds of event end it: a report for it whose trigger the agent does not know, and its UE going |
| MeasTriggers.UeDownMatched | emage_tech_oai/emoai_common.c:431-434 | when a UE goes, its triggers and its measurements go together |
| MeasTriggers.ScanDetermined | emage_tech_oai/emoai_rrc_measurements.c:778-796 | any trigger on the requested frequency, not only the first, determines the result of the scan |
| MeasTriggers.ScanOrderIrrelevant | emage_tech_oai/emoai_rrc_measurements.c:778-796 | with consistent triggers the first-match scan gives the same answer in any order of the tree |
| MeasTriggers.DistinctFrequencies | emage_tech_oai/emoai_rrc_measurements.c:622-633 | while each trigger's object is on the trigger's carrier, no two measurement objects of a UE have the same physical carrier frequency |
| MeasCgi.CgiRuns | emage_tech_oai/emoai_rrc_measurements.c:1051-1096 | at every point of every run of requests, reports, arrivals and departures, whatever their transaction ids and report types, at most one CGI measurement is stored |
| MeasTriggers.KeptRuns | emage_tech_oai/emoai_rrc_measurements.c:1165-1340 | in every run, after every event: tidy tables and one-to-one match of triggers and measurements, if and only if every configured request has a report type and a fresh transaction id |
| MeasTriggers.CarrierRuns | emage_tech_oai/emoai_rrc_measurements.c:1239-1261 | in every such run each trigger's object stays on the trigger's carrier and one frequency has one object, if and only if no request takes over an identity its UE uses for another carrier |
| MeasTriggers.OneUeRuns | emage_tech_oai/emoai_rrc_measurements.c:777-796 | with well-behaved requests for one UE only this always holds, and its objects have distinct frequencies at the end of every run |
| MeasExamples.NoReportType | emage_tech_oai/emoai_rrc_measurements.c:1759-1761 | a run in which a request without report type leaves half-written tables and the UE uninformed |
| MeasExamples.StaleCells | emage_tech_oai/emoai_rrc_measurements.c:1535-1576 | a run in which a reused object with an empty cell list leaves the UE with the old cells |
| MeasExamples.SameTransaction | emage_tech_oai/emoai_rrc_measurements.c:252-260 | a run in which a repeated transaction id gives a measurement without trigger |
| MeasExamples.TwoUes | emage_tech_oai/emoai_rrc_measurements.c:777-796 | a run in which one UE's request replaces another carrier by taking over the identity found at a different UE |
| MeasExamples.OneUeShares | emage_tech_oai/emoai_rrc_measurements.c:801-980 | a run of one UE in which a request that leaves a field open overwrites the stored configuration that gives it |
| MeasExamples.TwoUesShare | emage_tech_oai/emoai_rrc_measurements.c:1077-1102 | a run in which a UE's live report configuration is overwritten because another UE has an equal request, although that request is sent alike and every object stays on its carrier |
| MeasManagers.CountReferences | emage_tech_oai/emoai_rrc_measurements.c:1466-1477 | the loop counts the measurements that refer to an object and to a report configuration |
| MeasManagers.FindFree | emage_tech_oai/emoai_rrc_measurements.c:1226-1233 | the first free slot of a table, 0 if all are taken |
| MeasManagers.BuildMeasObject | emage_tech_oai/emoai_rrc_measurements.c:1520-1611 | the object built by the loops over cells and blacklisted cells is the specified one |
| MeasManagers.CheckCarrier | emage_tech_oai/emoai_rrc_measurements.c:706-760 | accepts exactly the carriers in a band of the UE with room for the measurement bandwidth |
| MeasManagers.MeasManager.CheckObject | emage_tech_oai/emoai_rrc_measurements.c:679-799 | the validation of the object part, with the scan of the tree, returns the specified verdict |
| MeasManagers.MeasManager.CheckReport | emage_tech_oai/emoai_rrc_measurements.c:982-1112 | the validation of the report part returns the specified verdict |
| MeasManagers.MeasManager.UpdateTrigger | emage_tech_oai/emoai_rrc_measurements.c:1114-1158 | only the first trigger of the object takes over bandwidth and cell lists |
| MeasManagers.UpdateAt | emage_tech_oai/emoai_rrc_measurements.c:1114-1158 | the first trigger of the object takes over bandwidth and both cell lists, and every other trigger stays |
| MeasManagers.MeasManager.ReconfigureRemove | emage_tech_oai/emoai_rrc_measurements.c:1444-1500 | the removing branch changes only this UE's tables and sends the specified delta |
| MeasManagers.MeasManager.ReconfigureAdd | emage_tech_oai/emoai_rrc_measurements.c:1501-1811 | the adding branch, including the half-written tables when no report type is set, equals the step whose message AskedExactly describes field by field |
| MeasManagers.MeasManager.Request | emage_tech_oai/emoai_rrc_measurements.c:1165-1340 | the whole request: the object's new state and the message are those of the step that the run theorems are about |
| MeasManagers.MeasManager.OnReport | emage_tech_oai/emoai_rrc_measurements.c:262-296 | the same for a measurement report, whose effect ReportExactly describes |
| MeasManagers.MeasManager.UeDown | emage_tech_oai/emoai_rrc_measurements.c:237-250 | the same for a UE that goes |
| FrameTiming.AcknowledgedOnce | openair1/SCHED/phy_procedures_lte_common.c:239-328 | in FDD and TDD configurations 1 and 3, each downlink transmission is acknowledged by exactly one reception, 4 to 7 subframes later, except the special subframe of configuration 3, which has none |
| FrameTiming.ReuseAfterAck | openair1/SCHED/phy_procedures_lte_eNb.c:1781-1793 | the ten-entry tables are not overwritten before their acknowledgement is read; the process (number modulo 8) is reused too early exactly after subframes 1 and 6 of TDD configuration 1 and subframe 7 of configuration 3 |
| FrameTiming.PidsFollowTime | openair1/SCHED/phy_procedures_lte_eNb.c:244 | downlink and uplink process numbers computed from the wrapped frame counter equal absolute time modulo 8 |
| FrameTiming.OneSrPerPeriod | openair1/SCHED/phy_procedures_lte_eNb.c:106-134 | for every configuration index up to 154, every window of one period has exactly one scheduling request opportunity, also across the wrap |
| FrameTiming.SrPhase | openair1/SCHED/phy_procedures_lte_eNb.c:106-134 | the opportunities of an index are the subframes at the offset of the index modulo its period, in absolute time |
| FrameTiming.Msg3Time | openair1/SCHED/phy_procedures_lte_common.c:49-135 | the frame and subframe computed for Msg3 and its retransmission are those of absolute time plus 6 and plus 8 |
| FrameTiming.Msg3Process | openair1/SCHED/phy_procedures_lte_common.c:152-162 | the process prepared with the response is the process in use when Msg3 arrives |
| DlRate.AdaptedExactly | openair1/SCHED/phy_procedures_lte_eNb.c:1883-1913 | at the end of a window within the threshold, fewer than two first-round NAKs raise the MCS offset by one up to 1, two leave it, more than two send it to -1; inside a window it goes down exactly when the threshold is passed |
| DlRate.Antitone | openair1/SCHED/phy_procedures_lte_eNb.c:1883-1913 | more NAKs never give a higher offset |
| DlRate.RateRuns | openair1/SCHED/phy_procedures_lte_eNb.c:1883-1913 | in every run and duplex mode the offset and its counters are those of the sequence of blocks sent and answers received |
| DlRate.WindowLaw | openair1/SCHED/phy_procedures_lte_eNb.c:1899-1912 | what a whole window does from any offset: up by one, unchanged, or to -1, by its first-round NAKs, and counting starts afresh |
| DlRate.TwoCleanWindows | openair1/SCHED/phy_procedures_lte_eNb.c:1899-1912 | from any offset two clean windows in a row end at 1 |
| DlRate.CleanRun | openair1/SCHED/phy_procedures_lte_eNb.c:1883-1913 | the same for a run of the UE |
| DlRate.Missed | openair1/SCHED/phy_procedures_lte_eNb.c:1898 | once more blocks than a window holds were sent without an answer at the right moment, the offset never rises again |
| DlRate.MissedExactly | openair1/SCHED/phy_procedures_lte_eNb.c:1898 | a window can still end if and only if no more blocks than it holds have been sent |
| DlHarq.ResolvedBalanced | openair1/SCHED/phy_procedures_lte_eNb.c:1822-1873 | an ACK or NAK on an active process keeps its counters balanced per round |
| DlHarq.StepConserved | openair1/SCHED/phy_procedures_lte_eNb.c:3496-3519 | one step keeps the balance of all processes, up to the block that the first scheduling request drops |
| DlHarq.ConservationRuns | openair1/SCHED/phy_procedures_lte_eNb.c:1802-1913 | in every run and duplex mode, NAKs of round r-1 are the ACKs and NAKs of round r plus the block in flight, errors are the NAKs of the last round, rounds stay below the limit, idle means round 0; the only exception is the block lost to the first scheduling request, in a known round |
| DlHarq.MultiplexedCredit | openair1/SCHED/phy_procedures_lte_eNb.c:1739-1800 | for one and for two subframes in the set, multiplexed feedback without scheduling request has the effect of the feedback the code decoded before overwriting it if and only if that acknowledged no pending block |
| DlHarq.MultiplexedNeverDelivers | openair1/SCHED/phy_procedures_lte_eNb.c:1739-1800 | in a run with only such feedback no block is ever acknowledged |
| DlFeedback.CreditedAsMeant | openair1/SCHED/phy_procedures_lte_eNb.c:1664-1800 | for bit-by-bit and bundled answers on PUSCH, bundled ones on PUCCH and counts sent with a scheduling request, every block of the set is credited with what the UE meant, except a count for a set of one subframe, which is always NAK |
| DlFeedback.FeedbackExactly | openair1/SCHED/phy_procedures_lte_eNb.c:1781-1873 | one feedback resolves each pending block of the set once, with its own bit, and leaves every other process alone |
| DlAccounting.WaitingShifts | openair1/SCHED/phy_procedures_lte_eNb.c:1664-1667 | from one step to the next exactly the transmission four subframes back stops waiting and the newest starts |
| DlAccounting.StepSettled | openair1/SCHED/phy_procedures_lte_eNb.c:1663-1793 | one FDD step keeps the account of every process and round if and only if a grant uses the process of its subframe, the first scheduling request finds no block of process 0 in flight, and an awaited block is answered once |
| DlAccounting.AccountingRuns | openair1/SCHED/phy_procedures_lte_eNb.c:2315-2370 | in every FDD run, after every step, the trials of each process and round are its ACKs and NAKs plus the one still waiting, if and only if every step meets that condition; nothing is asked of feedback when nothing is awaited |
| DlAccounting.TwoNaks | openair1/SCHED/phy_procedures_lte_eNb.c:3204-3210 | a run in which PUCCH and PUSCH both report NAK for one block and the account is wrong |
| DlAccounting.TransportBlocksRuns | openair1/SCHED/phy_procedures_lte_eNb.c:1835-1873 | in every such run from reset, blocks started on a process equal blocks delivered plus blocks given up plus the one under way, plus, on process 0, the one dropped by the first scheduling request |
| DlHarqUe.DownlinkUe.SendSubframe | openair1/PHY/LTE_TRANSPORT/dci_tools.c:1119-1130 | what a grant writes into tables and process, and that nothing else changes |
| DlHarqUe.DownlinkUe.CreditEntry | openair1/SCHED/phy_procedures_lte_eNb.c:1802-1916 | crediting one table entry, in place, equals the specified state |
| DlHarqUe.DownlinkUe.AdaptRate | openair1/SCHED/phy_procedures_lte_eNb.c:1883-1913 | the four window tests in sequence give the offset and counters that AdaptedExactly and WindowLaw describe |
| DlHarqUe.DownlinkUe.ProcessFeedback | openair1/SCHED/phy_procedures_lte_eNb.c:1643-1920 | the loop over the acknowledged set equals the specified fold |
| DlHarqUe.DownlinkUe.DropOnFirstSr | openair1/SCHED/phy_procedures_lte_eNb.c:2297-2300 | the first scheduling request idles process 0 |
| DlHarqUe.DownlinkUe.Step | openair1/SCHED/phy_procedures_lte_eNb.c:3496-3519 | one call for one UE equals the step that the run theorems are about |
| UlSlot.TransmitKept | openair1/SCHED/phy_procedures_lte_eNb.c:551-564 | every transmission leaves the consecutive-error counter below its limit and the slot in order |
| UlSlot.KeptRuns | openair1/SCHED/phy_procedures_lte_eNb.c:3496-3511 | in every run a free slot is quiet, an acknowledged process is in round 0 and the error counter never passes its limit |
| UlErrors.StepMatches | openair1/SCHED/phy_procedures_lte_eNb.c:2933-3083 | one step is one entry in an abstract book of counters; failure is indicated exactly at the limit; an error indication and an abandoned Msg3 come exactly when the failures of the process reach their limits |
| UlErrors.FailureRuns | openair1/SCHED/phy_procedures_lte_eNb.c:551-564 | in every run the journal of blocks and indications is explained by the book, and the slot's counters end as the book's |
| UlJournal.FailureExactly | openair1/SCHED/phy_procedures_lte_eNb.c:551-564 | in every run and at every step, uplink failure is indicated if and only if that many error indications came since the last success, removal or failure in the journal |
| UlJournal.ErrorsExactly | openair1/SCHED/phy_procedures_lte_eNb.c:2966-3034 | in every run and at every step, an error indication comes if and only if a failed block that is not a Msg3 has used up the rounds of its process since the journal last restarted it, and a Msg3 is abandoned if and only if its own limit is reached |
| UlBlocks.FollowsExactly | openair1/PHY/LTE_TRANSPORT/phich.c:1506-1528 | in every run, after a block and while the slot keeps its UE, the journal shows a block on the same process eight steps later if and only if it is a Msg3 or was asked for: after a failure by a grant or by PHICH, after a success or an exhausted block by a grant |
| UlBlocks.Retransmitted | openair1/PHY/LTE_TRANSPORT/phich.c:1508-1517 | a block that fails before its last round and is left to PHICH is received again eight subframes later on the same process |
| UlBlocks.NoneAfterSuccess | openair1/PHY/LTE_TRANSPORT/phich.c:1519-1524 | after a decoded block the process has no block in any later round until MAC grants one or a Msg3 is received on it |
| UlBlocks.GrantGivesBlock | openair1/SCHED/phy_procedures_lte_eNb.c:1127-1158 | a grant transmitted in subframe t to a UE that stays gives a block in subframe t + 4 on the process of that subframe |
| UlBlocks.Inherited | openair1/PHY/LTE_TRANSPORT/ulsch_decoding.c:175-196 | when a UE is removed right after a block and a new one takes the slot, a block nobody granted is expected from the new UE exactly if the old block was not given up and the process is left to PHICH |
| RandomAccess.DueExactly | openair1/SCHED/phy_procedures_lte_eNb.c:1622-1624 | the comparison of wrapped counters holds exactly at the expected absolute time |
| RandomAccess.ResponseStarts | openair1/SCHED/phy_procedures_lte_eNb.c:1292-1326 | a response into a free slot makes Msg3 expected six subframes later in round 0 |
| RandomAccess.OtherSubframe | openair1/SCHED/phy_procedures_lte_eNb.c:2760-2776 | no other subframe disturbs the attempt |
| RandomAccess.ExpectedSubframe | openair1/SCHED/phy_procedures_lte_eNb.c:2933-3115 | the expected subframe ends in mode PUSCH when decoded (the slot staying in use exactly if MAC keeps the UE), arms the next attempt eight subframes later on the same process, or frees the slot |
| RandomAccess.Msg3Runs | openair1/SCHED/phy_procedures_lte_eNb.c:1607-1635 | in every FDD run, while the attempt lasts, Msg3 is expected at T+6+8j with round j on process (T+6) mod 8, never beyond the last allowed reception |
| RandomAccess.AttemptEnds | openair1/SCHED/phy_procedures_lte_eNb.c:2966-2991 | an attempt lasts at most maxHARQ_Msg3Tx receptions |
| UlSlotUe.UplinkUe.RemoveUe | openair1/PHY/LTE_TRANSPORT/ulsch_decoding.c:175-196 | cleaning frees the slot and its processes but leaves a pending PHICH |
| UlSlotUe.UplinkUe.TransmitSubframe | openair1/SCHED/phy_procedures_lte_eNb.c:551-564 | the transmission half of a step; failure is reported exactly at the limit |
| UlSlotUe.UplinkUe.SendHi | openair1/PHY/LTE_TRANSPORT/phich.c:1503-1528 | PHICH schedules the retransmission or closes the process, as FollowsExactly needs it |
| UlSlotUe.UplinkUe.ProcessMsg3 | openair1/SCHED/phy_procedures_lte_eNb.c:1607-1635 | Msg3 is scheduled exactly when due |
| UlSlotUe.UplinkUe.UlschError | openair1/SCHED/phy_procedures_lte_eNb.c:2933-3037 | the error branch; one error indication exactly for an exhausted block that is not Msg3 |
| UlSlotUe.UplinkUe.UlschOk | openair1/SCHED/phy_procedures_lte_eNb.c:3080-3128 | the success branch; mode PUSCH even if MAC rejected Msg3 |
| UlSlotUe.UplinkUe.Step | openair1/SCHED/phy_procedures_lte_eNb.c:3496-3511 | one call for one slot equals the step that the run theorems are about, with its indications |
| UeTable.FindIsLookup | openair1/SCHED/phy_procedures_lte_common.c:797-807 | finding an RNTI is lookup in the map the table stands for, -1 outside it |
| UeTable.AddConsistent | openair1/SCHED/phy_procedures_lte_eNb.c:136-173 | adding keeps the table consistent if and only if the RNTI was unused or there was no room |
| UeTable.AddRefines | openair1/SCHED/phy_procedures_lte_eNb.c:136-173 | a new UE gets the first free slot, is found there, and nobody else moves |
| UeTable.RemoveRefines | openair1/SCHED/phy_procedures_lte_eNb.c:175-207 | removing frees exactly that slot, and the UE is no longer found |
| UeTable.RefinementRuns | openair1/SCHED/phy_procedures_lte_eNb.c:136-224 | every run of fresh additions and removals keeps the table consistent and implements the map that the same operations give on maps alone, a new UE taking the first slot no user has if all slots up to it are allocated |
| UeTable.UeSlots.AddUser | openair1/SCHED/phy_procedures_lte_eNb.c:147-172 | the scan with its early exit, in place on the three arrays |
| UeTable.UeSlots.RemoveUser | openair1/SCHED/phy_procedures_lte_eNb.c:182-203 | the same for removal |
| UeTable.UeSlots.FindUser | openair1/SCHED/phy_procedures_lte_common.c:801-807 | the same for lookup |
| Cba.CbaPass | openair1/SCHED/phy_procedures_lte_eNb.c:2514-2673 | one pass leaves no flag at an enabled UE; a group with k > 0 successes gives exactly one SDU and k-1 scheduling requests |
| Cba.ChainReached | openair1/SCHED/phy_procedures_lte_eNb.c:2593-2604 | with all UEs enabled, a UE has its turn exactly if some UE of its group at or before it was flagged |
| Cba.CbaEvents | openair1/SCHED/phy_procedures_lte_eNb.c:2606-2673 | exactly the UEs whose access succeeded have an event, under their own number; the first of each group is the received SDU, the others are scheduling requests |
| Cba.RunPass | openair1/SCHED/phy_procedures_lte_eNb.c:2760-3269 | the loop over UEs, in place on the flags, equals the specified pass |
| Pucch.ResourceOwned | openair1/SCHED/phy_procedures_lte_common.c:427-475 | for any ascending table, element and subframe can be read back from the resource, which is below 2 N_3 |
| Pucch.NpFormula | openair1/SCHED/phy_procedures_lte_common.c:427-475 | the tables hold N_p of section 10.1 of TS 36.213, for exactly the six standard bandwidths |
| Pucch.OwnerUses | openair1/SCHED/phy_procedures_lte_common.c:469-474 | every resource below 2 N_3 belongs to some element and subframe, so the map is a bijection |
| Pucch.FirstCollision | openair1/SCHED/phy_procedures_lte_common.c:469-474 | the bound on elements is sharp |
| Pucch.ResourceExactly | openair1/SCHED/phy_procedures_lte_eNb.c:1938-2047 | in FDD and TDD configurations 1 and 3, resources are set exactly in acknowledging subframes; one is given exactly if the downlink subframe carried a block and is not a special subframe of configuration 1; subframe and element can be read back from it, which fixes the offset |
| Pucch.NeverCollide | openair1/SCHED/phy_procedures_lte_eNb.c:1938-2047 | in FDD and TDD configurations 1 and 3, two acknowledgements of one reception share a resource only for the same subframe and element |
| Mib.PackUnpack | openair1/SCHED/phy_procedures_lte_eNb.c:705-767 | the packed block and the phase read back to the frame and the cell configuration; a non-standard bandwidth reads as 25 |
| Mib.MibRuns | openair1/SCHED/phy_procedures_lte_eNb.c:703-792 | in every run from a frame divisible by four, after every subframe, the stored block and the phase decode to the current frame and configuration, through any number of wraps |
| Mib.Broadcast.TransmitSubframe | openair1/SCHED/phy_procedures_lte_eNb.c:703-768 | the block is rebuilt, mask by mask, exactly in subframe 0 of every fourth frame |
| AsnCodec.BitsDistinct | cmake_targets/tools/asn1tostruct.py:198-205 | no two non-mandatory IEs share a presence bit |
| AsnCodec.ListRoundTrip | cmake_targets/tools/asn1tostruct.py:412-456 | the emitted list decoder inverts the emitted list encoder |
| AsnCodec.DecodeSays | cmake_targets/tools/asn1tostruct.py:364-409 | decoding distinct acceptable IEs succeeds, fills exactly the carried fields and reports exactly their presence bits |
| AsnCodec.SaysUnique | cmake_targets/tools/asn1tostruct.py:364-409 | the result does not depend on the order of the IEs |
| AsnCodec.RoundTrip | cmake_targets/tools/asn1tostruct.py:464-573 | for every schema and message without an optional list, decoding the encoder's IEs in any order gives back mandatory fields, the presence bits that belong to IEs and present optional fields, and zero elsewhere |
| AsnCodec.OptionalListBreaks | cmake_targets/tools/asn1tostruct.py:502-516 | a message with an optional list is not decoded, given that the library rejects the unencoded list struct |
| AsnCodec.PresenceReported | cmake_targets/tools/asn1tostruct.py:383-384 | an optional IE received from any peer is reported as present exactly if its bit is among the 16 of the mask |
| AsnCodecCode.AssignBits | cmake_targets/tools/asn1tostruct.py:198-205 | the running shift numbers the non-mandatory IEs in order |
| AsnCodecCode.EncodeMessage | cmake_targets/tools/asn1tostruct.py:495-538 | the emitted encoder equals its specification |
| AsnCodecCode.DecodeItems | cmake_targets/tools/asn1tostruct.py:427-455 | the emitted list decoder appends up to the first bad element and tells whether all were good |
| AsnCodecCode.DecodeMessage | cmake_targets/tools/asn1tostruct.py:364-409 | the emitted decoder, on any struct in memory, equals its specification |
| BitString.ToUint8 | common/utils/asn1_conversions.h:43-47 | the value of one byte without its unused bits; other sizes are rejected |
| BitString.ToUint16 | common/utils/asn1_conversions.h:54-73 | the big-endian value of one or two bytes without the unused bits |
| BitString.GatherBytes | common/utils/asn1_conversions.h:87-95 | the loop of shifts and ORs computes the big-endian value of any number of bytes without the unused bits |
| BitString.ToUint32 | common/utils/asn1_conversions.h:80-96 | the same value for one to four bytes, within 32 bits |
| BitString.ToUint64 | common/utils/asn1_conversions.h:103-119 | with the byte shifted as an int, the result is the value if and only if the value is below 2^31 |
| BitString.ToUint64Wide | common/utils/asn1_conversions.h:98-119 | with the byte widened first, the result is the value for one to eight bytes |
| BitString.ValueBack | common/utils/asn1_conversions.h:38-42 | every number stored left-aligned in n bytes reads back |
| BitString.CellIdentity | emage_tech_oai/emoai_rrc_measurements.c:438-441 | the hand-written 28-bit decoding is an instance |
| BitString.FeatureGroups | emage_tech_oai/emoai_common.c:298-310 | the feature group indicators are the value of the first four bytes |
| TestScheduler.PollSound | cmake_targets/autotests/run_exec_lte-softmodem_tests.py:492-501 | polling keeps every thread that is still alive after the last check and invents none |
| TestScheduler.FreeExact | cmake_targets/autotests/run_exec_lte-softmodem_tests.py:508-511 | with distinct names the free machines are those of the list that are not busy |
| TestScheduler.HandleSafe | cmake_targets/autotests/run_exec_lte-softmodem_tests.py:478-520 | starting a test, under any interleaving of thread ends, keeps live threads tracked and on different machines |
| TestScheduler.WaitAlone | cmake_targets/autotests/run_exec_lte-softmodem_tests.py:533-548 | the wait leaves no thread alive or ends the process |
| TestProgress.PollExactly | cmake_targets/autotests/run_exec_lte-softmodem_tests.py:492-501 | polling keeps exactly the threads alive when they are checked |
| TestProgress.RoundExactly | cmake_targets/autotests/run_exec_lte-softmodem_tests.py:490-520 | in a round the test starts on the first machine of the list without a thread seen alive; if there is none, only ends of threads are new |
| TestProgress.StartsExactly | cmake_targets/autotests/run_exec_lte-softmodem_tests.py:478-520 | a test is started if and only if in some round a machine is not in use; otherwise nothing was started |
| TestProgress.WaitExactly | cmake_targets/autotests/run_exec_lte-softmodem_tests.py:533-548 | the wait ends the process if and only if some thread is still alive when it is joined |
| TestScheduler.SoftmodemAlone | cmake_targets/autotests/run_exec_lte-softmodem_tests.py:1526-1566 | in every run no generic thread is alive when a softmodem test starts |
| TestScheduler.NeverShare | cmake_targets/autotests/run_exec_lte-softmodem_tests.py:478-548 | in all runs no two live threads share a machine, if and only if the list names no machine twice |
| TestScheduler.FreeMachines | cmake_targets/autotests/run_exec_lte-softmodem_tests.py:508-511 | the removal loop equals its specification |
| TestScheduler.Scheduler.PollThreads | cmake_targets/autotests/run_exec_lte-softmodem_tests.py:492-501 | the polling loop equals its specification |
| TestScheduler.Scheduler.HandleGeneric | cmake_targets/autotests/run_exec_lte-softmodem_tests.py:478-520 | the search for a free machine, round by round, equals its specification |
| TestScheduler.Scheduler.WaitGeneric | cmake_targets/autotests/run_exec_lte-softmodem_tests.py:533-548 | the waiting loop equals its specification |

## Left out

- Signal processing and hardware: results of decoding and detection are inputs of the model.
- Requests for a UE that is not connected: the code tests an unsigned UE index for being negative (emage_tech_oai/emoai_rrc_measurements.c:1196-1200), so what follows depends on code outside this model; a request here is for a connected UE.
- Message filling and replies to the controller, measurement gap and quantity configuration: copied field by field.
- Memory management of requests and triggers, including shared pointers after memcpy and tree iteration while freeing: records are values.
- The trigger tree of emage_tech_oai/emoai_config.c: it is searched by transaction id although it is meant to be searched by RNTI.
- MeasReplica.ReplicaAgreement: assumes that each message reaches its UE before the next is sent and that encoding succeeds.
- AsnCodec.OptionalListBreaks: that the library rejects an unencoded list struct is assumed, since its code is not part of this model.
- AsnCodec.RoundTrip: the ASN.1 library is taken to invert itself on a value of the right type; payloads are integers.
- The naming rules of the code generator (lowerFirstCamelWord and the regular expressions) and its file output.
- DlHarq.ConservationRuns: a run starts at the reset of the statistics, which the code repeats when Msg3 is decoded and when a UE is removed; neither happens inside a run.
- UlSlot.KeptRuns: FDD without relays and one slot at a time; CBA rounds and uplink statistics per round are not part of the slot.
- Msg3 timing in TDD: get_Msg3_harq_pid never sets the frame there and disagrees with get_Msg3_alloc.
- BitString.ToUint64: sizes for which a shift count reaches 32 are excluded, because C leaves them undefined.
- Pucch.NeverCollide: in TDD, elements beyond N_3 and bandwidths without a table are excluded; FirstCollision shows the first one that collides.
- UeTable.RefinementRuns: one carrier; the CBA lookup of find_ue, compiled in only with CBA, is not modelled.
- TestScheduler.NeverShare: no exception is raised while a test is dispatched.
- DlAccounting.AccountingRuns: FDD only; TDD reuses a process before its feedback (ReuseAfterAck), so only ConservationRuns and FeedbackExactly cover it.
- UlBlocks.Inherited: for a UE removed in the step after its block and replaced in the next one; an answer left longer is not followed.
- MeasAsked.WishRuns: a request without a report type is excluded, because the UE is not told of it (NoReportType).
- MeasAccept.AcceptedExactly: for triggers that agree on frequencies and objects, which CarrierRuns keeps; otherwise the first one in the tree decides.
- The slot that PRACH detection notes before a UE is added (find_next_ue_index): it would only add an easy member.
- Floating-point frequencies: integers in units of 0.1 MHz.
- Cba.CbaPass: one number of active groups for all UEs; decoding and collision detection are inputs.
- Power control, localization, SSE emulation, DCI test patterns and header declarations: they would only add one-branch members.
