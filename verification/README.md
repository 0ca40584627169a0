# Traffic panel: model and proofs

A Dafny model of a forwarding panel written in Go. The panel accepts TCP and UDP clients on numbered ports, lets only
SOCKS5, WireGuard and OpenVPN through, forwards them (straight, or through a realm process on internal ports), limits
and bills the traffic of each user, and keeps users, groups and forwarding rules in one database. `dafny verify
dfyconfig.toml` checks everything.

## What is proved

- **Billing** (`billing*.dfy`, `quota.dfy`, `groupquota.dfy`, `totals.dfy`, `frames.dfy`). One step is one atomic `Add`,
  `Swap` or `Store`, one access to the connection table, or one `AddTraffic`; threads interleave freely. In every run
  each byte added to a connection's counters is pending, swapped out, settled or discarded, and exactly one of these;
  the totals and the day totals hold what was settled; a connection that is killed, or has left the table, counts at
  most one more read in each direction; a flush kills every snapshot connection of every user who is over quota, and
  such a user stays out until one of a few steps, which are given exactly. A reset discards only its own user's bytes, a
  kill hits only users found over quota, and resets, settlements and flushes miss no connection that is in the table.
- **Bandwidth** (`bucket.dfy`). What one bucket lets through for k callers at most and at least, where every token goes,
  and runs of ordinary reads that attain the upper bound.
- **Registry** (`registry.dfy`, `api.dfy`, `answers.dfy`, `scope.dfy`, `sound.dfy`, `rulelife.dfy`, `startup.dfy`). `Api.App` runs
  the handlers the way api.go does, writing field by field; `Registry.Handle` says what each does to the database. Every
  request, also one refused half way, keeps one large invariant; where a request can break a property, the exact
  condition is given. What each request may touch is stated too: a user's own requests nothing of anybody else's.
- **Internal ports and realm configuration** (`decimal.dfy`, `realm.dfy`, `realmruns.dfy`, `realmserving.dfy`). The port
  map stays injective and inside its pool, and over whole runs what the data plane dials is what exactly one endpoint of
  the configuration last written listens on.
- **Listeners** (`listeners.dfy`). What a reload opens, keeps and closes, and when a listener serves the wrong rule.
- **UDP sessions** (`udptable.dfy`). The session tables against the connection table, under all interleavings.
- **Loops and lists** (`pbkdf2.dfy`, `stream.dfy`, `detect.dfy`, `listing.dfy`, `paging.dfy`, `records.dfy`).

## Where the code is not what its documentation says, or not what one would expect

- README.md:22 and relay.go:235 say a group shares one token bucket. The bucket is filed by user (relay.go:239), so
  every user of a group has a full bucket of its own. A reload also forgets all buckets (relay.go:181): connections
  opened before and after it then run on different ones.
- A short bucket is set to zero and the caller sleeps, but the time slept is credited again at the next call. With k
  callers the bound is therefore (k+1) times the rate, and one caller alone can sustain twice the rate, with reads no
  longer than the copy buffer (`TokenBuckets.EveryBandwidthIsExceeded`).
- README.md:23 speaks of a quota for the group's traffic. The code compares each user's own total with the group's quota
  (relay.go:284, relay.go:565), so a group is served beyond its quota (`GroupQuota.GroupOverQuotaIsServed`).
  While totals are nested the code never cuts off too early, and `GroupQuota.TestsAgree` says exactly when the two tests
  agree. But a user's total moves along to another group, so a user moved into a group that is still below its quota can
  be cut off at once: exactly when the user alone has reached that quota (`GroupQuota.MovedIntoQuota`,
  `GroupQuota.CutOffTooEarly`).
- An administrator's edit that is refused after the number was written leaves the new number in the database without a
  reload (api.go:697-719). The listener on the old number stays and keeps serving the edited rule, also after another
  rule is put on that number (`Listeners.StrandedNumberServesTheOldRule`); a reload before that would close it.
- An administrator may move a rule to a number outside its owner's ranges (api.go:697-703), or take ranges away under
  existing rules (api.go:440). `RuleLife.EditRuleKeepsRanges` and `RuleLife.EditUserKeepsRanges` say exactly when, and
  `RuleLife.EditsCanLeaveRulesOutside` gives both inputs. Moves can break the nesting of totals in the same way
  (`Totals.EditsCanBreakTheNesting`), and so can a settlement after a move, by a connection opened before it
  (`Totals.SettlementsCanBreakTheNesting`); `BillingLedger.StepKeepsNesting` says exactly which steps do.
- Without an active rule the configuration run returns before pruning (realm.go:115-117), so old internal ports stay.
- The result of replaying the sniffed bytes is not looked at (relay.go:363-365). `Streams.ReplayMustBeWhole` says for
  which connections the target may then hold something else than the client sent, and `Streams.ShortReplay` is one.
- For UDP bytes may be counted after their flow was unregistered and settled (`BillingLimits.UdpMayLeaveBytesBehind`),
  at most one read in each direction (`BillingLedger.UnregisteredCountsOneMoreRead`). `BillingLimits.SwapIsLast` says
  exactly when a swap is the last to find any.
- detect.go:16-17 gives fixed WireGuard lengths 64, 92 and 148; the code accepts every length from 64 to 148.

## Model

| member | source | states |
|---|---|---|
| BillingLedger.BytesAreConserved | relay.go:325-334 | in every interleaving of copy loops, flush, unregister and resets, a connection's added bytes are its pending bytes plus those swapped out, settled and discarded; two unregistrations of one connection bill nothing twice |
| BillingLedger.TcpLeavesNothingPending | relay.go:368-380 | once a TCP handler has ended and no thread holds the connection's bytes, both counters are zero and everything added was settled or discarded |
| BillingLedger.DaysHoldEverythingSettled | storage.go:455-467 | the day totals sum to what they were at the start plus everything settled since, through all resets and deletions |
| BillingLedger.DaysHoldTheirSettlements | storage.go:455-467 | each single day holds what it held at the start plus everything settled while it was that day |
| BillingLedger.TotalsMatchSettlements | storage.go:468-485 | the total of each existing rule, user and group is what its connections settled, less exactly what resets took from it |
| BillingLedger.TotalsStayNested | storage.go:455-574 | in every interleaving in which no rule changes owner and no user changes group, a user's rules sum to at most the user's total and a group's users to at most the group's |
| BillingLedger.StepKeepsNesting | relay.go:325-334 | every single step keeps the totals nested if and only if it is not an edit that moves more bytes than fit, nor a settlement of bytes that do not fit where the rule or user is by now |
| BillingLedger.NestedUntilBroken | storage.go:455-574 | so over any interleaving, with moves, the totals are nested until one of these steps |
| BillingLedger.WithoutMovesNothingBreaks | storage.go:455-574 | an interleaving without moves has no such step |
| BillingLedger.KilledCountsOneMoreRead | relay.go:386-402 | after the kill each direction counts at most one more read, 32 KiB for TCP and 64 KiB for UDP |
| BillingLedger.KilledStaysKilled | relay.go:569-575 | no step of any run clears a killed flag |
| BillingLedger.UnregisteredCountsOneMoreRead | relay.go:430-520 | after it left the connection table a UDP flow counts at most one more read of 64 KiB in each direction, whichever of the four paths unregistered it, and a TCP connection none |
| BillingLedger.FlushCutsOff | relay.go:562-576 | while a flush goes through the users, every snapshot connection of a user it has already found over quota is killed |
| BillingLedger.StepKeepsBooks | relay.go:542-561 | every single step keeps the ledger: totals plus what resets took equal settlements, and days sum up |
| BillingSafety.StepKeepsThreads | relay.go:384-410 | every single step keeps what the threads rely on: missing bytes are in flight, queues and snapshots stay valid, an emptied counter of a finished direction stays empty |
| BillingLimits.EmptyForGood | relay.go:384-410 | at any moment of any run, for TCP and UDP and either direction: a counter stays empty whatever happens if and only if it is empty and its copy loop is finished: it has returned; or its next look turns it away, because of a kill or, for UDP uploads, because the flow is in no table, and it is not past that look with bytes; or its socket is closed and no bytes are in hand |
| BillingLimits.SwapIsLast | relay.go:325-334 | at the moment unregister or flush swaps a counter, nothing ever shows in it again if and only if its loop is finished in that sense; when unregister swaps, if and only if no read is in hand, which for TCP is always so |
| BillingLimits.DryFlowLeavesNothing | relay.go:325-334 | from the moment both counters of a connection are dry, whenever no thread holds its bytes, everything it ever counted was settled or discarded |
| BillingLimits.UdpMayLeaveBytesBehind | relay.go:523-539 | a run in which the reading loop counts an answer after the closing listener had its flow removed and settled |
| BillingReach.DiscardsAreTheOwners | relay.go:117-127 | over every trace, whenever bytes of a connection are discarded, a reset of the connection's own user is under way, and the connection was in the table when that reset took the lock |
| BillingReach.NoResetNoDiscard | relay.go:117-127 | so nothing is ever discarded from connections of a user who is never reset |
| BillingReach.ResetTakesWhatWasPending | relay.go:117-127 | when a reset releases the table, all that a connection of its user, in the table when the reset took it, has pending in either direction was counted since then |
| BillingReach.SettlementTakesWhatWasPending | relay.go:543-556 | the same for a flush and every connection in the table at its snapshot, and for an unregister and its connection; the thread holds none of the bytes back |
| BillingReach.KilledWasOverQuota | relay.go:562-576 | over every trace, a connection is killed only if a flush found its own user over quota, or gone from the database |
| BillingReach.FlushReachesEveryConnection | relay.go:543-576 | over a whole flush, every connection in the table at the snapshot, of a user over quota when the flush turns to the users and not relieved meanwhile, is killed at its end |
| Quota.SameQuotaTest | relay.go:271-287 | among rules that pass the other checks, new traffic is refused for quota exactly for the users a flush would cut off; traffic is allowed exactly if all checks pass |
| Quota.FlushKillsWhomItFindsOver | relay.go:562-576 | a flush that looks at a user over quota has killed all that user's snapshot connections when it moves on, and they stay killed |
| Quota.FlushReachesEveryUser | relay.go:562-576 | whoever is over quota when a flush turns to the users, and is not relieved meanwhile, has every snapshot connection killed when it ends |
| Quota.RequestKeepsCutOff | relay.go:284-286 | a request lifts a user's cut-off if and only if it resets the user or its group, removes the user, moves it to a group whose quota it has not reached, or sets a quota of its group that it has not reached |
| Quota.StepKeepsCutOff | relay.go:284-286 | of all steps of all threads exactly these requests, and the store part of a reset of that user, lift it |
| Quota.CutOffLasts | relay.go:284-286 | over any run, a user over quota stays so and none of its rules admits new traffic until one of those steps |
| GroupQuota.NeverCutOffEarly | relay.go:284-286 | while totals are nested, a user the code cuts off belongs to a group that has reached the documented quota |
| GroupQuota.TestsAgree | relay.go:562-568 | while totals are nested, the code's test and the documented one agree if and only if there is no quota, or the group is below it, or this user alone has reached it |
| GroupQuota.GroupOverQuotaIsServed | relay.go:271-287 | they can differ: two users of a group over its quota are both let through |
| GroupQuota.MovedIntoQuota | api.go:424-430 | from nested totals, an edit leaves the user cut off in a group below its quota if and only if it moves the user to a group whose total is below a quota that the user alone has reached |
| GroupQuota.CutOffTooEarly | api.go:424-430 | such a move: accepted, on a sound and nested database, and new traffic is then refused for quota |
| GroupQuota.CutOffMeansGroupOverQuota | relay.go:562-576 | over any interleaving in which no step breaks the nesting, so also without moves, whoever is cut off belongs to a group over the documented quota |
| Totals.SettleIsNested | storage.go:455-486 | one settlement on linked rule, user and group keeps the totals nested |
| Totals.SettleKeepsNesting | storage.go:455-486 | one settlement keeps the totals nested if and only if its bytes fit: into the total of the present owner, if the rule has another one by now, and of the present group, if the user is in another one |
| Totals.RequestIsNested | api.go:317-753 | every request that moves no rule and no user keeps the totals nested, refused ones included |
| Totals.EditRuleKeepsNesting | api.go:697-715 | an administrator's edit keeps the nesting if and only if its number and owner checks hand the rule to nobody, or the rule's bytes fit into the new owner's total |
| Totals.EditUserKeepsNesting | api.go:406-430 | an edit keeps the nesting if and only if its checks move the user to no other group, or the user's bytes fit into that group's total |
| Totals.RequestKeepsNesting | api.go:317-753 | of all requests, exactly the edits that hand over bytes which do not fit break the nesting |
| Totals.EditsCanBreakTheNesting | api.go:424-430 | both edits do break it on a concrete database |
| Totals.SettlementsCanBreakTheNesting | api.go:705-715 | a handover that keeps the nesting, followed by a one-byte settlement of an older connection that breaks it |
| Frames.RequestFrame | storage.go:191-194 | after any request but a reset of totals, each rule, user and group either has the id and total of one that was there before (and its owner or group, unless moved), or has an id above the old counter and total 0: ids are never reused and no byte appears or vanishes |
| TokenBuckets.TokenBucket.constructor | relay.go:21-31 | a new bucket holds one second's worth and at most one and a half |
| TokenBuckets.TokenBucket.Wait | relay.go:34-58 | the new fields, that tokens stay between 0 and the capacity, and that the sleep is as long as the missing tokens take to earn, cut to whole nanoseconds, and 0 if none is missing |
| TokenBuckets.CallIsPaid | relay.go:39-57 | what a call lets through plus the tokens it leaves is paid by the tokens found, the time of its sleep, and less than one nanosecond's worth |
| TokenBuckets.BytesSinceCreation | relay.go:34-58 | k callers get at most rate + (k+1) rate T bytes by time T, plus one nanosecond's worth per call |
| TokenBuckets.BytesInWindow | relay.go:34-58 | in any window, calls inside it get at most cap + (k+1) rate length, with the same slack |
| TokenBuckets.TokensAreConserved | relay.go:34-58 | in any run in which callers return when their sleep is over, the bytes let through are the tokens at the start, those earned and those earned again in the sleeps, less those left and those lost to the capacity, up to one nanosecond's worth per call |
| TokenBuckets.BackloggedGetsTheRate | relay.go:34-58 | a caller that is inside calls during a whole window, and returns when its sleep is over, gets at least the rate over that window, whoever else shares the bucket |
| TokenBuckets.BoundIsAttained | relay.go:50-57 | for every number of callers, and for reads of any size that divides the rate evenly into a number of reads a second that divides 10^9, a run of such reads reaches the bound exactly |
| TokenBuckets.EveryBandwidthIsExceeded | relay.go:384-395 | at every bandwidth up to 32768 Mbit/s, k callers with reads no longer than the TCP copy buffer sustain (k+1) times the rate after the first second's worth |
| Stores.Store.NextID | storage.go:191-194 | the counter grows by one and its new value is the id |
| Stores.Store.AddTraffic | storage.go:455-486 | day, rule, user and group each gain the bytes, the first match only, and nothing happens for zero or fewer |
| Stores.Store.ResetUserTraffic | storage.go:531-551 | the user and exactly its rules drop to zero, or nothing changes when there is no such user |
| Stores.Store.ResetGroupTraffic | storage.go:554-574 | the group, its users and exactly their rules drop to zero |
| Startup.SyncIds | storage.go:222-239 | the counter becomes the least number that is at least the stored one and covers every id in use, and the loaded database is sound exactly if some counter could make it so |
| Startup.CoverIsEnough | storage.go:222-239 | a counter that covers every id makes a database sound if any counter does: a stale stored counter does no harm |
| Startup.Seed | storage.go:160-189 | a missing default group and a missing administrator are created, in this order |
| Startup.SeededIsStarted | storage.go:160-189 | an empty database is sound once seeded, with an administrator in the default group |
| Soundness.RequestIsSound | api.go:209-1118 | every request, refused at any check, keeps ids unique and at most the counter, names unique, numbers unique and in 1..65535, ranges well formed and pairwise disjoint, groups and owners existing, and every rule with a protocol and a valid setting |
| Soundness.RunIsSound | api.go:209-1118 | the same over any run |
| Answers.RangesFitMeaning | api.go:149-171 | a list of ranges is accepted exactly when it is well formed and none of its ports is in it twice or in another user's ranges |
| Answers.RefusedChangesNothing | api.go:209-1118 | a refused request changes nothing, except the two administrator edits |
| Answers.EditUserAccepted | api.go:391-443 | an edit of a user is accepted exactly when every check passes, and then the user is as asked, blanks meaning no change |
| Answers.EditUserRefused | api.go:408-434 | a refused one leaves at most a new name, password and group, each checked, and a later one only after the earlier ones |
| Answers.EditRuleAccepted | api.go:683-735 | an administrator's edit of a rule is accepted exactly when every check passes, and then the rule is as asked |
| Answers.EditRuleRefused | api.go:697-727 | a refused one leaves at most a new free number and a new owner whose ranges hold the rule's number |
| Answers.GoneRulesHoldNoPort | api.go:469-471 | whichever request removes a rule also releases its internal port |
| Answers.SharedPort | api.go:144-146 | the overlap test holds exactly if some port lies in both ranges |
| Scope.RulesAreScoped | api.go:209-1118 | every request, refused ones included, changes or removes no rule but those it is about, changes them only as it says, and adds no rule but those it posts |
| Scope.RemovedRulesAreGone | api.go:444-1118 | an accepted removal leaves none of the rules it names |
| Scope.ResetsClear | storage.go:531-574 | an accepted reset leaves no byte on the rules, users and groups it is about |
| Scope.UsersAreScoped | api.go:209-509 | no account but the one the request is about is changed or removed, and none is added but the one it describes; a deleted one is gone; whoever registers is a member of the default group without ranges |
| Scope.PasswordIsSet | api.go:493-509 | an accepted new password is set on that account and changes nothing else of it |
| Scope.GroupsAreScoped | api.go:515-603 | the same for groups, with the fields they end up with; a deleted one is gone |
| Scope.SettingsAreScoped | api.go:209-1118 | settings change only by their own request, and day totals by none |
| Scope.SettingsAreAsked | api.go:822-845 | accepted settings are stored as asked, a record limit out of 100..20000 becoming 3000 |
| Scope.RequestAccepted | api.go:209-1118 | each of the nineteen requests is accepted if and only if what it needs is in the tables, said without the lookups: free names and numbers, existing users, groups and rules, a range that holds the number, the caller as owner |
| Scope.OwnRequestsStayOwn | api.go:911-1118 | a request a user makes for itself leaves every rule of every other user, and its internal port, as it was; every rule added, changed or removed is the caller's; nothing else in the database changes |
| Scope.OwnRequestAccepted | api.go:1034-1118 | editing and deleting own rules is accepted if and only if the caller exists, every rule named is there and the caller's, and the rest of the request is in order |
| Scope.RunsLeaveOthersRules | api.go:911-1118 | over any run of registrations and own requests of other users, a user's rules are exactly what they were, and so are their internal ports |
| Scope.RunsMakeOnlyMembers | api.go:209-258 | over any run without an administrator's request the accounts that were there stay as they are, and new ones are members of the default group without ranges |
| Api.App.Serve | api.go:1180-1316 | the running handlers and their specification agree on the new database and the answer, for every request |
| Api.App.PortNumIsValid | api.go:134-142 | in 1..65535 and not used by any rule |
| Api.App.ValidateUserRanges | api.go:149-171 | accepts exactly the range lists that are well formed, free of overlap among themselves and with every other user |
| Api.App.Register | api.go:209-258 | a member of the default group with no ranges, or no change |
| Api.App.CreateUser | api.go:321-378 | the checks in order, then one new user |
| Api.App.EditUser | api.go:391-443 | each field is written as soon as its own check passes, also when a later one refuses |
| Api.App.DeleteUser | api.go:444-475 | removes the user, exactly its rules, and their internal ports |
| Api.App.SetPassword | api.go:493-509 | one user's password, if it is long enough |
| Api.App.CreateGroup | api.go:515-539 | one new group |
| Api.App.EditGroup | api.go:551-570 | the group's fields; an empty name keeps the old one |
| Api.App.DeleteGroup | api.go:571-592 | refused while any user is in the group |
| Api.App.ResetGroup | api.go:594-603 | refused for an unknown group, else all its totals are cleared |
| Api.App.EditSettings | api.go:822-845 | refused for an unknown mode or group; a record limit out of bounds becomes 3000 |
| Api.App.CreateRule | api.go:615-670 | the checks in order, then one rule for the named user |
| Api.App.EditRule | api.go:683-735 | number and owner are written before the later checks; the owner's ranges are tested with the number already written |
| Api.App.DeleteRule | api.go:736-749 | removes the rule and its internal port |
| Api.App.AddOwnRule | api.go:916-965 | the checks in order, then one rule, always enabled |
| Api.App.AddOwnRules | api.go:971-1032 | nothing is written unless every line passes, against the rules there are and the lines above it |
| Api.App.DeleteOwnRules | api.go:1034-1060 | nothing is removed unless the user owns every rule named; duplicates do no harm |
| Api.App.EditOwnRule | api.go:1062-1100 | never touches number or owner, and a refused edit changes nothing |
| Api.App.DeleteOwnRule | api.go:1101-1114 | only the owner's own rule, with its internal port |
| RuleLife.BatchIsSingles | api.go:971-1032 | a batch of 1 to 200 lines is accepted exactly if posting them one by one would accept each; it leaves the same rules and ids apart from the enabled flag, and a refused batch changes nothing |
| RuleLife.RequestKeepsRanges | api.go:916-1118 | every request except the two administrator edits keeps all rules inside their owners' ranges |
| RuleLife.EditUserKeepsRanges | api.go:391-443 | an edit of a user keeps that if and only if one of its checks refuses, or the new ranges still hold the numbers of the user's rules |
| RuleLife.EditRuleKeepsRanges | api.go:697-715 | an administrator's edit of a rule keeps that if and only if no new number is written, or the rule is handed to an owner that was checked, or the number lies in the old owner's ranges |
| RuleLife.EditsCanLeaveRulesOutside | api.go:431-440 | both edits do break it on a concrete database |
| RuleLife.RequestHandsNothingOver | api.go:134-142 | no single request passes a number from one rule to another |
| RuleLife.SuggestPorts | api.go:892-906 | for each range in turn, its free numbers by the user's own rules, at most 50 |
| RuleLife.LowestFree | api.go:899-905 | a range's suggestions are its lowest free numbers in increasing order, and one is missing only when 50 were found below it |
| RuleLife.EveryRangeIsSuggested | api.go:892-906 | the list is one block per range, in the order of the ranges, each holding that range's lowest free numbers |
| RuleLife.SuggestionIsAccepted | api.go:929-936 | a suggested number passes both creation checks if and only if no other user's rule has it |
| RuleLife.SuggestionsWork | api.go:892-936 | while rules stay in their owners' ranges, no user has a suggested number and it passes both checks |
| RuleLife.RunKeepsSuggestions | api.go:892-936 | so over any run without the two administrator edits |
| Listing.SortedIsOrdered | storage.go:349-356 | the list is in order of number and a permutation of the rules |
| Listing.SortedIsTheOnlyOrder | storage.go:349-356 | since numbers differ, every ordered permutation is this list: how the sort breaks ties does not matter |
| Listing.PortsOfUserMeaning | storage.go:370-381 | exactly the user's rules, in order of number |
| Decimal.ParseKey | storage.go:611-619 | the number a key stands for; 0 for a key with any other character |
| Decimal.PrintThenParse | storage.go:577-594 | printing an id and parsing the key gives the id back |
| Decimal.PrintIsInjective | storage.go:577-594 | two rules never share a key |
| Realm.RealmManager.UsedInternalPorts | storage.go:597-605 | exactly the values of the map |
| Realm.RealmManager.InternalPort | realm.go:48-60 | the port a rule has, else the lowest free one of the pool, else none; the map gains exactly that entry |
| Realm.RealmManager.PruneRealmPorts | storage.go:608-624 | removes exactly the entries whose key is a positive number that is not kept |
| Realm.RealmManager.GenConfig | realm.go:68-99 | the endpoints in order of rule numbers, skipping inactive rules and those without a port, and pruning only afterwards |
| Realm.RealmManager.Apply | realm.go:102-123 | the new map and endpoints; without an active rule neither changes |
| Realm.RealmManager.DialAddr | realm.go:197-206 | the target in direct mode, else the internal port, allocated if need be |
| Realm.PoolHoldsTenThousand | realm.go:53-59 | an injective map into the pool has at most 10000 entries, and a port is found exactly while it has fewer |
| Realm.AssignKeepsPorts | realm.go:48-60 | an allocation keeps the map injective and in the pool, changes no entry and adds the rule exactly if a port was found |
| Realm.ApplyKeepsPorts | realm.go:68-123 | a configuration run keeps the map injective and inside 20000..29999 |
| Realm.ActiveRulesKeepTheirPort | realm.go:68-99 | an active rule that had a port keeps it through a configuration run |
| Realm.AppliedMapIsTheActiveRules | realm.go:68-123 | the map is exactly the active rules afterwards if and only if old entries and active rules number at most 10000, or, without an active rule, if and only if it was empty |
| Realm.ListensDiffer | realm.go:86-87 | no two endpoints listen on the same port |
| Realm.AppliedPortIsServed | realm.go:68-99 | under that capacity, each active rule has a port after a configuration run, and exactly one endpoint listens there: it passes on to the rule's target, TCP if and only if the rule has TCP and UDP if and only if it has UDP |
| Realm.EndpointsAreActiveRules | realm.go:68-99 | no other endpoint is written: each has the name and port of an active rule and serves it |
| Realm.DialledPortIsServed | realm.go:197-206 | so the port dialled for an active rule is the listen port of exactly one endpoint, which serves the rule in that sense, and dialling allocates nothing |
| RealmRuns.RequestKeepsPort | api.go:469-471 | no request takes the port of a rule that is there afterwards |
| RealmRuns.PortsStayOk | realm.go:48-99 | over any run of requests, configuration runs and dials the map stays injective and in the pool |
| RealmRuns.PortNeverChanges | realm.go:48-99 | over any run in which a rule stays active its port never changes |
| RealmRuns.EveryActiveRuleIsServed | api.go:174-179 | after any run of requests, configuration runs and dials, a configuration run leaves every active rule reachable through exactly one endpoint, under the capacity condition |
| RealmServing.NoRunNoChange | api.go:174-179 | a request that is refused, or not followed by a configuration run, changes nothing an endpoint depends on |
| RealmServing.ActiveRulesStayServed | realm.go:68-123 | over any run in which old entries and active rules fit into the pool whenever a configuration is written, the configuration last written serves every active rule, to its target and over exactly its protocols: also after dials for other rules, refused edits and requests that do not write it anew |
| RealmServing.DialsReachTheTarget | realm.go:197-206 | so at any moment of such a run dialling an active rule allocates nothing and reaches its target, straight in direct mode and else through that endpoint |
| Listeners.Relay.Reload | relay.go:177-223 | the exact listeners afterwards, for any order of ranging over the maps and any refused binds; all buckets are forgotten |
| Listeners.Relay.Bucket | relay.go:236-245 | the user's bucket, made on first use; no two users ever share one, whatever their group; none at bandwidth 0 or less |
| Listeners.BandwidthIsMegabits | relay.go:236-245 | the bandwidth is megabits a second: through a new bucket k callers get at most that many megabits, and (k+1) times as many for each second, and one second's worth passes without sleep |
| Listeners.OnlyActiveNumbersStay | relay.go:191-202 | afterwards every open number is an active rule's, and a listener that was open is the same one |
| Listeners.ActiveRulesAreHeard | relay.go:204-222 | an active rule has a TCP or UDP listener exactly if one was open, or its bind went through; a refused TCP bind also costs the UDP one; switching one protocol off closes nothing |
| Listeners.SecondReload | relay.go:177-223 | reloading again closes nothing, and changes nothing if the same binds are refused |
| Listeners.StepKeepsCaptured | relay.go:204-222 | a request keeps every listener with the rule that has its number, if and only if it is not an edit that moves a heard rule to a free number and fails a later check |
| Listeners.ListenersServeTheirRules | relay.go:177-223 | so over any run of requests and reloads (at start or asked for) without such an edit, whatever binds are refused |
| Listeners.RefreshCaptures | relay.go:109-115 | a reload leaves every listener with the rule that has its number if and only if no number of an active rule is held open for another rule |
| Listeners.AStrandedListener | api.go:697-719 | such an edit exists |
| Listeners.StrandedNumberServesTheOldRule | api.go:697-719 | after it, a rule put on the abandoned number, by an administrator's post or edit or by a user's own post or batch, gets no listener for any protocol on which the old rule's is open: that one stays there |
| Listeners.ReloadHealsStranding | api.go:851-854 | a reload before that heals it |
| UdpTable.StepKeepsInv | relay.go:423-520 | every step of receive loop, cleaner, kill and close keeps flows, sessions and threads in agreement |
| UdpTable.SessionsAreTheRegisteredFlows | relay.go:423-520 | in a live table with no thread between registering and inserting or between unregistering and deleting, the sessions are exactly the registered flows |
| UdpTable.PassedMeansRegistered | relay.go:499-507 | a packet is passed on only while its flow is registered and not killed |
| UdpTable.OneFlowPerClient | relay.go:458-497 | at every moment a client address has at most one registered flow in a table |
| UdpTable.DeadTablesLeakNothing | relay.go:447-456 | when a listener has closed, none of its flows is left registered |
| UdpTable.SessionsAreNotShared | relay.go:486-497 | no two clients or listeners share a session's connection |
| Streams.Sniff | relay.go:249-268 | returns the bytes read so far, at most 295, after exactly the reads up to 148 bytes or to a read that brings only an error, and detects on all of them |
| Streams.Pump | relay.go:384-410 | the loop's exact outcome for any reads, kills and writes, with what PumpKeeps says of it |
| Streams.PumpKeeps | relay.go:384-410 | a closed form of where the loop stops: it gets through the greatest number of reads such that no look before found the flag set, no earlier read failed and every write took all; only a write that takes less adds part of the next read; so at a look k that finds the flag set at most k/2 reads were counted, and with no kill and no failing write everything up to the first read error passes |
| Streams.HandleTcp | relay.go:337-380 | what the target and the client hold is fixed by the reads and writes; while writes succeed each holds a prefix of what the other sent; the upload excludes the sniffed bytes; nothing is dialled without an allowed verdict |
| Streams.AdmitPacket | relay.go:457-484 | the same decision for the first packet of a UDP client |
| Streams.LetThroughMeaning | relay.go:342-362 | traffic is let through exactly when every check passes, an unknown protocol never is, and what is recorded otherwise is the first check that failed |
| Streams.ReplayMustBeWhole | relay.go:363-378 | whatever bytes the client sends in reads of given lengths, the target holds a prefix of its stream if and only if the replay was whole, or the copy loop passes nothing on: killed or failing before its first bytes, or a first write that takes none |
| Streams.ShortReplay | relay.go:363-378 | a run of the handler in which it does not |
| Detection.MoreBytesKeepTheVerdict | detect.go:23-48 | extending the buffer never takes back a SOCKS5 or OpenVPN verdict |
| Detection.WireGuardWindow | detect.go:27-32 | a WireGuard opening is never called anything else, and recognised exactly from 64 to 148 bytes |
| Detection.WireGuardKept | detect.go:27-32 | a WireGuard verdict survives more bytes if and only if they fit in 148 |
| Detection.VerdictMeaning | detect.go:23-48 | each verdict as a condition on the bytes, independent of the order of the tests |
| Pbkdf2.Derive | auth.go:20-46 | the key of section 5.2 of RFC 8018, for any keyed hash of fixed output length, with the buffers reused and XORed in place |
| Pbkdf2.Block | auth.go:30-43 | one round leaves T_i in the shared buffer |
| Pbkdf2.CeilIsDivision | auth.go:23 | the rounded-up division is the standard's number of blocks |
| Pbkdf2.ShorterKeyIsPrefix | auth.go:45 | a shorter key is a prefix of a longer one |
| Paging.Show | api.go:862-890 | every requested page gives a legal slice, never empty while there are rules, and the page asked for when it exists |
| Paging.RequestedPage | api.go:862-865 | a positive page number is asked for as given, and whatever the parameter says, page 1 or a later one |
| Paging.PagesCoverTheList | api.go:862-890 | for every page size the pages in order show every rule exactly once |
| Paging.UserSeesEveryRule | api.go:861-891 | over all pages a user sees exactly its own rules, each as often as it exists, in order of number |
| Paging.AllIsOnePage | api.go:866-868 | "all" is one page |
| Records.RecordLog.AddRecord | storage.go:428-441 | the next id, appended, and only the newest up to the limit kept |
| Records.RecordLog.Records | storage.go:444-452 | the records newest first |
| Records.RecordLog.Query | api.go:774-795 | the newest matching records in order, stopping at the limit |
| Records.LogIsRecentHistory | storage.go:428-441 | over any run, with the limit changing, the log is a suffix of the full history, numbered without gaps, and no longer than the limit at the last append |
| Records.SteadyLimitKeepsAllItCan | storage.go:428-441 | under a steady limit the log is exactly the newest records up to the limit |
| Records.QueryMeaning | api.go:774-795 | a query answers only with matching records and leaves one out only when full |
| Records.QueryIsNewestFirst | api.go:774-795 | over any run, a query answers in strictly decreasing order of id, and every matching record of the log it leaves out is older than all it answers with |

## Left out

- HTTP, JSON, cookies, sessions, pages and scripts: each handler is one atomic operation with an accept or refuse
  answer.
- Races between handlers: the check and the append are separate lock regions (api.go:629, api.go:665), as are the
  allocator's check and set (realm.go:49-55); the registry, port map and listener results hold for serialised requests
  and allocations. Billing, quota and UDP sessions are truly interleaved.
- Billing and UDP sessions as classes: they are step relations over values, since the interleaving is the subject; how a
  copy loop runs on its own is in Streams.Pump.
- Users, groups and rules are values in sequences; the pointers that handlers and accept loops hold are modelled by
  position and by id.
- The realm child process, its waiter and log; starting and stopping always succeed, and the configuration write
  succeeds.
- Sockets, deadlines and dialling: reads are arbitrary chunks or errors, binds and dials arbitrary answers; of closing,
  only that it ends a direction's reads is modelled (Billing).
- JSON files and saving, which is taken to succeed; of loading only the id counter is modelled.
- TokenBuckets.TokenBucket.Wait: rates and tokens are reals, so floating-point rounding is not modelled; the truncation
  to whole nanoseconds is, and costs the stated slack of one nanosecond's worth per call.
- TokenBuckets.BytesInWindow: says nothing about calls that only partly lie in the window.
- Billing totals are unbounded integers; 64-bit overflow is not modelled.
- A flush reads a user's total and the group's quota in one atomic step.
- Pbkdf2.Derive: any number of blocks is computed as the code does it, with the block number cut to 32 bits; the
  standard allows no more than 2^32 - 1 blocks. HMAC, SHA-256, base64 and random bytes are not part of this model.
- Password hashing in accounts: the password is stored as given, since no result depends on it.
- validTarget (api.go:114-124): its answer is a field of the request.
- Lengths of names and passwords count characters, where the code counts bytes.
- Totals of connections and daily protocol counts (IncConn, DayEvent), creation times, record fields that no filter
  reads.
- Session expiry and login, and Store.DayStat with its 90-day purge, which nothing calls.
- monitor.go, web.go and tools/echo/main.go.
