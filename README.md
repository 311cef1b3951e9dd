# EcoAgent bookkeeping core in Dafny

EcoAgent is a multi-agent sustainability assistant. Around its language-model
agents sits an in-process bookkeeping layer, and this project models that layer
and proves what it promises. The layer covers:

- user sessions with a small status machine and lazy time-to-live expiry;
- a long-term memory bank whose strength decays with age and grows with use;
- in-memory and persistent service backends for sessions and memories;
- a context window of expiring items, compacted by relevance score;
- a manager for long-running operations, which can be paused and resumed from checkpoints;
- unit conversion and carbon-footprint arithmetic;
- the trackers behind the observability, delegation and memory tools;
- the rule-based suggestion, progress and community helpers.

Each source file becomes one module:

- `Prelude` (prelude.dfy): shared values, Python text and number helpers, the decay curve, a stable sort
- `Memories` (memories.dfy): `ecoagent/sessions_and_memory.py`: `Memory`, `MemoryBank`, the memory tools
- `Sessions` (sessions.dfy): `ecoagent/sessions_and_memory.py`: `Session`, `SessionManager`, `create_session`
- `Services` (services.dfy): `ecoagent/sessions_and_memory_services.py`, with the rows of `ecoagent/database.py`
- `Context` (context.dfy): `ecoagent/context_engineering.py`
- `Operations` (operations.dfy): `ecoagent/operations.py`
- `OperationTools` (operation_tools.dfy): `ecoagent/tools/operations.py`
- `Units` (units.dfy): `ecoagent/utils/unit_conversion.py`, `src/tools/unit_converter.py`
- `Carbon` (carbon.dfy): `src/tools/carbon_calculator.py`
- `Progress` (progress.dfy): `ecoagent/progress_tracker/agent.py`
- `Delegation` (delegation.dfy): `src/tools/delegation.py`
- `Metrics` (metrics.dfy): `ecoagent/observability.py` (`MetricsCollector`, `TraceDecorator`)
- `Tracer` (tracer.dfy): `ecoagent/tools/observability.py`
- `MemoryTools` (memory_tools.dfy): `ecoagent/tools/memory.py`
- `Suggestions` (suggestions.dfy): `src/tools/agent.py`
- `Community` (community.dfy): `ecoagent/community/agent.py`

Objects whose fields the source updates in place are classes. This covers sessions,
memories, context items and every manager, bank, window, tracker and collector.
Their dictionaries and lists are `map` and `seq` fields, and each method states
the whole new state. A dictionary whose iteration order matters carries its key
order as a `seq` beside the `map`. Expressions and lookups are functions with
named results.

Inputs from outside the program become parameters:

- The clock is a `now` argument in seconds (`Time`, a real). Where the source
  stores ISO strings, the string is passed in instead.
- `uuid4` becomes a fresh-id argument that the caller guarantees is unused.
- `sha256` becomes a digest function argument.
- `str()` of a float becomes a rendering function argument.
- The SQLite database is a `Store` class, or an `OperationStore` class. It
  holds row maps in row order and append-only logs of messages, checkpoints and
  history. Every write to the session and memory store succeeds exactly when
  its `online` flag is set.

The model follows the code as written; in particular:

- Compaction keeps `max(1, int(n * (1 - r)))` items. That is the floor, not the ceiling.
- `Session.activate`, `pause` and `close` are unconditional. Only `resume` is guarded.
- A context item's TTL of 0 means "never expires" (see Findings).

## Model

| member | source | states |
|---|---|---|
| Carbon.TransportationCarbon | src/tools/carbon_calculator.py:11-35 | raises exactly when miles < 0 (checked first) or mpg <= 0, each with its message; otherwise a non-negative amount, miles/mpg x 19.6 rounded to 2 places |
| Carbon.TransportationMonotoneInMiles | src/tools/carbon_calculator.py:29-31 | driving further in the same car never emits less |
| Carbon.TransportationAntitoneInMpg | src/tools/carbon_calculator.py:29-31 | a more efficient car never emits more over the same distance |
| Carbon.ClassFactor | src/tools/carbon_calculator.py:53-58 | every listed class factor lies between 0.44 and 0.88 |
| Carbon.FlightFactor | src/tools/carbon_calculator.py:60 | the factor of the lower-cased class, with an unlisted class falling back to economy's 0.44 |
| Carbon.FlightCarbon | src/tools/carbon_calculator.py:37-66 | raises exactly when miles < 0; otherwise a non-negative amount, miles x class factor rounded to 2 places |
| Carbon.FlightClassCaseInsensitive | src/tools/carbon_calculator.py:60 | the class is matched without regard to letter case |
| Carbon.UnknownClassIsEconomy | src/tools/carbon_calculator.py:60 | an unlisted class is charged like economy |
| Carbon.ExtremeFactors | src/tools/carbon_calculator.py:54-57 | economy has factor 0.44 and first class 0.88 |
| Carbon.FlightClassBounds | src/tools/carbon_calculator.py:53-62 | over the same distance no class emits less than economy or more than first class |
| Carbon.LargerFactorEmitsMore | src/tools/carbon_calculator.py:61-62 | over the same distance a larger factor never gives a smaller rounded amount |
| Carbon.SourceFactor | src/tools/carbon_calculator.py:90-98 | every listed energy source factor is positive and at most 1.5 |
| Carbon.EnergySourceFactor | src/tools/carbon_calculator.py:100 | the factor of the lower-cased source, with an unlisted source falling back to 1.0 |
| Carbon.HomeEnergyCarbon | src/tools/carbon_calculator.py:68-107 | raises exactly when kWh < 0 (checked first) or the renewable ratio is outside [0, 1], each with its message; otherwise a non-negative amount |
| Carbon.HomeEnergyNonNegative | src/tools/carbon_calculator.py:101-103 | valid inputs never give a negative amount |
| Carbon.FullyRenewableEmitsNothing | src/tools/carbon_calculator.py:101-103 | a renewable ratio of 1 gives 0, whatever the source |
| Carbon.HomeEnergyAntitoneInRatio | src/tools/carbon_calculator.py:101-103 | a larger renewable share never emits more |
| Carbon.UnknownSourceIsGrid | src/tools/carbon_calculator.py:100 | an unlisted source is charged like the grid |
| Carbon.EntryIfNonZero | src/tools/carbon_calculator.py:125-130 | a source has a breakdown entry exactly when its amount is non-zero |
| Carbon.SumOfAppend | src/tools/carbon_calculator.py:122 | the sum of a joined breakdown is the sum of the parts |
| Carbon.CalculateTotalCarbon | src/tools/carbon_calculator.py:109-140 | the report is stamped with the clock reading and lists at most three sources |
| Carbon.BreakdownOmitsZeros | src/tools/carbon_calculator.py:124-130 | the breakdown has an entry for a source exactly when its amount is non-zero, carrying that amount, with no zero entries, no other sources and no source twice |
| Carbon.TotalIsSumOfBreakdown | src/tools/carbon_calculator.py:122-133 | the total is the rounded sum of the breakdown: dropping the zero sources loses nothing |
| Carbon.RoundTwoClose | src/tools/carbon_calculator.py:133 | rounding to two places moves a value by at most 0.005 |
| Carbon.TotalIsCloseToSum | src/tools/carbon_calculator.py:122-133 | the reported total differs from the exact sum of the three inputs by at most 0.005 |
| Carbon.ConvertUnitsWithContext | src/tools/carbon_calculator.py:142-188 | raises exactly when `convert_units` fails, with a message naming both units and the original error; on success echoes the value and units and reports the converted value rounded to 6 places |
| Carbon.CategoryOfSpelling | ecoagent/utils/unit_conversion.py:138-163 | a unit spelled as a table name has that name's category, or "unknown" |
| Carbon.ListedAs | ecoagent/utils/unit_conversion.py:138-163 | a unit spelled as a listed name has the category of that name |
| Carbon.DistanceListed | src/tools/carbon_calculator.py:163 | every unit of the distance list is a distance in the unit tables |
| Carbon.DistanceListedAt | src/tools/carbon_calculator.py:163 | each entry of the distance list, by position, is a distance in the unit tables |
| Carbon.WeightListed | src/tools/carbon_calculator.py:164 | every unit of the weight list is a weight in the unit tables |
| Carbon.WeightListedAt | src/tools/carbon_calculator.py:164 | each entry of the weight list, by position, is a weight in the unit tables |
| Carbon.EnergyListed | src/tools/carbon_calculator.py:165 | every unit of the energy list is an energy unit in the unit tables |
| Carbon.EnergyListedAt | src/tools/carbon_calculator.py:165 | each entry of the energy list, by position, is an energy unit in the unit tables |
| Carbon.VolumeListed | src/tools/carbon_calculator.py:166 | every unit of the volume list is a volume in the unit tables |
| Carbon.VolumeListedAt | src/tools/carbon_calculator.py:166 | each entry of the volume list, by position, is a volume in the unit tables |
| Carbon.SentenceAgreesWithCategories | src/tools/carbon_calculator.py:163-177 | when both units fall in one of the sentence's lists, the unit tables give both that category |
| Carbon.ListedByCategory | src/tools/carbon_calculator.py:163-166 | the list a lower-cased unit falls in agrees with its category in the unit tables |
| Carbon.AliasesRaise | src/tools/carbon_calculator.py:155-157 | this tool does not expand aliases: "mi" to "km" raises, while the unit converter tool succeeds on the same input |
| Carbon.SameUnitSucceeds | src/tools/carbon_calculator.py:157-182 | equal units (up to case) always succeed and report the value rounded to 6 places, even for an unlisted unit |
| Community.FindLocalEnvironmentalGroups | ecoagent/community/agent.py:10-42 | the three known zip codes get their fixed group lists whatever the interest; any other zip code gets exactly two groups named after it, the first "general" and the second carrying the requested interest; the list is never empty |
| Community.KnownZipIgnoresInterest | ecoagent/community/agent.py:23-39 | for a zip code with a fixed sample, the interest does not change the groups returned |
| Community.Matching | ecoagent/community/agent.py:66-69 | the filtered list holds exactly the challenges whose lower-cased name or description contains the lower-cased interest, and is no longer than the input |
| Community.ChallengesFor | ecoagent/community/agent.py:44-72 | without an interest (None or empty) every challenge; with one, exactly the matching challenges when some match, otherwise every challenge again; never empty and always drawn from the fixed list |
| Community.SuggestCommunityChallenges | ecoagent/community/agent.py:54-72 | the filtering loop returns exactly the list described by ChallengesFor |
| Community.CarbonInterestFindsCarbonChallenge | ecoagent/community/agent.py:56-69 | the interest "Carbon" finds the carbon reduction challenge, since matching ignores letter case |
| Community.ShareSuccessStory | ecoagent/community/agent.py:74-93 | the story's title is "<user> achieves <achievement>", its text starts with the user's name, it is stamped with the given time and has no likes and no comments |
| Community.TrackCommunityParticipation | ecoagent/community/agent.py:95-114 | every activity earns 10 points with a fixed 5-day streak, recorded for the given user, activity and time |
| Context.ImportanceByName | ecoagent/context_engineering.py:20-26 | a member name gives exactly its importance level, and any other name none (the KeyError) |
| Context.TypeByName | ecoagent/context_engineering.py:29-41 | a member name gives exactly its context type, and any other name none (the KeyError) |
| Context.RelevanceScore | ecoagent/context_engineering.py:72-92 | for a non-negative age the score lies above twenty points per importance level and at most 130 above it; a fresh, unaccessed item scores exactly 100 above it |
| Context.ScoreGrowsWithAccess | ecoagent/context_engineering.py:72-92 | each of the first six accesses adds exactly five points; later accesses add nothing |
| Context.ScoreAntitoneInAge | ecoagent/context_engineering.py:72-92 | an older item never scores higher |
| Context.ScoreStrictInImportance | ecoagent/context_engineering.py:72-92 | at equal age and access count, a higher importance scores at least twenty points more |
| Context.ContextItem.constructor | ecoagent/context_engineering.py:43-55 | a new item holds its given fields, with no accesses and no last access |
| Context.ContextItem.UpdateAccess | ecoagent/context_engineering.py:63-66 | one more access, stamped now; the score at any time rises by five up to the sixth access and stays flat after |
| Context.Utf8Len | ecoagent/context_engineering.py:104-112 | an encoded value takes between one and four bytes per character |
| Context.CalculateSize | ecoagent/context_engineering.py:104-112 | an empty item dict has size 0 (SizeAdditive gives the rest) |
| Context.SizeAdditive | ecoagent/context_engineering.py:104-112 | the size of a dict is the sum of its items' sizes: two runs of keys add up |
| Context.CalculateHash | ecoagent/context_engineering.py:114-121 | the hash is 16 characters long whenever the digest is |
| Context.HashDependsOnRenderingsOnly | ecoagent/context_engineering.py:114-121 | two dicts with the same keys whose values render alike hash alike, whatever their order or other fields |
| Context.SummarizeValue | ecoagent/context_engineering.py:200-213 | a summary starts with the type; a dict or list summary then gives its item count, and a plain value is its rendering cut to 100 characters |
| Context.Detail | ecoagent/context_engineering.py:200-213 | the text after the type: the item count for a dict or list, a prefix of at most 100 characters of the rendering otherwise |
| Context.SummarizeItems | ecoagent/context_engineering.py:182-198 | exactly the given keys, each mapped to its item's summary |
| Context.LiveKeys | ecoagent/context_engineering.py:158-162 | exactly the unexpired keys, in order and without repeats |
| Context.Scores | ecoagent/context_engineering.py:152-156 | a score for every item and no other key |
| Context.TargetSize | ecoagent/context_engineering.py:167-169 | the target size is at least 1 |
| Context.KeptCount | ecoagent/context_engineering.py:167-175 | slicing to the target size keeps at most the n unexpired items, and at least one when there are any |
| Context.TopOf | ecoagent/context_engineering.py:164-175 | the top c entries, or all of them when there are fewer |
| Context.TopScored | ecoagent/context_engineering.py:164-175 | the kept entries are distinct entries of the input, and each scores at least as high as every entry not kept |
| Context.TopKeysAreTop | ecoagent/context_engineering.py:164-175 | of n distinct live keys, min(n, max(1, int(n(1-r)))) distinct ones are kept, each scoring at least as high as every dropped key |
| Context.CompactionKeepsTop | ecoagent/context_engineering.py:137-180 | compaction keeps min(n, max(1, int(n(1-r)))) distinct unexpired keys of the n unexpired items, each scoring at least as high as every unexpired item dropped |
| Context.ContextCompactor.constructor | ecoagent/context_engineering.py:127-135 | the given token limit and an empty compression history |
| Context.ContextCompactor.CompactContext | ecoagent/context_engineering.py:137-180 | the result holds exactly the kept keys, each with its original item; there are KeptCount of the unexpired items; every kept item scores at least as high as every unexpired item left out; and the kept fraction of the unexpired items (1 when there are none) is appended to the history |
| Context.ExpiryFor | ecoagent/context_engineering.py:249-251 | as written: a deadline is set exactly when the TTL is given and non-zero, and it is then now plus the TTL |
| Context.ZeroTtlNeverExpires | ecoagent/context_engineering.py:249-251 | as written: a zero TTL gives the same "never expires" as no TTL |
| Context.IntendedExpiryFor | ecoagent/context_engineering.py:249-251 | corrected: any given TTL sets a deadline, now plus the TTL, so a zero TTL gives a deadline of now |
| Context.IntendedZeroTtlExpires | ecoagent/context_engineering.py:249-251 | corrected: an item with a zero TTL is expired at every later instant |
| Context.ContextWindow.constructor | ecoagent/context_engineering.py:219-229 | an empty window with no snapshots and a fresh compactor sharing its size limit |
| Context.ContextWindow.SizeIsOrderLength | ecoagent/context_engineering.py:226 | the iteration order lists every item exactly once |
| Context.ContextWindow.AddItem | ecoagent/context_engineering.py:231-261 | as written: the key maps to a new unaccessed item stamped now, replacing any earlier one in its place; a new key goes last; the deadline is ExpiryFor |
| Context.ContextWindow.AddItemIntended | ecoagent/context_engineering.py:231-261 | corrected: as AddItem, with the deadline from IntendedExpiryFor |
| Context.ContextWindow.GetItem | ecoagent/context_engineering.py:263-271 | a live hit is returned with one more access; an expired hit is deleted and nothing returned; a miss changes nothing |
| Context.ContextWindow.RemoveItem | ecoagent/context_engineering.py:273-278 | true exactly when the key was present; only that key goes |
| Context.ContextWindow.RemoveAll | ecoagent/context_engineering.py:512-513 | exactly the listed keys are removed and the order of the rest is kept |
| Context.ContextWindow.ExpiredKeys | ecoagent/context_engineering.py:282-285 | exactly the keys of the expired items, without repeats |
| Context.ContextWindow.CleanupExpired | ecoagent/context_engineering.py:280-288 | the window keeps exactly its unexpired items, unchanged and in order, and the count returned is the number of expired items, which is also how many items and order entries were dropped |
| Context.ContextWindow.CompactItems | ecoagent/context_engineering.py:305-310 | the window becomes the compacted dict: only kept keys with their original items, KeptCount of the unexpired items, each scoring at least as high as every unexpired item dropped, and one history entry more |
| Context.ContextWindow.Optimize | ecoagent/context_engineering.py:290-320 | the report gives the size before and after, the expired count and 1 - after/before (0 when empty); only unexpired original items remain, each scoring (at the call) at least as high as every unexpired item dropped; a non-empty remainder keeps at least one item, and one history entry is added exactly when anything was left to compact |
| Context.ContextWindow.CompactLive | ecoagent/context_engineering.py:305-310 | with only unexpired items, compaction keeps KeptCount of them with their original items, each scoring (at the call) at least as high as every item dropped, and adds one history entry exactly when there were items |
| Context.ContextWindow.TakeSnapshot | ecoagent/context_engineering.py:343-352 | the appended snapshot holds a copy of the items, their size and their hash, and the window is otherwise unchanged |
| Context.ContextWindow.WindowData | ecoagent/context_engineering.py:354-366 | one row per unexpired item, in the window's order, and every unexpired item has a row; each row carries its item's key, value, type value, importance name, age in seconds and access count |
| Context.ExpiredAmong | ecoagent/context_engineering.py:282-285 | exactly the expired keys of the order, without repeats when the order has none |
| Context.DeleteKeys | ecoagent/context_engineering.py:286-287 | exactly the listed keys are deleted and the order of the rest is kept |
| Context.LiveItems | ecoagent/context_engineering.py:280-288 | exactly the unexpired items, unchanged |
| Context.CleanupResult | ecoagent/context_engineering.py:280-288 | deleting the expired keys leaves the unexpired items in their order, and as many fewer keys as were expired |
| Context.LiveIsWithoutExpired | ecoagent/context_engineering.py:280-288 | dropping the expired keys from the order leaves the unexpired keys in order |
| Context.ManageError | ecoagent/context_engineering.py:456-460 | no error exactly when both upper-cased names parse; otherwise "Invalid enum value: " followed by Python's `repr` of the first upper-cased name that fails, the type first |
| Context.ManageContextItem | ecoagent/context_engineering.py:429-469 | the window is created when missing; a bad name reports the error and adds nothing; otherwise the item is added under the parsed type and importance with the report naming them, as a fresh item stamped now with no accesses and the given TTL and deadline; every other item is unchanged, and a new key goes last in the order |
| Context.PurgeTypeFilter | ecoagent/context_engineering.py:500-506 | a non-empty name filters by exactly the type its upper-casing names, and an empty or unparsable name filters nothing |
| Context.PurgeThreshold | ecoagent/context_engineering.py:494-496 | a threshold exists exactly when the hours are given and non-zero, and lies that many hours before now |
| Context.PurgeKeys | ecoagent/context_engineering.py:498-510 | exactly the items that pass the type filter and are older than the threshold, in order; none without a threshold |
| Context.CollectPurgeKeys | ecoagent/context_engineering.py:498-510 | the loop collects exactly PurgeKeys |
| Context.PurgeContext | ecoagent/context_engineering.py:472-519 | with no window, reports so; otherwise exactly the PurgeKeys items are removed, the report counts them and the remaining items, and without a threshold nothing is removed |
| Delegation.NotificationsFor | src/tools/delegation.py:46-48 | the notifications logged for one user, in logging order, are no more than the records |
| Delegation.NotificationsForUpdate | src/tools/delegation.py:65-69 | completing a record in place leaves every user's logged notifications unchanged |
| Delegation.NotificationsForAppend | src/tools/delegation.py:43-48 | logging a record adds its notification to its own user's notifications only |
| Delegation.SuffixAppend | src/tools/delegation.py:48 | appending the same notification to a pending list and to the full list keeps the pending list a suffix |
| Delegation.ByUser | src/tools/delegation.py:86 | the user filter keeps exactly that user's records and nothing else |
| Delegation.HistoryOf | src/tools/delegation.py:83-90 | the history is a suffix of the selected records: the last `limit` of them for a positive limit, all of them for a zero limit, and only records of the requested user when one is given |
| Delegation.LogKeepsConsistent | src/tools/delegation.py:31-48 | logging the next record with id equal to its index, and queueing its notification for its user, keeps ids equal to indices and each user's queue a suffix of their notifications |
| Delegation.QueueKeepsSuffix | src/tools/delegation.py:46-48 | a user's pending queue stays a suffix of their notifications when any record is logged |
| Delegation.DelegationTracker.constructor | src/tools/delegation.py:12-14 | a new tracker has no delegations and no notifications |
| Delegation.DelegationTracker.GetUserNotifications | src/tools/delegation.py:74-76 | an unknown user has no notifications, and a known user's list is a suffix of the notifications logged for them |
| Delegation.DelegationTracker.LogDelegation | src/tools/delegation.py:16-52 | appends exactly one "initiated" record whose id is its index, with no completion time or summary, and appends the notification to that user's list (created when missing); the tracker stays consistent |
| Delegation.DelegationTracker.MarkDelegationComplete | src/tools/delegation.py:54-72 | an in-range id sets that record to "completed" with the time and the summary, changes no other record and returns it; any other id returns None and changes nothing |
| Delegation.DelegationTracker.ClearUserNotifications | src/tools/delegation.py:78-81 | empties only that user's list; an unknown user gets no entry; the log is unchanged |
| Delegation.DelegationTracker.GetDelegationHistory | src/tools/delegation.py:83-90 | the tracker's history as HistoryOf describes it, drawn from its own records |
| Delegation.NotificationFor | src/tools/delegation.py:110-120 | every notification template ends with the reason followed by a full stop |
| Delegation.UnknownAgentGetsGenericNotice | src/tools/delegation.py:117-120 | an agent outside the four named ones gets the generic template |
| Delegation.NotifiedUser | src/tools/delegation.py:107 | the context's user id, or "user" without a context |
| Delegation.NotifyUserOfDelegation | src/tools/delegation.py:95-133 | logs exactly one delegation from "root_agent" to the named agent with the reason as its task description, for the context's user, and returns the notification it queued for that user |
| Delegation.LogDelegationCompletion | src/tools/delegation.py:135-161 | builds a "completed" record from its arguments and touches no tracker |
| Delegation.AgentsOfCons | src/tools/delegation.py:185 | the agents of a count list with one more entry in front |
| Delegation.MissingCountsZero | src/tools/delegation.py:185 | an agent the counts do not hold counts 0 |
| Delegation.BumpCounts | src/tools/delegation.py:184-185 | one increment adds one to exactly that agent's count and to the total, and keeps the agents distinct |
| Delegation.TallyCounts | src/tools/delegation.py:183-185 | the counting loop's result holds each target agent once, counts exactly the records sent to it, and its counts add up to the number of records |
| Delegation.TallyStats | src/tools/delegation.py:176-187 | the counting loop: the by-agent counts sum to total_delegations and count each agent's records exactly; the recent list is the last five records |
| Delegation.GetDelegationStats | src/tools/delegation.py:163-187 | as written: the statistics of the user's history with its default limit of 10, so the total is at most 10; the recent list is the last five of that history; pending notifications only for a truthy user |
| Delegation.StatsSeeOnlyTen | src/tools/delegation.py:174 | a user with eleven delegations is reported as having ten |
| Delegation.GetDelegationStatsIntended | src/tools/delegation.py:163-187 | corrected: the statistics cover the user's whole history, the by-agent counts still sum to the total, and the recent list is its last five |
| Memories.TypeByName | ecoagent/sessions_and_memory.py:29-35 | a member name gives exactly its memory type, and any other name none (the KeyError) |
| Memories.ImportanceByName | ecoagent/sessions_and_memory.py:38-44 | a member name gives exactly its importance, and any other name none (the KeyError) |
| Memories.ParseAnyCase | ecoagent/sessions_and_memory.py:596-597 | since names are upper-cased before lookup, every casing of a member name parses to that member |
| Memories.DecayFactor | ecoagent/sessions_and_memory.py:73-78 | the decay factor never falls below 0.1, and for a non-negative age never exceeds 1 |
| Memories.DecayFactorAntitone | ecoagent/sessions_and_memory.py:73-78 | an older memory never has a larger decay factor |
| Memories.Strength | ecoagent/sessions_and_memory.py:85-92 | strength is capped at 1, and with a decay of at least 0.1 it is at least a tenth of the importance level plus 0.03 |
| Memories.StrengthOfAge | ecoagent/sessions_and_memory.py:80-92 | strength is always in (0, 1] |
| Memories.StrengthStrictInImportance | ecoagent/sessions_and_memory.py:80-92 | at equal age and access count, a higher importance is strictly stronger |
| Memories.StrengthMonotoneInAccesses | ecoagent/sessions_and_memory.py:88-92 | more accesses never lower strength |
| Memories.StrengthAntitoneInAge | ecoagent/sessions_and_memory.py:80-92 | an older memory is never stronger |
| Memories.WeakOnlyIfTrivial | ecoagent/sessions_and_memory.py:85-92 | a strength below 0.2 needs TRIVIAL importance and fewer than 10 accesses |
| Memories.Relevance | ecoagent/sessions_and_memory.py:340-356 | relevance is between 0 and 0.85 times the strength, and positive exactly when a query word is in the content or the query is part of a tag |
| Memories.Memory.constructor | ecoagent/sessions_and_memory.py:47-62 | a new memory holds its given fields, never accessed, with decay factor 1 and no relationships or metadata |
| Memories.Memory.Restore | ecoagent/sessions_and_memory.py:47-62 | a memory rebuilt from stored fields holds exactly those fields |
| Memories.Memory.StrengthAt | ecoagent/sessions_and_memory.py:80-92 | the strength get_strength returns is in (0, 1] |
| Memories.Memory.UpdateAccess | ecoagent/sessions_and_memory.py:68-71 | one more access, stamped now; the strength at any time never drops |
| Memories.Memory.ApplyDecay | ecoagent/sessions_and_memory.py:73-78 | the decay factor becomes the decay curve at the given age, and nothing else changes |
| Memories.Memory.GetStrength | ecoagent/sessions_and_memory.py:80-92 | the decay factor is refreshed from the memory's age and the strength returned |
| Memories.WeakIsTrivial | ecoagent/sessions_and_memory.py:298-301 | only a TRIVIAL memory is ever weak enough to be consolidated away |
| Memories.HitFor | ecoagent/sessions_and_memory.py:248-264 | a memory is a hit exactly when it passes the type, importance and tag filters and has positive relevance |
| Memories.Scan | ecoagent/sessions_and_memory.py:248-264 | the hits are exactly the hits of the memories scanned |
| Memories.ScanMemories | ecoagent/sessions_and_memory.py:248-264 | the scanning loop keeps exactly the hits of the memories |
| Memories.RankedSorted | ecoagent/sessions_and_memory.py:266-270 | the search result is sorted by relevance, then strength, highest first |
| Memories.RankedSound | ecoagent/sessions_and_memory.py:248-264 | every result passes the filters and carries its positive relevance |
| Memories.RankedComplete | ecoagent/sessions_and_memory.py:248-264 | every memory passing the filters with positive relevance is in the result |
| Memories.WeakestIdsDistinct | ecoagent/sessions_and_memory.py:360-367 | the weakest c entries are c distinct stored ids |
| Memories.WeakestAreWeakest | ecoagent/sessions_and_memory.py:360-367 | none of the weakest c is stronger than an entry left behind |
| Memories.ChampionUnique | ecoagent/sessions_and_memory.py:375-387 | each content-prefix group has at most one survivor |
| Memories.FindDuplicates | ecoagent/sessions_and_memory.py:370-389 | the reported ids are distinct and exactly the entries that do not survive their prefix group, and every group has a survivor |
| Memories.SurvivorsDiffer | ecoagent/sessions_and_memory.py:375-387 | no two survivors share a 50-character prefix |
| Memories.DuplicateHasSurvivor | ecoagent/sessions_and_memory.py:378-385 | every duplicate has a survivor with its prefix that is at least as strong |
| Memories.OfType | ecoagent/sessions_and_memory.py:276-279 | exactly the memories of the given type |
| Memories.After | ecoagent/sessions_and_memory.py:283-287 | exactly the memories stamped after the cutoff |
| Memories.MemoryBank.constructor | ecoagent/sessions_and_memory.py:174-182 | an empty bank with the given limit |
| Memories.MemoryBank.MemoriesByType | ecoagent/sessions_and_memory.py:274-279 | exactly the stored memories of the type |
| Memories.MemoryBank.RecentMemories | ecoagent/sessions_and_memory.py:281-287 | exactly the stored memories stamped within the last `days` days |
| Memories.MemoryBank.PruneRemovesWeakest | ecoagent/sessions_and_memory.py:358-368 | pruning picks max(1, n // 10) distinct stored memories, none stronger than any it keeps |
| Memories.MemoryBank.PruneMemories | ecoagent/sessions_and_memory.py:358-368 | deletes exactly the chosen victims, max(1, n // 10) of them, each no stronger than any survivor |
| Memories.MemoryBank.RetrieveMemory | ecoagent/sessions_and_memory.py:226-231 | a hit is returned and accessed once more; a miss returns nothing and changes nothing |
| Memories.MemoryBank.AddMemory | ecoagent/sessions_and_memory.py:184-224 | stores the new memory; past the limit the weakest max(1, n // 10) go, and a bank within its limit stays within it |
| Memories.MemoryBank.SearchMemories | ecoagent/sessions_and_memory.py:233-272 | the result is the ranked hits of the stored memories for the lower-cased query |
| Memories.MemoryBank.FindDuplicateMemories | ecoagent/sessions_and_memory.py:370-389 | the duplicates are distinct stored ids; survivors have pairwise different prefixes; each duplicate has an at-least-as-strong survivor with its prefix |
| Memories.MemoryBank.RemoveWeak | ecoagent/sessions_and_memory.py:297-305 | removes exactly the weak memories, all of them TRIVIAL, and no other |
| Memories.MemoryBank.RemoveDuplicates | ecoagent/sessions_and_memory.py:307-311 | leaves one memory per prefix, each removed one having an at-least-as-strong survivor |
| Memories.MemoryBank.ConsolidateMemories | ecoagent/sessions_and_memory.py:289-319 | after = before - weak - duplicates; only TRIVIAL memories go as weak; one memory survives per prefix, the strongest |
| Memories.EnumError | ecoagent/sessions_and_memory.py:595-599 | there is an error exactly when a name does not parse; the message is "Invalid enum: " followed by Python's `repr` of the first upper-cased name that fails, the type's name first |
| Memories.AddMemoryTool | ecoagent/sessions_and_memory.py:566-616 | creates the bank when missing; an unknown enum name reports the error and adds nothing; otherwise the bank holds the new memory with the given id, content, parsed type, importance, source, tags and context, stamped now and never accessed; the other memories keep their values, and without a prune the keys are the old ones plus the new id |
| Memories.SearchRows | ecoagent/sessions_and_memory.py:654-664 | one row per hit with its id, content, type value, strength and relevance |
| Memories.SearchMemoriesTool | ecoagent/sessions_and_memory.py:619-666 | without a bank, the no-bank report; otherwise the first ten ranked hits with importance at least LOW, an unknown type name ignored, and the total count |
| MemoryTools.PutKeepsDistinct | ecoagent/tools/memory.py:22 | storing a key keeps the state's keys distinct, and the keys afterwards are the old ones plus that key |
| MemoryTools.UpdateGet | ecoagent/tools/memory.py:86 | after `dict.update` every updated key holds its new value and every other key keeps its old one |
| MemoryTools.UpdateKeepsDistinct | ecoagent/tools/memory.py:86 | `dict.update` keeps the keys distinct |
| MemoryTools.AppendNew | ecoagent/tools/memory.py:41-42 | the value is in the list afterwards, nothing else is added, the old list is a prefix, and the length grows by one exactly when the value was not there yet |
| MemoryTools.AppendNewIdempotent | ecoagent/tools/memory.py:41-42 | adding the same value a second time changes nothing |
| MemoryTools.Bounded | ecoagent/tools/memory.py:193-197 | the kept history is a suffix of the old history plus the new entry, ends with the new entry, and holds min(old length + 1, 20) entries |
| MemoryTools.BoundedDropsOldest | ecoagent/tools/memory.py:195-197 | a full history of 20 drops exactly its oldest entry |
| MemoryTools.ListAt | ecoagent/tools/memory.py:39-41 | the list a key holds; an absent key reads as an empty list, and a non-list value is flagged |
| MemoryTools.GetOr | ecoagent/tools/memory.py:101 | `dict.get` with a default: the stored value, or the default when the key is absent |
| MemoryTools.GoalEntry | ecoagent/tools/memory.py:153-158 | a new goal entry carries the goal and target date and always starts with status "in_progress" |
| MemoryTools.ToolState.constructor | ecoagent/tools/memory.py:21 | the tool state starts as the session state passed in |
| MemoryTools.ToolState.Recall | ecoagent/tools/memory.py:46-58 | a value comes back exactly when the key is stored, and it is the stored value |
| MemoryTools.ToolState.RecallAll | ecoagent/tools/memory.py:61-71 | the copy agrees with `recall` on every key |
| MemoryTools.ToolState.Memorize | ecoagent/tools/memory.py:9-23 | the key afterwards holds the value, every other key is unchanged, and the status quotes the key and the value |
| MemoryTools.ToolState.MemorizeList | ecoagent/tools/memory.py:26-43 | a missing key starts an empty list; the value is appended only when not already present; the reported length is the stored list's length; a key holding something other than a list raises and changes nothing |
| MemoryTools.ToolState.GetUserProfile | ecoagent/tools/memory.py:91-101 | the stored profile, or an empty dict when there is none |
| MemoryTools.ToolState.UpdateUserProfile | ecoagent/tools/memory.py:74-88 | the updated fields take their new values, the other profile fields keep theirs, no other key changes, and the updated field names are reported; a non-dict profile raises and changes nothing |
| MemoryTools.ToolState.AppendEntry | ecoagent/tools/memory.py:116-123 | appends one entry to the list under the key (an empty list when absent); a non-list value fails and changes nothing |
| MemoryTools.ToolState.AddSustainabilityAction | ecoagent/tools/memory.py:104-124 | the actions list gains exactly one entry stamped with the time, no other key changes, and the action and impact are echoed |
| MemoryTools.ToolState.GetSustainabilityActions | ecoagent/tools/memory.py:127-137 | the stored actions, or an empty list when there are none |
| MemoryTools.ToolState.SetSustainabilityGoal | ecoagent/tools/memory.py:140-161 | the goals list gains exactly one "in_progress" entry, no other key changes, and the goal and target date are echoed |
| MemoryTools.ToolState.GetSustainabilityGoals | ecoagent/tools/memory.py:164-174 | the stored goals, or an empty list when there are none |
| MemoryTools.ToolState.TrackCarbonFootprint | ecoagent/tools/memory.py:177-200 | the history gains the new entry and keeps only its newest 20; the reported count is the kept length, never above 20; no other key changes |
| MemoryTools.ToolState.GetCarbonFootprintHistory | ecoagent/tools/memory.py:203-213 | the stored history, or an empty list when there is none |
| MemoryTools.ToolState.SaveSessionState | ecoagent/tools/memory.py:216-234 | reports exactly the stored keys, one per entry, and persists nothing |
| MemoryTools.MemorizeThenRecall | ecoagent/tools/memory.py:9-58 | `memorize` followed by `recall` of the same key gives back the stored text |
| MemoryTools.MemorizeListTwice | ecoagent/tools/memory.py:41-42 | `memorize_list` with the same value twice stores it once |
| Metrics.InsertLabelSorted | ecoagent/observability.py:101 | one insertion step of `sorted` keeps the label items strictly increasing and adds exactly the new item |
| Metrics.SortLabelsSorted | ecoagent/observability.py:101 | `sorted(labels.items())` is a strictly increasing permutation of the label items |
| Metrics.SortedUnique | ecoagent/observability.py:101 | two strictly increasing item lists with the same items are equal, so the sorted key is determined by the set of labels |
| Metrics.KeyIgnoresLabelOrder | ecoagent/observability.py:99-102 | the metric key of a name and a label dict does not depend on the order in which the labels were given |
| Metrics.Lookup | ecoagent/observability.py:102 | `d.get(k)` finds nothing exactly when no entry has key k |
| Metrics.Store | ecoagent/observability.py:102-114 | `d[k] = v`: k then maps to v, every other key keeps its value, the dict grows by one exactly when k was new, and keys stay unique |
| Metrics.MinOf | ecoagent/observability.py:123 | `min(v)` is one of the durations and no duration is below it |
| Metrics.MaxOf | ecoagent/observability.py:124 | `max(v)` is one of the durations and no duration is above it |
| Metrics.SumBetween | ecoagent/observability.py:122 | the sum of the durations lies between their count times a lower bound and their count times an upper bound |
| Metrics.MeanBetween | ecoagent/observability.py:122-124 | the average of a non-empty timer lies between its minimum and maximum |
| Metrics.TimerStatsOf | ecoagent/observability.py:120-125 | a timer's summary counts its durations; an empty timer summarises to zeros; otherwise min and max are recorded durations bounding every duration and the average |
| Metrics.ByName | ecoagent/observability.py:119-126 | the summary dict keyed by name alone has unique names |
| Metrics.ByNameIsLastNamed | ecoagent/observability.py:119-126 | each name in the summary carries the value of the last key with that name |
| Metrics.TimerStatsByKey | ecoagent/observability.py:120-125 | each timer key is paired with the summary of its own durations, in dict order |
| Metrics.LabelVariantsCollapse | ecoagent/observability.py:118-127 | two label variants of one counter name are not added up: the summary shows only the one recorded last |
| Metrics.MetricsCollector.constructor | ecoagent/observability.py:94-97 | a new collector has no counters, timers or gauges |
| Metrics.MetricsCollector.IncrementCounter | ecoagent/observability.py:99-102 | exactly the (name, sorted labels) key's count goes up by one; other keys, timers and gauges are unchanged |
| Metrics.MetricsCollector.RecordTimer | ecoagent/observability.py:104-109 | exactly one duration is appended to the key's list; other keys, counters and gauges are unchanged |
| Metrics.MetricsCollector.SetGauge | ecoagent/observability.py:111-114 | the key's gauge is overwritten with the new value; everything else is unchanged |
| Metrics.MetricsCollector.GetMetricsSummary | ecoagent/observability.py:116-128 | one entry per metric name, carrying the value (or the timer summary) of the last key with that name |
| Metrics.SummaryTimerCounts | ecoagent/observability.py:120-125 | a summarised timer's count is the number of durations recorded under the last key with its name |
| Metrics.TracedCall | ecoagent/observability.py:138-184 | whether the wrapped call returns or raises, exactly one duration is recorded under "<function>_execution_time" with no labels, counters and gauges are untouched, and the call's outcome is passed on |
| OperationTools.StartLongRunningOperation | ecoagent/tools/operations.py:7-51 | the new operation belongs to the context's user and is RUNNING at once, with history "created" then "started"; other operations are untouched; the report is always success |
| OperationTools.UpdateOperationProgressTool | ecoagent/tools/operations.py:54-91 | an error exactly when the operation is unknown or neither RUNNING nor PAUSED; otherwise the clamped progress is stored and reported, with a message quoting the progress as given |
| OperationTools.PauseOperationTool | ecoagent/tools/operations.py:94-136 | an error exactly when the operation is unknown or not RUNNING; otherwise it is PAUSED with the reason, and the report gives the pause time, progress and reason, with a message quoting the progress |
| OperationTools.ResumeOperationTool | ecoagent/tools/operations.py:139-174 | an error exactly when the operation is not PAUSED with a saved checkpoint; otherwise it is RUNNING and the report gives the latest checkpoint's progress, state and time, the start time as the resume time, and a message quoting the checkpoint's progress |
| OperationTools.CompleteOperationTool | ecoagent/tools/operations.py:177-212 | as written: an error exactly when the operation is not RUNNING or PAUSED; otherwise it is COMPLETED and the reported duration is None |
| OperationTools.CompleteOperationToolIntended | ecoagent/tools/operations.py:177-212 | corrected: as CompleteOperationTool, but the reported duration is the one logged with the completion |
| OperationTools.FailOperationTool | ecoagent/tools/operations.py:215-247 | an error exactly for an unknown operation; otherwise it is FAILED and the report quotes the error message |
| OperationTools.CancelOperationTool | ecoagent/tools/operations.py:250-277 | an error exactly when the operation is not PENDING, RUNNING or PAUSED; otherwise it is CANCELLED |
| OperationTools.GetOperationStatus | ecoagent/tools/operations.py:280-315 | "Operation not found" exactly for an unknown id; otherwise the cached status, progress, pause reason and stamps |
| OperationTools.ListUserOperations | ecoagent/tools/operations.py:318-356 | one summary per stored row of the context's user that passes the filters, in the store's order, and their count |
| OperationTools.ListPausedOperations | ecoagent/tools/operations.py:359-387 | as written: one entry per stored PAUSED row of the context's user, with its progress and pause time, and every reason None |
| OperationTools.PausedListDropsReason | ecoagent/tools/operations.py:371-383 | as written: an operation paused with a reason is listed without it |
| OperationTools.ListPausedOperationsIntended | ecoagent/tools/operations.py:359-387 | corrected: as ListPausedOperations, with each entry's reason taken from the cached operation |
| OperationTools.IntendedListKeepsReason | ecoagent/tools/operations.py:359-387 | corrected: a listed paused operation reports the reason it was paused with |
| OperationTools.GetOperationHistoryTool | ecoagent/tools/operations.py:390-418 | the operation's records with their actions and times, in logging order, and their count; a known operation's first record is "created" |
| Operations.StatusByValue | ecoagent/operations.py:12-19 | a stored value gives exactly the status it names, and any other value none |
| Operations.StatusValueRoundTrip | ecoagent/operations.py:12-19 | every status reads back from its own value |
| Operations.FinishedOnlyFail | ecoagent/operations.py:152-413 | a completed, failed or cancelled operation accepts fail and no other transition |
| Operations.Next | ecoagent/operations.py:152-413 | no transition leads back to PENDING; fail is the one action that always succeeds and always gives FAILED; only a running or paused operation (or a pending one being cancelled) becomes COMPLETED or CANCELLED |
| Operations.StartOnce | ecoagent/operations.py:162-171 | an operation that has been started cannot be started again |
| Operations.PauseResumeReturnsToRunning | ecoagent/operations.py:238-297 | only a running operation can be paused, and resuming it leads back to RUNNING |
| Operations.HistoryOfMembers | ecoagent/operations.py:452-467 | an operation's history is exactly the logged records of that operation |
| Operations.HistoryOfAppend | ecoagent/operations.py:571-585 | logging a record extends its own operation's history at the end and no other |
| Operations.LatestCheckpoint | ecoagent/operations.py:554-569 | none exactly when the operation has no saved checkpoint; otherwise one of its own saved checkpoints |
| Operations.LatestAfterSave | ecoagent/operations.py:536-569 | the checkpoint just saved is the latest one for its operation |
| Operations.LatestIgnoresOthers | ecoagent/operations.py:536-569 | saving another operation's checkpoint does not change which checkpoint is latest |
| Operations.OnlyFinishedAreDeletable | ecoagent/operations.py:499-504 | pending, running, paused and cancelled rows are never deleted by cleanup |
| Operations.FilterRows | ecoagent/operations.py:426-441 | exactly the stored rows of the user that pass the status and agent filters |
| Operations.OperationStore.constructor | ecoagent/operations.py:42-92 | empty tables |
| Operations.OperationStore.SaveOperation | ecoagent/operations.py:510-534 | the operation's row is inserted or replaced and moves to the end of the row order; the other tables are unchanged |
| Operations.OperationStore.SaveCheckpoint | ecoagent/operations.py:536-552 | the checkpoint is appended and nothing else changes |
| Operations.OperationStore.LogHistory | ecoagent/operations.py:571-585 | one history record stamped now is appended and nothing else changes |
| Operations.OperationStore.UserOperations | ecoagent/operations.py:419-450 | exactly the matching rows, each once, newest first |
| Operations.OperationStore.DeleteOld | ecoagent/operations.py:496-506 | exactly the deletable rows are removed, and the count returned is how many |
| Operations.CalculateDuration | ecoagent/operations.py:587-600 | 0 when either stamp is missing; otherwise the elapsed seconds truncated to a whole number |
| Operations.ClampProgress | ecoagent/operations.py:207 | the progress clamped into [0, 100]: unchanged inside, 0 below and 100 above |
| Operations.NewOperation | ecoagent/operations.py:115-135 | a PENDING record with progress 0, empty state, the given or empty metadata, no stamps but the creation, and an estimated completion that many minutes later |
| Operations.LongRunningOperation.constructor | ecoagent/operations.py:36-40 | the given store and empty caches |
| Operations.LongRunningOperation.GetOperation | ecoagent/operations.py:415-417 | the cached operation, or none for an unknown id |
| Operations.LongRunningOperation.GetOperationHistory | ecoagent/operations.py:452-467 | exactly the operation's logged records; a known operation's first record is "created" |
| Operations.LongRunningOperation.CreateOperation | ecoagent/operations.py:94-150 | a new PENDING operation is cached and saved, with an empty checkpoint list and a history of exactly one "created" record |
| Operations.LongRunningOperation.StartOperation | ecoagent/operations.py:152-177 | succeeds exactly for a known PENDING operation, which becomes RUNNING with its start stamped, saved and logged; otherwise nothing changes |
| Operations.LongRunningOperation.UpdateOperationProgress | ecoagent/operations.py:179-214 | succeeds exactly for a known RUNNING or PAUSED operation: the progress is clamped, a non-empty state replaces the old one, the row is saved, and no history is logged |
| Operations.LongRunningOperation.PauseOperation | ecoagent/operations.py:216-269 | succeeds exactly for a known RUNNING operation, which becomes PAUSED with the reason; a checkpoint of its progress and state is saved and is then the latest |
| Operations.LongRunningOperation.ResumeOperation | ecoagent/operations.py:271-308 | returns the latest checkpoint exactly when the operation is PAUSED and has one; it then becomes RUNNING with the pause stamp and reason cleared |
| Operations.LongRunningOperation.CompleteOperation | ecoagent/operations.py:310-350 | succeeds exactly from RUNNING or PAUSED: COMPLETED with progress 100, a non-empty result stored in the metadata, and the duration logged |
| Operations.LongRunningOperation.FailOperation | ecoagent/operations.py:352-382 | any known operation, whatever its status, becomes FAILED with the error message |
| Operations.LongRunningOperation.CancelOperation | ecoagent/operations.py:384-413 | succeeds exactly from PENDING, RUNNING or PAUSED, which becomes CANCELLED |
| Operations.LongRunningOperation.ActiveOperations | ecoagent/operations.py:469-480 | exactly the user's stored PENDING, RUNNING or PAUSED rows |
| Operations.LongRunningOperation.PausedOperations | ecoagent/operations.py:482-484 | exactly the user's stored PAUSED rows |
| Operations.LongRunningOperation.CleanupOldOperations | ecoagent/operations.py:486-506 | deletes exactly the COMPLETED or FAILED rows finished before the cutoff, returns how many, and keeps checkpoints and history |
| Operations.PauseResumeRoundTrip | ecoagent/operations.py:216-308 | pausing a running operation and resuming it returns a checkpoint holding the progress and state it had, and the operation is RUNNING again with no pause reason |
| Prelude.Lower | ecoagent/sessions_and_memory.py:342-343 | `str.lower()` restricted to ASCII: the same length, each letter A-Z lowered and every other character kept |
| Prelude.LowerIdempotent | ecoagent/sessions_and_memory_services.py:590-658 | lower-casing an already lower-cased query changes nothing, and its result has no upper-case ASCII letter |
| Prelude.Upper | ecoagent/context_engineering.py:457-458 | `str.upper()` restricted to ASCII: the same length, each letter a-z raised and every other character kept |
| Prelude.BlankHasNoWords | ecoagent/sessions_and_memory.py:342-343 | `split()` of a string made only of whitespace gives no words |
| Prelude.SliceFromEnd | src/tools/delegation.py:90 | `s[-n:]` is a suffix of s: its last min(n, len(s)) elements for positive n, and s without its first -n elements (or nothing) for n <= 0 |
| Prelude.RoundNonNegative | ecoagent/progress_tracker/agent.py:43 | rounding keeps a non-negative number non-negative |
| Prelude.RoundMono | ecoagent/utils/unit_conversion.py:128 | rounding never reverses the order of two numbers |
| Prelude.UserOf | ecoagent/tools/operations.py:30 | the context's user id, or "unknown" when there is no context or it has no user id |
| Prelude.PyRepr | ecoagent/sessions_and_memory.py:598-599 | `repr` of a str: single quotes unless the text holds a ' and no ", with the same quote at both ends, and at least two characters longer than the text |
| Prelude.ReprOfPlain | ecoagent/context_engineering.py:459-460 | printable ASCII text without a quote or backslash is rendered verbatim between single quotes |
| Prelude.ReprRoundTrip | ecoagent/sessions_and_memory.py:598-599 | reading `repr(s)` back as a Python literal gives s |
| Prelude.JsonQuote | ecoagent/context_engineering.py:109 | `json.dumps` of a str with `ensure_ascii`: double quotes at both ends and only printable ASCII characters |
| Prelude.JsonOfPlain | ecoagent/database.py:441 | printable ASCII text without `"` or a backslash is rendered verbatim between double quotes |
| Prelude.JsonRoundTrip | ecoagent/context_engineering.py:109 | a JSON reader gets s back from `json.dumps(s)`, surrogate pairs included |
| Prelude.TopN | ecoagent/database.py:389-390 | `ORDER BY key DESC LIMIT n`: sorted by descending key, min(len, n) long, drawn from the input without repeats beyond its own, all of it when it fits, and every element left out ranks no higher than any kept |
| Progress.Clamp | ecoagent/progress_tracker/agent.py:32-40 | `max(0, min(100, x))` lies in [0, 100] and leaves a value already in that range unchanged |
| Progress.RawProgress | ecoagent/progress_tracker/agent.py:23-40 | the unrounded progress of either goal direction always lies in [0, 100] |
| Progress.StatusOf | ecoagent/progress_tracker/agent.py:48 | "Achieved" iff progress >= 100, "In Progress" iff 0 < progress < 100, "Not Started" iff progress <= 0 |
| Progress.CalculateProgressPercentage | ecoagent/progress_tracker/agent.py:10-49 | the reported percentage is in [0, 100] after rounding, the goal is a reduction goal iff target < initial, and the inputs are echoed |
| Progress.RoundOfHundred | ecoagent/progress_tracker/agent.py:43 | rounding 100 to two places gives 100 |
| Progress.EqualTargetIsAchieved | ecoagent/progress_tracker/agent.py:35-36 | a target equal to the initial value reports 100 percent, "Achieved", and an increase goal |
| Progress.NoMovementIsNotStarted | ecoagent/progress_tracker/agent.py:29-38 | no movement past the initial value in the goal's direction reports 0 percent and "Not Started" |
| Progress.ReachingTargetAchieves | ecoagent/progress_tracker/agent.py:27-40 | reaching or passing the target, in either direction, reports 100 percent and "Achieved" |
| Progress.PartialProgressIsInProgress | ecoagent/progress_tracker/agent.py:31-48 | a current value strictly between the initial value and the target reports "In Progress" |
| Progress.FractionBounds | ecoagent/progress_tracker/agent.py:32-40 | the covered fraction is at least 1 once the distance is covered and strictly between 0 and 1 before |
| Progress.RoundedHundredStillInProgress | ecoagent/progress_tracker/agent.py:43-48 | the status is read from the unrounded progress, so a report can show 100.0 percent and still say "In Progress" (initial 100, current 0.004, target 0) |
| Progress.AchievedNames | ecoagent/progress_tracker/agent.py:87 | the achieved-name comprehension is no longer than the milestone list |
| Progress.PendingNames | ecoagent/progress_tracker/agent.py:88 | the pending-name comprehension is no longer than the milestone list |
| Progress.Evaluated | ecoagent/progress_tracker/agent.py:82-85 | the marking loop keeps all five milestones |
| Progress.GetMilestoneStatus | ecoagent/progress_tracker/agent.py:51-94 | the in-place marking loop and the two comprehensions return exactly the report MilestoneStatus describes, and the fixed default without records |
| Progress.ThresholdNames | ecoagent/progress_tracker/agent.py:69-83 | the three "Reduce carbon footprint by N%" names match the f-string of their own threshold; the practice and month names do not |
| Progress.NamesDiffer | ecoagent/progress_tracker/agent.py:69-75 | the five milestone names are pairwise different |
| Progress.EvaluatedMilestones | ecoagent/progress_tracker/agent.py:82-85 | after the loop each reduction milestone is achieved iff the latest progress reaches its threshold, and the other two never are |
| Progress.EvaluatedNames | ecoagent/progress_tracker/agent.py:87-88 | the achieved and pending name lists after the loop, written out for any latest progress |
| Progress.AchievedOfFive | ecoagent/progress_tracker/agent.py:87 | the achieved-name comprehension over five milestones, unrolled |
| Progress.PendingOfFive | ecoagent/progress_tracker/agent.py:88 | the pending-name comprehension over five milestones, unrolled |
| Progress.MilestonesByProgress | ecoagent/progress_tracker/agent.py:79-94 | the achieved and next lists for each range of the latest progress (below 10, 10-25, 25-50, 50 and above), and total_progress is the latest progress |
| Progress.AchievedExactly | ecoagent/progress_tracker/agent.py:61-94 | without records the fixed default; otherwise only the reduction milestones can be achieved, each exactly when the latest progress reaches its threshold |
| Progress.NextAreUnachieved | ecoagent/progress_tracker/agent.py:87-88 | at most three next milestones are listed, none of them achieved |
| Progress.AchievedGrows | ecoagent/progress_tracker/agent.py:82-87 | a higher latest progress never loses an achieved milestone |
| Progress.Tier | ecoagent/progress_tracker/agent.py:108-117 | one of the five message branches is chosen |
| Progress.MotivationalMessage | ecoagent/progress_tracker/agent.py:96-117 | the message opens with the greeting of its branch and the user's name: "Congratulations", "Amazing progress", "Great work", "Good progress" or "Keep going" |
| Progress.TierThresholds | ecoagent/progress_tracker/agent.py:108-117 | the branches are chosen by the thresholds 100, 75, 50 and 25, and more progress never gives a lower branch |
| Services.InMemorySessionService.constructor | ecoagent/sessions_and_memory_services.py:64-68 | no sessions and an empty per-user index |
| Services.InMemorySessionService.CreateSession | ecoagent/sessions_and_memory_services.py:70-91 | stores a new CREATED session under the fresh id and appends the id to the user's list |
| Services.InMemorySessionService.SaveSession | ecoagent/sessions_and_memory_services.py:106-110 | stores the object under its id, leaves the user index alone, and always reports success |
| Services.InMemorySessionService.UserSessions | ecoagent/sessions_and_memory_services.py:112-116 | one session per id on the user's list, in creation order |
| Services.InMemorySessionService.ActiveSessions | ecoagent/sessions_and_memory_services.py:118-122 | exactly the user's sessions that are active |
| Services.InMemorySessionService.ActivateSession | ecoagent/sessions_and_memory_services.py:93-99 | an unknown id gives nothing and changes nothing; a known one is activated in place and returned |
| Services.InMemorySessionService.PauseSession | ecoagent/sessions_and_memory_services.py:124-130 | an unknown id gives nothing and changes nothing; a known one is paused in place and returned |
| Services.InMemorySessionService.ResumeSession | ecoagent/sessions_and_memory_services.py:132-138 | an unknown id gives nothing and changes nothing; a known one is resumed in place and returned |
| Services.InMemorySessionService.CloseSession | ecoagent/sessions_and_memory_services.py:140-146 | an unknown id gives nothing and changes nothing; a known one is closed in place and returned |
| Services.InMemorySessionService.CleanupExpired | ecoagent/sessions_and_memory_services.py:148-160 | closes exactly the sessions past their deadline, whatever their status, deletes nothing and returns how many |
| Services.InMemorySessionService.Summary | ecoagent/sessions_and_memory_services.py:162-174 | the total is the number of the user's sessions; the active count is the number of them active now, the closed count the number CLOSED, and the interaction total the sum of their interaction counts |
| Services.DeserializeSession | ecoagent/sessions_and_memory_services.py:300-324 | an unknown status string gives nothing (the ValueError); otherwise the row's fields, with a missing creation stamp replaced by now |
| Services.StatusRoundTrip | ecoagent/sessions_and_memory_services.py:223-305 | a status written as its value is read back as the same status |
| Services.SessionRowRoundTrip | ecoagent/sessions_and_memory_services.py:218-324 | saving then reading a session restores its id, user, status, all five stamps, ttl, interaction count, context and metadata |
| Services.RowsOfUser | ecoagent/database.py:383-400 | exactly the stored rows whose user id is the given one |
| Services.MatchingRows | ecoagent/database.py:508-535 | exactly the user's rows of the given type whose content or tag list contains the query |
| Services.Store.constructor | ecoagent/database.py:15-25 | an empty store, online or not |
| Services.Store.SaveSession | ecoagent/database.py:338-366 | when online, the row replaces any row with its id; offline, nothing changes and false is returned |
| Services.Store.FindSession | ecoagent/database.py:368-381 | the row stored under the id, or nothing |
| Services.Store.UserSessionRows | ecoagent/database.py:383-400 | the user's 50 newest rows, newest first: at most 50, each a row of the user, as many as the user has up to 50, all of them when there are at most 50, and every row of the user left out is no newer than any returned |
| Services.Store.AddSessionMessage | ecoagent/database.py:402-414 | when online, one message row is appended, whether or not the session exists |
| Services.Store.SessionMessages | ecoagent/database.py:416-434 | the session's messages in the order they were logged: a prefix of that log holding all of it up to 100 rows |
| Services.Store.SaveMemory | ecoagent/database.py:436-468 | when online, the row replaces any row with its id; offline, nothing changes |
| Services.Store.FindMemory | ecoagent/database.py:470-485 | the memory row stored under the id, or nothing |
| Services.Store.DeleteMemory | ecoagent/database.py:537-545 | when online, the row is gone afterwards |
| Services.Store.SearchMemoryRows | ecoagent/database.py:508-535 | the 20 newest matching rows, newest first: each a row of the user matching the query and type, as many as match up to 20, all of them when at most 20 match, and every matching row left out is no newer than any returned |
| Services.MessagesOf | ecoagent/database.py:416-434 | exactly the message rows of the session, in log order |
| Services.PersistentSessionService.constructor | ecoagent/sessions_and_memory_services.py:180-183 | the service works on the given store |
| Services.PersistentSessionService.SaveSession | ecoagent/sessions_and_memory_services.py:218-234 | the session's row is written when the store is online, and the store's answer returned |
| Services.PersistentSessionService.CreateSession | ecoagent/sessions_and_memory_services.py:185-200 | a new CREATED session, whose row is stored when the store is online; the session is returned either way |
| Services.PersistentSessionService.GetSession | ecoagent/sessions_and_memory_services.py:210-216 | a fresh object rebuilt from the stored row, or nothing without a row |
| Services.PersistentSessionService.ActivateSession | ecoagent/sessions_and_memory_services.py:202-208 | a stored session is read, activated and written back; an unknown id gives nothing |
| Services.PersistentSessionService.PauseSession | ecoagent/sessions_and_memory_services.py:246-252 | a stored session is read, paused and written back; an unknown id gives nothing |
| Services.PersistentSessionService.ResumeSession | ecoagent/sessions_and_memory_services.py:254-260 | a stored session is read, resumed and written back; an unknown id gives nothing |
| Services.PersistentSessionService.CloseSession | ecoagent/sessions_and_memory_services.py:262-268 | a stored session is read, closed and written back; an unknown id gives nothing |
| Services.PersistentSessionService.AddMessage | ecoagent/sessions_and_memory_services.py:283-293 | the session's row is re-saved with one more interaction only when the message write succeeds, and that outcome is returned |
| Services.PersistentSessionService.Messages | ecoagent/sessions_and_memory_services.py:295-297 | the session's messages from the store, in logging order: a prefix of its log holding all of it up to 100 rows |
| Services.PersistentSessionService.CleanupExpired | ecoagent/sessions_and_memory_services.py:270-281 | as written: only rows of the user named "*" (at most 50) are scanned, and those past their deadline are closed and re-saved |
| Services.PersistentSessionService.CleanupExpiredAll | ecoagent/sessions_and_memory_services.py:270-281 | corrected: every stored row past its deadline is closed and re-saved, and the count is the number of such rows |
| Services.PersistentSessionService.CloseExpiredRows | ecoagent/sessions_and_memory_services.py:275-279 | the cleanup loop closes and re-saves exactly the expired rows, in order, and counts them |
| Services.PersistentSessionService.CloseIfExpired | ecoagent/sessions_and_memory_services.py:276-279 | an expired row is closed and re-saved, any other row left alone |
| Services.SessionRowsIn | ecoagent/database.py:383-400 | the rows behind the keys, in key order |
| Services.ClosedRow | ecoagent/sessions_and_memory_services.py:277-278 | the re-saved row is the closed session, stamped now |
| Services.ExpiredCount | ecoagent/sessions_and_memory_services.py:276-279 | the number of expired rows, at most the number of rows |
| Services.CloseAll | ecoagent/sessions_and_memory_services.py:275-279 | the table after every expired row is closed and re-saved keeps every key it had |
| Services.CloseAllKeepsLive | ecoagent/sessions_and_memory_services.py:275-279 | rows that are not expired are left as they were |
| Services.StarMatchesOnlyStar | ecoagent/sessions_and_memory_services.py:272 | asking the store for user "*" returns only rows of a user literally named "*" |
| Services.CleanupStarMissesExpiredSession | ecoagent/sessions_and_memory_services.py:270-281 | one expired session of user "alice": the as-written scan finds nothing to close, the corrected one finds it |
| Services.StoredMemories | ecoagent/sessions_and_memory_services.py:460 | the stored memories the id list names, in order, skipping ids no longer stored |
| Services.InMemoryMemoryBank.constructor | ecoagent/sessions_and_memory_services.py:372-377 | an empty bank with the given limit and no user lists |
| Services.InMemoryMemoryBank.AddMemory | ecoagent/sessions_and_memory_services.py:379-411 | stores the memory, appends its id to the user's list, and past the limit prunes the weakest (PruneCount of them), each no stronger than any kept; the other memories keep their values |
| Services.InMemoryMemoryBank.RetrieveMemory | ecoagent/sessions_and_memory_services.py:413-419 | a hit is returned and accessed once more; a miss changes nothing |
| Services.InMemoryMemoryBank.UserMemories | ecoagent/sessions_and_memory_services.py:456-460 | the user's memories that are still stored, ids whose memory was pruned skipped |
| Services.InMemoryMemoryBank.SearchMemories | ecoagent/sessions_and_memory_services.py:421-454 | the ranked hits among the caller's own stored memories, with no importance filter |
| Services.InMemorySearchOnlyOwn | ecoagent/sessions_and_memory_services.py:431-437 | every search result is one of the caller's stored memories |
| Services.MemoryRowOf | ecoagent/sessions_and_memory_services.py:540-555 | the saved row carries the memory's id, the user and the timestamp (MemoryRowRoundTrip shows it loses no field) |
| Services.TypeByValue | ecoagent/sessions_and_memory_services.py:636 | a type value gives exactly its memory type, any other string nothing |
| Services.ImportanceByLevel | ecoagent/sessions_and_memory_services.py:639 | the levels 1 to 5 give their importance, any other number nothing |
| Services.ParseMemoryRow | ecoagent/sessions_and_memory_services.py:632-652 | a row with a known type value, a level from 1 to 5 and a non-negative access count gives exactly its fields, a missing timestamp becoming now; otherwise nothing (the ValueError) |
| Services.MemoryRowRoundTrip | ecoagent/sessions_and_memory_services.py:540-652 | saving a memory and reading its row back gives the same fields, at any time |
| Services.AccessedRow | ecoagent/sessions_and_memory_services.py:570-572 | the row written back has one more access, stamped now |
| Services.AccessedRowParses | ecoagent/sessions_and_memory_services.py:566-572 | the written-back row reads back as the memory the retrieval returned |
| Services.Materialize | ecoagent/sessions_and_memory_services.py:634-652 | a memory object holding exactly the parsed fields |
| Services.RebuildAll | ecoagent/sessions_and_memory_services.py:588-589 | every row rebuilt as a memory, in order, or nothing when one row does not convert |
| Services.PersistentMemoryBank.constructor | ecoagent/sessions_and_memory_services.py:513-516 | the bank works on the given store |
| Services.PersistentMemoryBank.AddMemory | ecoagent/sessions_and_memory_services.py:518-558 | a new memory whose row is saved when the store is online; the memory is returned either way |
| Services.PersistentMemoryBank.RetrieveMemory | ecoagent/sessions_and_memory_services.py:560-574 | a stored memory is rebuilt, accessed once more and its new count and time written back; no row gives nothing |
| Services.PersistentMemoryBank.DeleteMemory | ecoagent/sessions_and_memory_services.py:606-608 | deletes the row through the store, after which retrieval finds nothing |
| Services.PersistentMemoryBank.SearchMemories | ecoagent/sessions_and_memory_services.py:576-599 | the store's matching rows rebuilt and ranked by relevance, the tag filter not applied; a row that does not convert gives nothing |
| Services.SessionRegistry.constructor | ecoagent/sessions_and_memory_services.py:673-687 | the persistent or the in-memory backend, as asked |
| Services.SessionRegistry.CreateSession | ecoagent/sessions_and_memory_services.py:689-701 | as written: in memory the returned session is activated when asked; with persistence the returned object stays CREATED while its row is activated |
| Services.SessionRegistry.CreateSessionActivated | ecoagent/sessions_and_memory_services.py:689-701 | corrected: when asked, the returned session is the activated one, in memory or whenever the store accepts the write |
| Services.CreatedIsNotActivated | ecoagent/sessions_and_memory_services.py:698-701 | the row the persistent registry stores is never the row of the CREATED session it returns |
| Sessions.StatusByValue | ecoagent/sessions_and_memory.py:20-26 | a stored status string names exactly one status, and any other string none |
| Sessions.Activated | ecoagent/sessions_and_memory.py:112-116 | activation, from any status, makes the session ACTIVE, stamps its start and sets its deadline to now plus the ttl |
| Sessions.PausedAt | ecoagent/sessions_and_memory.py:118-121 | pausing, from any status, makes the session PAUSED and stamps it, leaving the deadline |
| Sessions.Resumed | ecoagent/sessions_and_memory.py:123-127 | resuming changes the session exactly when it is PAUSED, and then makes it ACTIVE with a deadline now plus the ttl |
| Sessions.ClosedAt | ecoagent/sessions_and_memory.py:129-132 | closing, from any status, makes the session CLOSED and stamps it, leaving the deadline |
| Sessions.WithInteraction | ecoagent/sessions_and_memory.py:150-158 | one more interaction is counted |
| Sessions.ActivatedLiveUntilDeadline | ecoagent/sessions_and_memory.py:134-142 | an activated session is active exactly until now plus the ttl, and expired exactly after it |
| Sessions.NoDeadlineNeverExpires | ecoagent/sessions_and_memory.py:134-142 | a session without a deadline never expires, and is active exactly when its status is ACTIVE |
| Sessions.ExpiryIsFinal | ecoagent/sessions_and_memory.py:134-142 | a session past its deadline stays expired, and inactive, at every later time |
| Sessions.DurationFollowsClock | ecoagent/sessions_and_memory.py:144-148 | an open session's duration grows exactly with the clock, and a closed session's duration no longer changes |
| Sessions.ExpiredNeverAssigned | ecoagent/sessions_and_memory.py:112-158 | no transition ever produces the EXPIRED status |
| Sessions.PauseThenResume | ecoagent/sessions_and_memory.py:118-127 | pause then resume gives an ACTIVE session with a deadline counted from the resume, keeping the pause stamp |
| Sessions.ClosedStaysClosed | ecoagent/sessions_and_memory.py:123-138 | resuming a closed session changes nothing, and closing never moves the deadline |
| Sessions.ClosedDurationFixed | ecoagent/sessions_and_memory.py:144-148 | the duration of a closed session no longer depends on the clock |
| Sessions.Session.constructor | ecoagent/sessions_and_memory.py:96-110 | a new session is CREATED at now with no start, pause, close or deadline, no messages and no interactions |
| Sessions.Session.FromState | ecoagent/sessions_and_memory.py:96-110 | a session rebuilt from stored fields holds exactly those fields and no messages |
| Sessions.Session.Activate | ecoagent/sessions_and_memory.py:112-116 | the new state is the activated state; the messages are untouched |
| Sessions.Session.Pause | ecoagent/sessions_and_memory.py:118-121 | the new state is the paused state; the messages are untouched |
| Sessions.Session.Resume | ecoagent/sessions_and_memory.py:123-127 | the new state is the resumed state; the messages are untouched |
| Sessions.Session.Close | ecoagent/sessions_and_memory.py:129-132 | the new state is the closed state; the messages are untouched |
| Sessions.Session.AddMessage | ecoagent/sessions_and_memory.py:150-158 | exactly one message is appended and exactly one more interaction counted |
| Sessions.Present | ecoagent/sessions_and_memory.py:475-478 | the stored sessions the id list names, in list order; with every id stored, one per id |
| Sessions.ActiveOnes | ecoagent/sessions_and_memory.py:480-483 | exactly the sessions of the list that are active |
| Sessions.ClosedOnes | ecoagent/sessions_and_memory.py:506 | exactly the sessions of the list whose status is CLOSED |
| Sessions.InteractionSum | ecoagent/sessions_and_memory.py:507 | the sum of the sessions' interaction counts, never negative when none is |
| Sessions.Summarize | ecoagent/sessions_and_memory.py:498-510 | the total is the number of sessions, the active count the number active now, the closed count the number CLOSED, the interaction total the sum of their interaction counts, and the report is stamped now |
| Sessions.SessionManager.constructor | ecoagent/sessions_and_memory.py:395-398 | no sessions and an empty per-user index |
| Sessions.SessionManager.CreateSession | ecoagent/sessions_and_memory.py:400-430 | stores a new CREATED session under the fresh id and appends the id to the user's list, keeping the index consistent |
| Sessions.SessionManager.ActivateSession | ecoagent/sessions_and_memory.py:432-437 | an unknown id gives nothing and changes nothing; a known one is activated and returned |
| Sessions.SessionManager.PauseSession | ecoagent/sessions_and_memory.py:450-455 | an unknown id gives nothing and changes nothing; a known one is paused and returned |
| Sessions.SessionManager.ResumeSession | ecoagent/sessions_and_memory.py:457-462 | an unknown id gives nothing and changes nothing; a known one is resumed and returned |
| Sessions.SessionManager.CloseSession | ecoagent/sessions_and_memory.py:464-469 | an unknown id gives nothing and changes nothing; a known one is closed and returned |
| Sessions.SessionManager.GetSession | ecoagent/sessions_and_memory.py:471-473 | a session is returned exactly when the id is stored |
| Sessions.SessionManager.UserSessions | ecoagent/sessions_and_memory.py:475-478 | exactly the user's sessions, in creation order |
| Sessions.SessionManager.ActiveSessions | ecoagent/sessions_and_memory.py:480-483 | exactly the user's sessions that are active |
| Sessions.SessionManager.GetActiveSession | ecoagent/sessions_and_memory.py:439-448 | the user's first active session in creation order, or nothing exactly when none is active |
| Sessions.SessionManager.Summary | ecoagent/sessions_and_memory.py:498-510 | the total is the number of the user's sessions; the active count is the number of them active now, the closed count the number CLOSED, and the interaction total the sum of their interaction counts |
| Sessions.SessionManager.CleanupExpired | ecoagent/sessions_and_memory.py:485-496 | closes exactly the sessions past their deadline, whatever their status, deletes nothing and returns how many |
| Sessions.CreateSessionTool | ecoagent/sessions_and_memory.py:514-545 | creates the manager when the context has none, stores the session and activates it at once, reporting its creation time and deadline; an existing manager gains only the new session and the new id at the end of the user's list, and its other sessions keep their state |
| Suggestions.TransportationAlternatives | src/tools/agent.py:8-46 | walking or cycling is offered exactly for trips of at most 3 miles and public transit exactly for trips of at most 15; an electric vehicle and carpooling always close the list, in that order; the length is 2 plus one per threshold met |
| Suggestions.ShorterTripsGetMore | src/tools/agent.py:20-32 | a shorter trip is offered every alternative a longer one gets, and at least as many |
| Suggestions.EnergyEfficiencyImprovements | src/tools/agent.py:48-90 | LED lighting and a programmable thermostat come first always; insulation and solar panels are added exactly for a "house" or "detached" home type (any letter case), giving 4 or 2 entries |
| Suggestions.EnergySourceIgnored | src/tools/agent.py:48-90 | the current energy source never changes the suggestions |
| Suggestions.HomeTypeIgnoresCase | src/tools/agent.py:75 | the home type is compared without regard to letter case |
| Suggestions.DietaryChanges | src/tools/agent.py:92-136 | less meat and local food appear exactly for the concern "carbon", less food waste and plant-based options exactly for "water"; minimal packaging always comes last; 3 entries for those two concerns, otherwise 1 |
| Suggestions.OtherConcernsGetPackagingOnly | src/tools/agent.py:104-134 | any other concern, "waste" included, gets only the packaging advice |
| Tracer.KindOf | ecoagent/tools/observability.py:39-44 | an interaction is a carbon calculation iff its lower-cased input contains "carbon"; otherwise a recommendation iff it contains "recommend" or "suggest"; otherwise a goal iff it contains "goal"; otherwise it bumps no counter |
| Tracer.Bump | ecoagent/tools/observability.py:39-44 | a counter grows by 1 exactly when the interaction's kind selects it, otherwise by 0 |
| Tracer.AtMostOneCounter | ecoagent/tools/observability.py:39-44 | one interaction bumps at most one of the three usage counters |
| Tracer.MissingFirstLetter | ecoagent/tools/observability.py:39 | a text lacking a keyword's first letter does not contain the keyword |
| Tracer.KeywordPrecedence | ecoagent/tools/observability.py:39-44 | "carbon goal" counts as a carbon calculation and "suggest a goal" as a recommendation, so the earlier keyword family wins |
| Tracer.MetadataOr | ecoagent/tools/observability.py:33 | a trace carries the metadata passed, or an empty dict when none is |
| Tracer.EcoAgentTracer.constructor | ecoagent/tools/observability.py:16-24 | a new tracer has no traces, zero counters and no engagement days |
| Tracer.EcoAgentTracer.TraceInteraction | ecoagent/tools/observability.py:26-51 | appends exactly one trace, raises the interaction total by 1, raises the counter the keywords select by 1 and the others by 0, adds the day to the engagement days, and keeps every counter within the total |
| Tracer.EcoAgentTracer.GetTraces | ecoagent/tools/observability.py:53-55 | the result is a suffix of the traces: the newest `limit` of them for a positive limit, all of them for 0, and all but the `-limit` oldest for a negative limit |
| Tracer.EcoAgentTracer.GetMetrics | ecoagent/tools/observability.py:57-61 | the counters as stored, with the engagement days replaced by their count; the usage counters sum to at most the total |
| Tracer.ContextMetadata | ecoagent/tools/observability.py:79-84 | no metadata without a tool context; with one, exactly the keys user_id and session_id, each the context's attribute or "unknown" |
| Tracer.OrUnknown | ecoagent/tools/observability.py:82-83 | a missing context attribute reads as "unknown" |
| Tracer.LogInteraction | ecoagent/tools/observability.py:66-90 | traces the interaction once on the shared tracer with the context's metadata, with the same counter updates as TraceInteraction, and reports "Interaction logged" |
| Tracer.GetSystemMetrics | ecoagent/tools/observability.py:92-106 | the shared tracer's metrics, stamped with the time, without changing the tracer |
| Tracer.GetRecentTraces | ecoagent/tools/observability.py:108-119 | a suffix of the shared tracer's traces, of length min(limit, number of traces) for a positive limit |
| Tracer.DefaultRecentTraces | ecoagent/tools/observability.py:108 | with the default limit 5, between one and five traces come back and the newest trace is last |
| Units.DistanceFactor | ecoagent/utils/unit_conversion.py:4-36 | the distance table, every factor positive |
| Units.WeightFactor | ecoagent/utils/unit_conversion.py:39-55 | the weight table, every factor positive |
| Units.EnergyFactor | ecoagent/utils/unit_conversion.py:58-74 | the energy table, every factor positive |
| Units.VolumeFactor | ecoagent/utils/unit_conversion.py:77-92 | the volume table, every factor positive |
| Units.NameOf | ecoagent/utils/unit_conversion.py:4-92 | a key names exactly one unit, and an unlisted key none |
| Units.NameOfSpelling | ecoagent/utils/unit_conversion.py:4-92 | looking up a unit's own spelling finds that unit |
| Units.SpellingsAreLower | ecoagent/utils/unit_conversion.py:110-112 | every table key is already lower case, so lower-casing the input can match it |
| Units.TableFactor | ecoagent/utils/unit_conversion.py:119-123 | an entry of one category's table is positive |
| Units.Factor | ecoagent/utils/unit_conversion.py:119-123 | the merged dict has an entry exactly when one of the four tables has it, and it is positive |
| Units.TablesAreDisjoint | ecoagent/utils/unit_conversion.py:119-123 | no key is in two tables, so the order of the updates never matters |
| Units.Entry | ecoagent/utils/unit_conversion.py:126-133 | a lookup in the merged dict by lower-case key gives a positive factor or nothing |
| Units.UnsupportedExactly | ecoagent/utils/unit_conversion.py:95-135 | convert_units raises exactly when the lower-cased units differ and neither direction is in the tables, with the message naming both |
| Units.ConvertCaseInsensitive | ecoagent/utils/unit_conversion.py:111-112 | the letter case of either unit never changes the outcome |
| Units.SameUnitIsIdentity | ecoagent/utils/unit_conversion.py:115-116 | two spellings of one unit give the value back, even for a unit no table lists |
| Units.ConvertDirect | ecoagent/utils/unit_conversion.py:126-128 | a direct entry multiplies by the factor and rounds to six places |
| Units.ConvertReverse | ecoagent/utils/unit_conversion.py:130-133 | without a direct entry, a reverse entry divides by its factor and rounds to six places |
| Units.DirectEntryWins | ecoagent/utils/unit_conversion.py:126-133 | miles to kilometers has entries both ways, and the direct factor is the one used |
| Units.ConvertListed | ecoagent/utils/unit_conversion.py:110-133 | two different listed units are looked up in the merged dict both ways round |
| Units.EntryOfSpellings | ecoagent/utils/unit_conversion.py:119-127 | the merged dict looked up by two units' spellings is the tables' factor for them |
| Units.MetersToKilometers | ecoagent/utils/unit_conversion.py:183-185 | meters to kilometers multiplies by 0.001 |
| Units.FeetToKilometers | ecoagent/utils/unit_conversion.py:186-188 | feet to kilometers multiplies by 0.0003048 |
| Units.GramsToKilograms | ecoagent/utils/unit_conversion.py:211-213 | grams to kilograms multiplies by 0.001 |
| Units.OuncesToPounds | ecoagent/utils/unit_conversion.py:214-216 | ounces to pounds has only the reverse entry and divides by 16 |
| Units.MegajoulesToKwh | ecoagent/utils/unit_conversion.py:237-239 | megajoules to kWh multiplies by 0.277778 |
| Units.BtuToKwh | ecoagent/utils/unit_conversion.py:240-242 | BTU to kWh multiplies by 0.000293071 |
| Units.CaloriesToKwh | ecoagent/utils/unit_conversion.py:243-245 | calories to kWh has only the reverse entry and divides by 860421 |
| Units.CubicMetersToLiters | ecoagent/utils/unit_conversion.py:268-270 | cubic meters to liters has only the reverse entry and divides by 0.001 |
| Units.MillilitersToLiters | ecoagent/utils/unit_conversion.py:271-273 | milliliters to liters has only the reverse entry and divides by 1000 |
| Units.AliasTargetsAreFinal | ecoagent/utils/unit_conversion.py:280-309 | no alias points at another alias |
| Units.ExpandUnitAlias | ecoagent/utils/unit_conversion.py:312-314 | the expanded unit has no upper-case letter |
| Units.ExpandAliasCases | ecoagent/utils/unit_conversion.py:312-314 | a known alias becomes its full name, any other unit is only lower-cased |
| Units.ExpandIdempotent | ecoagent/utils/unit_conversion.py:312-314 | expanding twice is expanding once |
| Units.ExpandName | ecoagent/utils/unit_conversion.py:312-314 | a listed unit expands to its alias target, or to its own spelling |
| Units.UnitCategory | ecoagent/utils/unit_conversion.py:341-342 | the category is one of the four names or "unknown" |
| Units.UnlistedCategoryIsUnknown | ecoagent/utils/unit_conversion.py:318-342 | a unit the category table does not list is "unknown" |
| Units.AliasesKeepCategory | ecoagent/utils/unit_conversion.py:280-339 | every alias has a category, the same as its full name's |
| Units.CategoryOfExpanded | ecoagent/utils/unit_conversion.py:312-342 | expanding an alias never changes a unit's category |
| Units.EntriesAreCompatible | ecoagent/utils/unit_conversion.py:4-92 | both units of a table entry are of that table's category, or of none |
| Units.GetSupportedUnits | ecoagent/utils/unit_conversion.py:138-163 | no category (None or empty) gives every table; a known name gives its own table; any other name the empty dict |
| Units.NormalizeDistance | ecoagent/utils/unit_conversion.py:166-191 | the result is in miles or kilometers, and an unrecognised unit keeps the value as kilometers |
| Units.NormalizeWeight | ecoagent/utils/unit_conversion.py:194-219 | the result is in pounds or kilograms, and an unrecognised unit keeps the value as kilograms |
| Units.NormalizeEnergy | ecoagent/utils/unit_conversion.py:222-248 | the result is in kWh, and an unrecognised unit keeps the value |
| Units.NormalizeVolume | ecoagent/utils/unit_conversion.py:251-276 | the result is in gallons or liters, and an unrecognised unit keeps the value as liters |
| Units.ConvertSame | ecoagent/utils/unit_conversion.py:115-116 | a full name converts to itself unchanged |
| Units.DistanceAgreesWithConversion | ecoagent/utils/unit_conversion.py:166-191 | for every recognised distance unit, the normalised value is what convert_units gives from the expanded unit into the normalised unit |
| Units.WeightAgreesWithConversion | ecoagent/utils/unit_conversion.py:194-219 | the same for every recognised weight unit |
| Units.EnergyAgreesWithConversion | ecoagent/utils/unit_conversion.py:222-248 | the same for every recognised energy unit except "cal" |
| Units.VolumeAgreesWithConversion | ecoagent/utils/unit_conversion.py:251-276 | the same for every recognised volume unit |
| Units.CalIsNormalisedAsCalories | ecoagent/utils/unit_conversion.py:243-245 | "cal" is normalised by dividing by 860421, as calories are |
| Units.CalIsNotAnAlias | ecoagent/utils/unit_conversion.py:280-309 | "cal" is not in the alias table and expands to itself |
| Units.CalDoesNotConvert | ecoagent/utils/unit_conversion.py:58-74 | convert_units cannot take "cal" to kWh, since no table lists "cal" |
| Units.ConvertWithContext | src/tools/unit_converter.py:10-85 | the report always echoes the original value and unit; a success carries the target unit, both expanded units, the source's category and that category's context line; a failure carries the target unit |
| Units.IncompatibleCategoriesRefused | src/tools/unit_converter.py:37-43 | two known, different categories are refused with the incompatible-categories message before any conversion |
| Units.UnknownCategorySkipsCheck | src/tools/unit_converter.py:37-46 | with an unknown category on either side, the tool fails exactly when convert_units does on the expanded units |
| Units.EntryPassesCheck | src/tools/unit_converter.py:37 | the two keys of any table entry always pass the category check |
| Units.CategoryCheckOnlyChangesTheMessage | src/tools/unit_converter.py:30-61 | the tool succeeds exactly when convert_units on the expanded units does, reporting that value rounded once more |
| Units.TableResultIsRounded | ecoagent/utils/unit_conversion.py:126-133 | a table conversion is already rounded to six places |
| Units.TableValueReportedUnchanged | src/tools/unit_converter.py:61 | the tool's second rounding never changes a table conversion |
| Units.AliasesAreNotInTables | ecoagent/utils/unit_conversion.py:95-135 | convert_units itself does not know "mi" or "km" |
| Units.AliasesExpandedFirst | src/tools/unit_converter.py:30-69 | the tool converts "mi" to "km" as miles to kilometers, in the distance category |

## Left out

- Concurrency: the services' locks and the database's per-thread connections are not modelled. Every call runs atomically, one after another.
- SQL text, JSON encoding of rows, connections and the exception-to-error mapping are not modelled. Each store table is a map of typed rows.
- Logging is not modelled: `EcoAgentLogger`, `log_metric`, `log_tool_execution`, `traced_function`'s logger and `setup_logging_for_agent`. It has no effect on the state.
- The module-level singletons (`operations_manager`, `delegation_tracker`, the shared tracer, `get_session_registry`) are passed as explicit arguments.
- Some read-only summary reports are not modelled: the `get_summary` methods of `MemoryBank`, `InMemoryMemoryBank`, `PersistentSessionService` and `ContextWindow`; `SessionRegistry.get_status`; and the tools `get_memory_bank_summary`, `get_session_summary`, `get_context_summary` and `get_context_data`. They only count and format existing state. The session summaries of `SessionManager` and `InMemorySessionService` are modelled (`Sessions.SessionManager.Summary`, `Services.InMemorySessionService.Summary`), and so is `ContextWindow.get_window_data`, which `get_context_data` returns.
- Some secondary service and tool wrappers are not modelled. In `ecoagent/sessions_and_memory.py` these are the tools `get_active_session`, `pause_session`, `resume_session` and `consolidate_memories`, and in `ecoagent/context_engineering.py` the tool `compact_context`. They delegate to modelled methods: `GetActiveSession`, `PauseSession`, `ResumeSession`, `ConsolidateMemories` and `ContextWindow.Optimize`.
- These lookups are not modelled at service level: `PersistentSessionService.get_user_sessions` and `get_active_sessions`, `PersistentMemoryBank.get_user_memories`, and `InMemorySessionService.get_session`. They are plain lookups. `Store.UserSessionRows` and `Store.FindMemory` give the rows the persistent ones read. `PersistentSessionService.get_messages` is modelled by `Services.PersistentSessionService.Messages`.
- `SessionRegistry.get_active_session`, `add_memory` and `search_memories` are not modelled. They forward to the backend methods that are modelled.
- Memories.DecayFactor: `0.977 ** days` is exact at whole days and linear between them, within 1e-4 relative error. This is because there is no exponential over the reals. Its range and monotonicity are proved about this curve.
- Numbers are reals, so floating-point rounding of intermediate results is not modelled. `round(x, d)` rounds ties up rather than to even, so results differ from Python's only at exact binary ties.
- `int()` on a float truncates toward zero, and the model writes that out.
- Text is ASCII-only. `Prelude.Lower` and `Prelude.Upper` map only the letters A-Z and a-z and keep every other character. Python's `str.lower()` and `str.upper()` also map non-ASCII letters, and can change a string's length ('ß'.upper() is "SS"). `Prelude.IsSpace` holds the ASCII whitespace and \x1c-\x1f that `str.split()` separates on, but not U+0085, U+00A0 or the other Unicode spaces. The members below rest on this.
- Memories.Relevance: the query and content are lowered and split with the ASCII-only helpers.
- Memories.EnumError: the names are upper-cased with the ASCII-only helper. Python would parse "crıtıcal" (with dotless i) as CRITICAL, which the model reports as an error.
- Context.ManageError: the names are upper-cased with the ASCII-only helper, with the same effect on non-ASCII spellings as in `Memories.EnumError`.
- Units.SameUnitIsIdentity: a unit and its upper-cased spelling convert as the identity. This holds for the ASCII case mapping only. In Python, "ß".upper() is "SS", which lower-cases to "ss", not "ß", so `convert_units` raises for that pair.
- Carbon.SameUnitSucceeds: rests on `Units.SameUnitIsIdentity`, so it also holds only for the ASCII case mapping. In Python the unit "ß" against "SS" raises.
- Community.Matching: the substring test lowers interests and challenge texts with the ASCII-only helper.
- Tracer.KindOf: the keyword test lowers the input with the ASCII-only helper.
- Services.MatchingRows: the query is matched as a literal substring. In SQLite's `LIKE`, a `%` or `_` inside the query is a wildcard, so the source can match rows that the model does not. The case-insensitive match is ASCII-only in SQLite too.
- Services.Store.SearchMemoryRows: inherits the literal matching of `Services.MatchingRows`.
- Context.RelevanceScore: requires the age not to be exactly minus one day. At that age the source divides by zero and raises `ZeroDivisionError`. An age is negative only when an item's timestamp lies in the future.
- Context.ContextWindow.Optimize: the exact number of items kept (`KeptCount` of the unexpired ones) is stated by `Context.ContextWindow.CompactLive` and `Context.ContextWindow.CompactItems`, which `optimize` runs. It is not restated in terms of the report, because that proof is too costly for the verifier.
- Python's `str()`, `repr()` and `json.dumps` renderings of a non-string scalar (a number, a bool, None) are carried inside the value (`Prelude.Value`) rather than computed. Strings, lists and dicts are rendered by the model.
- Prelude.PyRepr: characters from U+0100 up that `str.isprintable()` rejects (U+2028, for one) are kept as they are, where Python writes them as `\uXXXX` or `\UXXXXXXXX`. Below U+0100 the escapes are Python's.
- Services.ParseMemoryRow: a stored row with a negative access count is rejected, because `Memory.accessCount` is a natural number. The source would load it.
- MemoryTools.ToolState.MemorizeList: any non-list value under the key raises and leaves the state unchanged. The source does not raise when that value is a string or dict that already contains the new item; it returns the value's length instead. For a value that does not support `in`, the source raises `TypeError` rather than `AttributeError`.
- Memories.Memory.StrengthAt: pure reads of strength do not write the recomputed decay factor back. `Memories.Memory.GetStrength` models the write-back.
- Services.PersistentMemoryBank.SearchMemories: the persistent search ignores the tag filter, as the source does. The in-memory banks apply it.
- Operations.OperationStore.UserOperations: `ORDER BY created_at DESC` is modelled with ties kept in row order. SQLite does not fix the order of ties.
- Operations.LatestCheckpoint: `ORDER BY created_at DESC LIMIT 1` is modelled as the checkpoint saved last. `created_at` is `CURRENT_TIMESTAMP`, which has one-second resolution, so two checkpoints saved within one second tie, and SQLite may return either of them.
- Operations.LatestAfterSave: states that the checkpoint just saved is the latest. That holds only under the tie order above, not for a checkpoint saved in the same second as an earlier one.
- `ContextItem.metadata` is not modelled: the window never sets it.
- Sessions: the `EXPIRED` status is never assigned by the source, and the model never assigns it either.
- `purge_context` called without a number of hours (or with 0) purges nothing, as written. The model keeps that behaviour.
- Units: no contract states that conversion is monotone in the value or keeps its sign. Instead, each unit pair's factor and direction are proved.
- OperationTools.GetOperationHistoryTool: the records are in logging order, and a known operation's first record is "created". The source reads them with `ORDER BY timestamp ASC`, where `timestamp` is `CURRENT_TIMESTAMP` with one-second resolution (ecoagent/operations.py:83). `start_long_running_operation` logs "created" and "started" within the same second, so SQLite may return them in either order.
- Operations.LongRunningOperation.GetOperationHistory: states logging order and a first record "created" under the same assumption. Records logged within one second tie in `ORDER BY timestamp ASC`, and SQLite does not fix the order of ties.
- Services.Store.SessionMessages: the result is the first 100 messages of the session in logging order. `ORDER BY timestamp ASC LIMIT ?` sorts by a one-second `CURRENT_TIMESTAMP` (ecoagent/database.py:138), so messages added within one second may come back in either order, and past 100 messages SQLite may pick a different subset of the tied ones.
- Services.PersistentSessionService.Messages: returns `Services.Store.SessionMessages`, with the same tie-order assumption.
- Sessions.Activated: the deadline is the start stamp plus the TTL, from one `now`. `Session.activate` reads `datetime.now()` twice (ecoagent/sessions_and_memory.py:115-116), so the source's deadline lies later by the time between the two reads.
- Sessions.Session.Activate: inherits the single clock read of `Sessions.Activated`.
- `log_interaction` reads the clock twice: for the trace and for the reply. The model uses one `now` for both.
- Aliasing: where the source hands out a reference to a list or dict it keeps, later mutation through that reference is not modelled. Results are values.

## Findings

| source | as written | input that shows it | evidently intended | confidence | as-written member | corrected member |
|---|---|---|---|---|---|---|
| ecoagent/sessions_and_memory_services.py:270-281 | `cleanup_expired` scans `get_user_sessions("*")`, which matches the user id "*" literally | a store holding one ACTIVE session of user "alice" whose `expires_at` has passed: it stays open and the count is 0 | every stored session is scanned, and each expired one is closed | high; not executed | Services.PersistentSessionService.CleanupExpired, Services.CleanupStarMissesExpiredSession | Services.PersistentSessionService.CleanupExpiredAll |
| ecoagent/sessions_and_memory_services.py:689-701 | with persistence, `create_session(..., activate=True)` saves the activated row but returns the CREATED session object | `SessionRegistry(use_persistence=True).create_session("u", activate=True)` returns status CREATED while the store holds ACTIVE | the caller gets the activated session, as the in-memory path gives it | medium; not executed | Services.SessionRegistry.CreateSession, Services.CreatedIsNotActivated | Services.SessionRegistry.CreateSessionActivated |
| ecoagent/context_engineering.py:249-251 | `if ttl_seconds:` treats a TTL of 0 like no TTL, so the item never expires | `add_item("k", v, t, ttl_seconds=0)`, then `cleanup_expired()` a moment later removes nothing | a TTL of 0 expires the item at once; the tests at tests/test_context_engineering.py:297-314 expect a positive count | high; not executed | Context.ExpiryFor, Context.ZeroTtlNeverExpires | Context.IntendedExpiryFor, Context.IntendedZeroTtlExpires, Context.ContextWindow.AddItemIntended |
| ecoagent/tools/operations.py:371-383 | the listed `pause_reason` is read from a database row that has no such column, so it is always None | pause an operation with reason "waiting", then `list_paused_operations()` lists it with `pause_reason` None | the reason the operation was paused with | high; not executed | OperationTools.ListPausedOperations, OperationTools.PausedListDropsReason | OperationTools.ListPausedOperationsIntended, OperationTools.IntendedListKeepsReason |
| ecoagent/tools/operations.py:199-204 | the reported `duration` reads a key the operation record never has, so it is always None | start, then complete an operation: the reply's `duration` is None | the duration `_calculate_duration` logs with the completion | high; not executed | OperationTools.CompleteOperationTool | OperationTools.CompleteOperationToolIntended |
| src/tools/delegation.py:174-185 | `get_delegation_stats` counts `get_delegation_history(user_id)`, which keeps only the last 10 records | eleven delegations for one user: `total_delegations` is 10 | the totals cover the user's whole history | low; not executed | Delegation.GetDelegationStats, Delegation.StatsSeeOnlyTen | Delegation.GetDelegationStatsIntended |
