# SubGlance: a verification model

SubGlance is a self-hosted uptime monitor written in Go. This project models the parts of it where state, loops and
arithmetic carry a promise about every run, and proves those promises in Dafny. `dafny verify dfyconfig.toml` checks
the whole project.

Six groups:

1. **Configuration import and export.** A file is planned on a snapshot, then written one store call at a time
   without a transaction, and any call can fail. The store is a set of maps by id with one-to-one tables of
   configuration keys (`ConfigStore`, `ConfigCalls`), and what a file can know of it is a view without ids. One
   notion, a keyed section that is between its old and its target state (`KeyedMerge`), gives the main result:
   importing the same file again completes it, after any number of failures anywhere. A plan reports an object as
   unchanged exactly when it is as the file describes it (`ConfigReport`). The exporter is proved to write the whole
   configuration (`ConfigWrite`), and planning an instance's own export to have nothing to write exactly when no
   channel that waits for a setting is switched on.
2. **The monitor patch engine.** About thirty optional fields are merged into a record in place, with rules judged
   only when certain fields are sent. One invariant (`MonitorInvariant.Sound`) holds after every run of create and
   patch, and a repeated patch is the identity.
3. **The hash-memory release protocol.** Semaphore, atomic counter, mutex and timer as atomic steps of any number of
   callers: safety after every interleaving, no deadlock, and everything released once the system comes to rest.
4. **Seeder history.** Heartbeats, hourly buckets and incidents made from one list of outages agree with each other,
   and the rollup equals the beats it stands for.
5. **Limiters, caches and recoverable protocols.** Token buckets with sweeping, the generation-guarded logo cache,
   restore with undo, and backup retention over any history of failing runs.
6. **Encoders and parsers.** Request signing (RFC 3986 sections 2.1 and 2.3), the IPv6 serializer of the WHATWG URL
   Standard, the If-Match parser (section 13.1.1 of RFC 9110) and cutting of UTF-8 text (section 4 of RFC 3629).

How the model stands to the code:

- Code that updates things in place is imperative here too: the monitor record, the store, the channel, header, DNS
  and key loops, the apply loops, token buckets, the logo cache, the disk, the backup runner, the seeder's loops, and
  the byte loops of the encoders and parsers. Each method is proved against a function or relation, and the promises
  are proved of those.
- Concurrent code is a state machine over its atomic steps, its clock an argument of the steps.
- Checks of other packages are function values in `Rules` and `Platform`, with only the laws their callers rely on
  (`MonitorRules.Lawful`, `ConfigModel.Dependable`): tags, pins and assertions that were accepted and stored are accepted
  again and stored unchanged, text folding is idempotent, a dialled target of a known type is not blank, and a webhook's
  full header rules include the form of its lines and accept the line that stands for withheld ones. What is kept of a
  channel's settings saved under earlier rules is written out as the code has it (`ConfigChannels.Edited`), not assumed.
  `PlainPlatform` shows that the laws can be met together, by a sender whose rule came after some channels were saved.
- A store call that fails has no effect, and deleting an object that was just created succeeds. That an import holds
  its promises after a failure is therefore the statement that they hold after every prefix of its calls.

What the proofs found in the code, kept as it is in the model:

- A file that sends an http monitor's `method`, `expected_status` or `keyword_mode` as empty text is reported as an
  update on every plan, because the plan compares the empty text with the default the store keeps for it. The
  configuration itself converges. `ConfigMonitors.MonitorUnchangedTwice` gives the exact condition,
  `ConfigMonitors.EmptyModeIsAlwaysAChange` and `EmptyStatusIsAlwaysAChange` entries that every sound http monitor
  accepts and that show it, and `ConfigReport.PlanAfterImport` what it comes to for a whole file.
- A PATCH can give a push monitor a target, which create refuses. `MonitorCreate.PushTargetStaysEmpty` gives the exact
  condition, `MonitorCreate.PushTargetIsAccepted` the request.
- The seeder's incidents and beats agree for every `--history`, which rests on its catalogue: the scripted failures
  that never end began at most 40 hours before the end (`cmd/seed/catalogue.go:296`, `353`, `525` and `585`). An open
  outage keeps others away for a year only (`overlaps`), so a profile with an older one could get a second failure
  behind it. `SeedStory.BuildHistory` promises agreement for every profile whose open failures are at most a year and
  four intervals old, and for every history no longer than that; `SeedOutages.RoomDecides` shows that the condition
  is exact for each open failure, against every list of failures that end, and `SeedStory.LongHistoryCanBreak` gives
  for every longer history a profile, none in the catalogue, that breaks it. For one given profile whether
  it breaks also depends on which of the other outages are kept, which only running the loop tells.

## Model

| member | source | states |
|---|---|---|
| MonitorInvariant.PatchKeepsSound | internal/api/monitors.go:1660-1952 | An accepted PATCH of a sound monitor leaves a sound one, although each cross-field rule is judged only when certain fields are sent or changed: timeout within 80% of the interval unless push, DNS settings exactly on a DNS monitor, JSON assertion only on http, no body check on HEAD, domain interval floor, pin only where one applies, zone only with whole-day push intervals, nothing set that the type never reads |
| MonitorInvariant.StoreKeepsSound | internal/store/monitors.go:438-470 | The defaults the store fills in keep a monitor sound, and a stored row is a fixed point of them |
| MonitorInvariant.PatchTwiceIsOnce | internal/api/monitors.go:1660-1952 | The same PATCH sent again is accepted and changes nothing, at any later time, the time the pin was set included, also through the defaults the store filled in between |
| MonitorInvariant.AcceptedFromEcho | internal/api/monitors.go:1660-1952 | A PATCH accepted once is accepted from every monitor that echoes what it left, and changes only what that monitor holds differently in fields the request sends |
| MonitorInvariant.PatchKeepsNothingIdle | internal/api/unread_settings.go:94-135 | Judging only requested settings, or all when the type changed, keeps every setting the type never reads at its default |
| MonitorInvariant.PatchKeepsPin | internal/api/trusted_cert.go:71-90 | A pin survives only on a monitor that can carry one, and an unpinned monitor has no pin time |
| MonitorInvariant.PatchKeepsDns | internal/api/dns_check.go:88-100 | What a PATCH leaves of the DNS settings is a form that is accepted and stored unchanged |
| MonitorCreate.CreateIsSound | internal/api/monitors.go:590-716 | Every request create accepts is stored as a sound monitor |
| MonitorCreate.EveryRunIsSound | internal/api/monitors.go:1519-1622 | After any run of one create and accepted or refused patches the stored monitor is sound |
| MonitorCreate.PushTargetStaysEmpty | internal/api/monitors.go:1696-1709 | A push monitor without a target stays without one after an accepted PATCH if and only if the request sends none: the PATCH rules have no case that refuses it |
| MonitorCreate.PushTargetIsAccepted | internal/api/monitors.go:1696-1709 | The input that shows it: every such monitor accepts a PATCH that gives it a target |
| MonitorRules.UnreadSettingsProblem | internal/api/unread_settings.go:94-105 | The loop finds no problem exactly when no judged setting that the type never reads differs from its default, and otherwise names the first in report order |
| MonitorRules.DnsCheckFromWire | internal/api/dns_check.go:37-81 | The loop accepts a request exactly when its record type is known, it lists at most twenty values, each valid once trimmed and no two of them the same record, and its resolver is empty or valid; it returns the values and the resolver trimmed, in order |
| MonitorRules.DnsValuesMeaning | internal/api/dns_check.go:37-81 | The values read so far are accepted if and only if each is valid once trimmed and no two of them have one key, and come back trimmed, in order |
| MonitorRules.StoredIdempotent | internal/store/monitors.go:438-470 | Filling in defaults twice is filling them in once |
| MonitorRecord.Record.Apply | internal/api/monitors.go:1660-1952 | Overwriting the record field by field, with each rule judged between the writes, ends in the merge of the request or at the first refusal in the order the code judges them |
| MonitorRecord.Record.ApplyUnread | internal/api/unread_settings.go:119-135 | Settings the new type does not read and the request does not send go back to their defaults before the rest is judged |
| MonitorRecord.Record.ApplyDomain | internal/api/domain_check.go:55-75 | The domain fields of the record after the stage, or the field it refuses |
| MonitorRecord.Record.ApplyDns | internal/api/dns_check.go:144-153 | The DNS settings of the record after the stage, or the refusal |
| MonitorRecord.Record.ApplyTargetAndPin | internal/api/trusted_cert.go:71-90 | The pin and its time after the stage, or the refusal of a target or a pin |
| KeyedMerge.Converges | internal/api/config_import.go:929-1018 | From any state in which writing one section can have stopped, the same entries are accepted and end where the first attempt would have ended |
| KeyedMerge.StoppedIsBetween | internal/api/config_import.go:929-1018 | Stopping inside the n-th entry leaves a state between the old section and the finished one |
| ConfigChannels.DestinationChange | internal/api/channel_destination.go:55-65 | Reports a change exactly when some destination setting of the type differs, defaults filled in |
| ConfigChannels.Resolve | internal/api/config_import.go:323-397 | The loops over a file's settings give each placeholder the stored value it stands for, drop held values when the channel is sent elsewhere or phone numbers when the country code changes, and report what is missing |
| ConfigChannels.Asker.AddAll | internal/api/config_export.go:172-196 | The loop ends, and adds exactly the settings the importer asks for one after another |
| ConfigChannels.ResolvedTwice | internal/api/config_import.go:323-397 | From the channel it left, an entry's placeholders resolve to the same values and the same settings are missing |
| ConfigChannels.AcceptedTwice | internal/notifier/notifier.go:1004-1025 | Settings an import accepted are accepted again beside what was saved of them, stand-ins left out: settings left as saved are kept whatever rules came later, a webhook's kept header lines are held to their form, and anything else to every rule |
| ConfigChannels.JudgedAsHeldHasNoStandIn | internal/api/config_import.go:323-397 | Judged settings equal to the saved ones hold no stand-in: a value that could have been kept was kept |
| ConfigChannels.ChannelTwice | internal/api/config_import.go:296-459 | Planning an entry on the channel it made makes the same channel |
| ConfigChannels.ChannelStable | internal/api/config_import.go:1020-1064 | Planned on anything its two writes can have left, an entry makes the same channel and quiet hours |
| ConfigMonitors.ResolveHeaders | internal/api/config_import.go:590-668 | The loop gives each withheld header the stored value, and reports exactly those the instance has none for |
| ConfigMonitors.MonitorStable | internal/api/config_import.go:500-668 | Planned on anything writing it can have left, a monitor entry makes the same monitor with the same channels |
| ConfigMonitors.MonitorUnchangedTwice | internal/api/config_import.go:720-744 | Planned again, an entry reports its monitor unchanged if and only if it does not send an http monitor's method, expected status or keyword mode as empty text |
| ConfigMonitors.EmptyModeIsAlwaysAChange | internal/api/config_import.go:720-744 | An input that shows it: every sound http monitor accepts an entry with just an empty keyword mode, keeps the default, and differs from what is planned each time |
| ConfigMonitors.EmptyStatusIsAlwaysAChange | internal/api/config_import.go:720-744 | The same for an empty expected status |
| ConfigMonitors.UndatedNext | internal/api/config_import.go:500-668 | What an entry leaves does not depend on the clock, but for the time of a new pin |
| ConfigSound.ImportCreatesAlike | internal/api/config_import.go:500-668 | An entry with a new key makes the row the API makes of the same create request |
| ConfigSound.ImportKeepsSound | internal/api/config_import.go:500-668 | Every monitor an import creates, or changes from a sound one, is sound |
| ConfigOwnMonitor.OwnMonitorUnchanged | internal/api/config_export.go:214-279 | A sound monitor's own export is accepted back, its withheld headers and body resolve to the stored ones, and no field differs |
| ConfigRules.RuleStable | internal/api/config_import.go:746-796 | Planned on a rule whose exclusions are only partly written, an entry makes the same rule |
| ConfigRules.WindowsConverge | internal/api/config_import.go:798-893 | From a prefix of the new windows the rest is accepted, and the instance ends with the same windows, counted once each |
| ConfigRules.NothingNew | internal/api/config_import.go:798-893 | Once its windows are there, a file adds none |
| ConfigPages.NeverShownHalfBuilt | internal/api/config_status_pages.go:253-295 | In every state writing one page can stop in, visitors see its old entries, its final ones or nothing; a page created or switched on shows final entries only, one switched off never shows new ones |
| ConfigPages.PageStable | internal/api/config_status_pages.go:84-158 | Planned by slug on any of those states, an entry finishes the same page |
| ConfigSpec.NoPageShownHalfBuilt | internal/api/config_status_pages.go:253-295 | The same for every page of the instance, wherever a whole import stopped |
| ConfigSpec.ImportAgain | internal/api/config_import.go:182-273 | From every view a failed import can leave, the same file is accepted, and ends in the configuration one uninterrupted import would have left, windows compared as sets |
| ConfigSpec.EveryAttemptCanComplete | internal/api/config_import.go:916-1018 | The same after any number of attempts, each stopping anywhere |
| ConfigSpec.TargetOfTarget | internal/api/config_import.go:182-273 | Importing a file into the configuration it made changes nothing |
| ConfigSpec.NextPlanIsUnchanged | internal/api/config_import.go:720-744 | In the configuration an import leaves, every object is as the same file describes it, except exactly the monitors it sends a setting of as empty text |
| ConfigReport.PlanReports | internal/api/config_import.go:257-271 | Entry for entry, the steps of a plan report an object the instance lacks as created, one that is as the file describes it as unchanged, and any other as updated; no step writes anything if and only if every object is as described |
| ConfigReport.PlanAfterImport | internal/api/config_import.go:182-273 | Planning a file again after its import ran through gives a plan without a writing step, if and only if the file sends no http monitor's method, expected status or keyword mode as empty text |
| ConfigReport.UnchangedIsTarget | internal/api/config_import.go:916-1018 | A file of which every object is reported unchanged is one whose import leaves the configuration as it is |
| ConfigPlan.PlanImport | internal/api/config_import.go:182-273 | A file is refused exactly when the instance's view does not accept it; otherwise the plan fits: each step makes what the file's rule makes of the object that is there, and writes only what differs |
| ConfigPlan.PlanChannelRow | internal/api/config_import.go:296-459 | The channel a file's entry leaves, or the refusal, for every mix of absent and present fields |
| ConfigPlan.PlanMonitorRow | internal/api/config_import.go:500-668 | The row a file's entry leaves of a monitor, or the refusal |
| ConfigPlan.PlanRule | internal/api/config_import.go:746-796 | The step decided for a routing rule makes the rule the file describes, sends channels or exclusions only when they differ, and so writes nothing for a rule that is so already |
| ConfigPlan.PlanPage | internal/api/config_status_pages.go:84-158 | The step decided for a page makes the page the file describes, and writes only what differs |
| ConfigPlan.SameIds | internal/api/config_import.go:702-716 | Says yes exactly when the objects a file names are the ones the instance has |
| ConfigApplyChannels.ApplyChannel | internal/api/config_import.go:1020-1064 | One channel's calls end in the channel planned, or stop where planning it again finishes it; a channel without its key is never left behind |
| ConfigApplyMonitors.ApplyMonitor | internal/api/config_import.go:950-990 | The same for a monitor's row, key and channels |
| ConfigApplyRules.ApplyRule | internal/api/config_import.go:1066-1106 | The same for a routing rule: exclusions lie between the old and the new ones at every stop |
| ConfigApplyPages.ApplyPage | internal/api/config_status_pages.go:261-295 | The same for a page: it stops only in states in which it is not shown half built |
| ConfigImport.ApplyImport | internal/api/config_import.go:929-1018 | The calls, any of which can fail, end in the file's target configuration, or in a view that an import stopped part way can leave |
| ConfigRuns.Import | internal/api/config_import.go:182-273 | One import is refused without a write, completes in the target, or stops in such a view |
| ConfigRuns.ImportAgainUntilComplete | internal/api/config_import.go:916-1018 | Importing the same file until an attempt runs through leaves the configuration the first attempt would have left; until then the file stays importable |
| ConfigExport.ExportChannelConfig | internal/api/config_export.go:135-151 | The settings a file shows: public and empty ones as they are, others withheld, and those still to be filled in |
| ConfigExport.OwnPlaceholders | internal/api/config_export.go:135-196 | Every placeholder of a channel's own export resolves to exactly the stored value, and what is missing is what it says is to be filled in |
| ConfigExport.OwnChannelUnchanged | internal/api/config_export.go:33-128 | A channel's own export plans as unchanged if and only if the channel meets the current rules and is off while a setting is still to be filled in |
| ConfigExport.OwnExportIsUnchanged | internal/api/config_export.go:33-128 | An instance that meets the current rules accepts its own export, and is as that describes it if and only if every listed channel with a setting to be filled in is switched off |
| ConfigWrite.ExportConfig | internal/api/config_export.go:33-128 | On any instance, the exporter writes every channel, monitor, rule and page once, and of the maintenance windows exactly those that have not ended, each once and in order; into an instance that meets the current rules its file is accepted back |
| ConfigReport.PlanOwnExport | internal/api/config_export.go:33-128 | Exported and planned again, an instance that meets the current rules gets a plan without a writing step, if and only if every channel with a setting to be filled in is off |
| ConfigKeys.DeriveKey | internal/configfile/parse.go:35-62 | The loop ends with a key that is free: the base, or the base with the first number for which it is |
| ConfigKeys.AssignKeys | internal/api/config_export.go:341-367 | Objects that have a key keep it, no two objects share one, and all have one when no call failed |
| HashRelease.EveryRunIsSafe | internal/auth/auth.go:109-201 | After every interleaving of any number of callers and timers: at most four argon2 calls are running; at most one timer is outstanding; release stamps are an interval apart; and when a hash has ended since the last release and none is in flight, a release is coming |
| HashRelease.SafeKept | internal/auth/auth.go:122-201 | Each atomic step of idKey, scheduleRelease and runRelease keeps the counters, the mutex, the timing and the release that is coming |
| HashRelease.SomebodyCanMove | internal/auth/auth.go:122-201 | No deadlock: while a caller or a timer has anything left to do, one of them can move, at once or after waiting |
| HashRelease.MovesAreBounded | internal/auth/auth.go:122-201 | Once no new caller arrives, every run makes only boundedly many moves |
| HashRelease.AtRestIsReleased | internal/auth/auth.go:134-201 | When nobody can ever move again, every caller and timer has finished, the semaphore is empty and all memory has been released |
| SeedOutages.ResolveOutages | cmd/seed/history.go:174-237 | The loops keep the scripted and random outages that can be shown and are not too close to one kept before |
| SeedOutages.ResolvedIsWell | cmd/seed/history.go:174-252 | Kept outages all show inside the history, lie four intervals apart, and an unconfirmed one ends by what would be its confirming check |
| SeedOutages.NoRoomNeverFollowed | cmd/seed/history.go:174-252 | When each open failure asked for leaves no check before the end that is a year and four intervals behind it, no kept failure begins behind one that is still going, whatever the length of the history |
| SeedOutages.RoomDecides | cmd/seed/history.go:174-252 | For each open failure the condition is exact: it is never followed, whatever failures that end are asked for beside it, if and only if it leaves no such room |
| SeedOutages.CoveredOnce | cmd/seed/history.go:40-45 | No moment lies in two kept failures, unless one begins behind one that is still going |
| SeedStory.IncidentMatchesSamples | cmd/seed/history.go:272-320 | Read off the grid: an incident starts at its first failing check, is confirmed at the max(1, retries)-th one exactly when there are that many before the horizon, and is resolved at the passing check after the last, when that is before the horizon |
| SeedStory.UnconfirmedStaysSo | cmd/seed/history.go:182-195 | An outage marked unconfirmed has no confirmed incident, and none of its checks is assessed as down |
| SeedStory.OneStory | cmd/seed/history.go:12-21 | Every kept incident's window is exactly its failing beats, if and only if no failure begins behind one that is still going |
| SeedStory.ProfileNeverFollowed | cmd/seed/history.go:174-252 | A profile whose scripted open failures leave no room behind them gets no such pair, at any length of its history and with any random draws |
| SeedStory.RecentLeaveNoRoom | cmd/seed/catalogue.go:296-585 | Open failures at most a year and four intervals old leave no room at any length of the history, and none does in a history no longer than that |
| SeedStory.LongHistoryCanBreak | cmd/seed/history.go:242-252 | What the condition is for: for every history, and every age of an open failure that leaves room behind it, a profile, none in the catalogue, whose incident its beats contradict |
| SeedStory.BeatAgrees | cmd/seed/history.go:323-376 | A beat fails exactly while an incident is open, and is down exactly while a confirmed one is |
| SeedStory.BuildHistory | cmd/seed/history.go:72-123 | Beats, buckets and incidents of a monitor tell one story, and beats and buckets together count every check of the history once; they agree for every profile whose open failures leave no room, for one whose open failures are at most a year and four intervals old, and for every history no longer than that |
| SeedHistory.BuildBeats | cmd/seed/history.go:323-366 | One beat for every check on the grid from the start on and before the end |
| SeedHistory.BuildBuckets | cmd/seed/history.go:479-540 | Rolling up straight from the outages gives the rollup of the beats there would have been, hour by hour, in all five counters |
| SeedHistory.RollupConserves | cmd/seed/history.go:479-540 | A rollup counts each of its beats exactly once |
| SeedGrid.SamplesSplit | cmd/seed/history.go:111-122 | The checks of two adjoining stretches are the checks of both together, none twice |
| RateLimit.TokenBucket.Allow | internal/api/push.go:450-466 | Accepts exactly when the refilled bucket holds a token, and leaves the bucket one token less |
| RateLimit.AtMostBurstAndForwardSteps | internal/api/push.go:436-466 | At any times, a stretch of calls has at most burst + rate * (the steps its clock takes forward, added up) accepted, whatever the bucket held before |
| RateLimit.AtMostBurstAndRate | internal/api/push.go:436-466 | At nondecreasing times that is burst + rate * length |
| RateLimit.SpacedIsAccepted | internal/api/push.go:450-466 | With a burst of at least one, a call 1/rate after the one before it is never refused |
| RateLimit.BackwardsClockBreaksTheBound | internal/api/push.go:450-466 | The input that shows that the time from first to last does not bound a clock that steps back |
| RateLimit.IpBuckets.Allow | internal/api/push.go:486-508 | The answer and the map after a call, with the sweep when it is due; no two addresses ever share a bucket |
| RateLimit.IpBuckets.Sweep | internal/api/push.go:492-499 | Drops exactly the full buckets |
| RateLimit.SweepingIsInvisible | internal/api/push.go:468-508 | Every call is answered as if each address had a bucket that is never dropped |
| RateLimit.SweptIsRecent | internal/api/push.go:468-499 | A bucket a sweep leaves was used less than burst/rate seconds ago |
| LogoCache.PublicLogos.Put | internal/api/status_page_logo.go:243-253 | Keeps the file exactly when no forget came since the generation was taken |
| LogoCache.KeptUntilForgotten | internal/api/status_page_logo.go:233-260 | A file put under the current generation is served until it expires or a forget comes, through any run of puts of other names, or under other generations |
| LogoCache.ForgottenStaysEmpty | internal/api/status_page_logo.go:243-260 | After a forget, any run of puts under generations taken before it leaves the cache empty |
| LogoCache.PublicLogos.Serve | internal/api/status_page_logo.go:266-300 | A visitor is shown the cached file, or past the rate limits the published one, which is then cached; a name that is not published is not found and leaves no trace |
| LogoCache.StepsAreServe | internal/api/status_page_logo.go:266-300 | The atomic steps of a request, run without an interruption, leave the cache one request leaves |
| LogoCache.EveryRunIsCoherent | internal/api/status_page_logo.go:211-298 | After every interleaving of requests and administrators, unless one is between a write and its forget, every cached file is what the database publishes under that name |
| LogoCache.CachedAnswersArePublished | internal/api/status_page_logo.go:266-275 | A visitor answered from the cache then sees what is published |
| LogoCache.GenerationIsNeeded | internal/api/status_page_logo.go:211-253 | Without the generation check one request that straddles a change leaves a removed file in the cache |
| Restore.Disk.Restore | internal/backup/restore.go:65-132 | A failure at any call leaves the files as they were; success puts the checked backup in place and keeps each old file, byte for byte, under a name that keeps SQLite's pairing |
| Restore.Disk.PutBack | internal/backup/restore.go:138-142 | Undoing the renames newest first ends at the state before the first one |
| Restore.Disk.MoveAside | internal/backup/restore.go:104-122 | Either every part there is has been set aside, with the trail to undo it, or nothing has changed |
| Restore.SetAsideAt | internal/backup/restore.go:104-122 | Where every file is after the first n parts were set aside, for the parts, their new names and everything else |
| BackupNames.NameOrder | internal/backup/backup.go:70-76 | For years of four digits, name order is time order, and different times have different names |
| BackupNames.NameHasShape | internal/backup/backup.go:70-76 | Every name a run writes is one that pruning recognises |
| Retention.Backups.RunOnce | internal/backup/backup.go:208-288 | A run that did not upload deletes nothing, one whose pruning failed deleted only expired backups, a clean one all of them; a second run beside it is refused |
| Retention.Backups.List | internal/backup/backup.go:292-325 | The backups under the prefix, oldest first, each once, and nothing else |
| Retention.Backups.Prune | internal/backup/backup.go:328-342 | Only expired backups are deleted, and all of them when no call failed |
| Retention.CleanRunLeavesNewest | internal/backup/backup.go:208-257 | After a clean run exactly the newest min(n, keep) backups are left |
| Retention.NewestAlwaysThere | internal/backup/backup.go:204-257 | After any history of runs, failing anywhere, the newest keep of all backups ever taken are in the bucket |
| Retention.OthersAlwaysThere | internal/backup/backup.go:70-74 | A key that is not shaped like a backup is never deleted |
| UriEncoding.UriEncode | internal/backup/sigv4.go:159-177 | The byte loop writes the percent-encoding of its argument |
| UriEncoding.DecodedOfEncoded | internal/backup/sigv4.go:153-177 | Percent-decoding undoes the encoding, for every string of bytes |
| UriEncoding.PlainStaysPlain | internal/backup/sigv4.go:159-177 | A string of unreserved characters, and in a path of slashes, is its own encoding |
| UriEncoding.EncodedIsClean | internal/backup/sigv4.go:159-177 | An encoding holds only unreserved characters, percent signs and, in a path, slashes |
| SigQuery.CanonicalQuery | internal/backup/sigv4.go:129-151 | Whatever order the map is walked in, the result is the canonical form of every listing of the query's pairs, each name and value as often as the query has it |
| SigQuery.OrderDoesNotMatter | internal/backup/sigv4.go:129-151 | All orders give one canonical form |
| SigQuery.DeterminesPairs | internal/backup/sigv4.go:129-151 | Two queries with one canonical form have the same pairs, each as often |
| S3Path.CheckBucket | internal/backup/s3.go:147-162 | Accepts exactly names of letters, digits, dots, hyphens and underscores |
| S3Path.SignedIsSent | internal/backup/s3.go:238-264 | The path signed is the path sent, for every bucket and key, if and only if no slash stands in a bucket name that is part of the path |
| S3Path.AcceptedBucketIsSigned | internal/backup/s3.go:147-162 | For every bucket the target accepts they agree |
| Ipv6.BrowserIpv6 | internal/api/auth.go:244-286 | The text reads back as the same address, has at most one double colon, and that stands for the first longest run of two or more zero pieces; other hosts are returned unchanged |
| Ipv6.FindRun | internal/api/auth.go:254-267 | The nested loops find the first of the longest runs of at least two zero pieces, or that there is none |
| Ipv6.ParseOfCut | internal/api/auth.go:269-285 | Cutting a run of zero pieces to a double colon loses nothing |
| IfMatch.ParseIfMatch | internal/api/etag.go:58-88 | The loop ends and returns what the parser's definition says: a list of tags, a star, or a refusal |
| IfMatch.AcceptsExactlyRenderings | internal/api/etag.go:42-88 | A header is accepted as a list if and only if it is a rendering of a non-empty list of tags without quotes, and gives those tags in order |
| IfMatch.IfMatchVersions | internal/api/etag.go:98-117 | The loop keeps, in order, the versions the tags denote |
| IfMatch.KeepsCanonical | internal/api/etag.go:98-117 | A tag denotes a version if and only if it is the canonical spelling of a 64-bit number |
| IfMatch.OwnETagParsesBack | internal/api/etag.go:27-35 | A monitor's own entity tag parses back to its version |
| Utf8Cut.CutBytes | internal/checker/cut.go:18-30 | For valid text the longest valid start of at most n bytes; for any text at most three bytes less than n |
| Utf8Cut.PushMessage | internal/api/push.go:269-279 | The note is valid, at most 500 bytes, the longest valid start of the repaired text, and no more than three bytes short when cut |
| Utf8Cut.ValidFrom | internal/api/push.go:269-279 | A start of valid text is valid exactly when it ends where a character starts, or at the end |

## Left out

- ConfigKeys.AssignKeys: does not state that objects are handled in id order, so which of two objects with one name gets the plain key is open; the keys suggested by the names are arguments.
- ConfigWrite.ExportConfig: starts from an instance whose objects all have keys, and orders nothing; the listing order of the store's calls is not modelled. The weekdays of a window are a parameter, because the store model keeps them as a multiset.
- ConfigReport.PlanReports: the report's list of changed fields, missing secrets and counts are not modelled; a window is reported by being in the plan or not.
- ConfigChannels.ChannelTwice: whether a channel's target is an allowed destination is a fixed answer; the source may look the name up again at each import.
- ConfigSpec.ImportAgain: windows are compared as sets, because a file that lists one window twice creates both in one run and one when it is resumed; the time a pin was set is not part of the view.
- ConfigPlan.PlanImport: quiet hours and JSON assertions arrive parsed (absent, null, malformed or a value); the wording of problems and the list of changed fields a plan prints are not modelled, only whether it reports a change.
- ConfigApplyPages.ApplyPage: a page with nothing to write is a step without calls here, where the source appends no step.
- ConfigRuns.ImportAgainUntilComplete: nobody else writes between planning and the last call, and the process is not killed between creating an object and storing its key; the source undoes an error there, not a crash.
- MonitorRecord.Record.Apply: text lengths are counted in characters, where the source counts bytes; Unicode case folding and the syntax of targets, zones, tags, certificates and status lists are parameters.
- MonitorRules.StoredIdempotent: a stored method is one of the methods the parser returns or empty.
- HashRelease.EveryRunIsSafe: argon2 itself and the garbage collector are not modelled; a finished hash leaves garbage until the next release begins.
- SeedStory.BuildHistory: latencies, response snapshots and which random outages are drawn; the drawn moments and lengths are arguments. LatencyCount is not claimed, since two outages in one hour can differ in whether they were timed.
- RateLimit.IpBuckets.Allow: a call is one atomic step and tokens are real numbers; the window in which a sweep can drop a bucket between its creation and its first use is not modelled.
- LogoCache.PublicLogos.Serve: the verdict of the rate limits and the database are arguments, and the headers of the answer are not modelled.
- LogoCache.EveryRunIsCoherent: the generation does not wrap around; the slots that cache whole pages have no generation and nothing is claimed of them.
- Restore.Disk.Restore: the names to set aside are free, and renames that undo succeed; network and gzip errors are a download that fails.
- Retention.Backups.RunOnce: one writer, and the sizes and the texts in the status; the schedule of runs (firstRun, recall) is not modelled.
- S3Path.SignedIsSent: headers, scope and the HMAC chain of the signature; net/url is modelled by when it keeps an encoded path.
- Ipv6.BrowserIpv6: parsing the host is a parameter, as is the rest of originOf.
- HTTP handlers, routing, JSON and YAML decoding, SQL, logging, sessions and the frontend: plumbing around these cores.
- Cryptography (argon2, SHA-256, HMAC, base64): opaque to the properties proved here.
