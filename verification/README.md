# dup: a verified model of the update engine

dup updates Docker Compose stacks: it pulls images, recreates services, waits for
health and rolls back when a stack does not settle. A scheduler lets new images
soak before it applies them. An unprivileged API and a root agent share the work
over a socket. This project models those parts and proves what they promise.

- **The update pipeline** runs over a Docker world of images, a tag table,
  containers and a clock, every command of which may fail. `Pipeline.dfy` takes an
  update from validation to its outcome word, `Rollback.dfy` restores previous
  images, `Health.dfy` is the timed wait, `ImageRef.dfy` splits references and
  guards tags, and `Docker.dfy` is the world. `Outcomes.dfy` spells out what each
  outcome word says about that world and which steps a job is told of.
- **The scheduler** is a class over its maps (`Schedule.dfy`). `Soak.dfy` breaks its
  tick into steps and interleaves them with other people's updates, completions and
  callbacks; `Announce.dfy` follows what is announced over such runs and ties the
  steps back to the class.
- **The job**: `Job.dfy` is the object, `Trace.dfy` the order of the calls it
  receives, `Store.dfy` the bounded store and the end of a run, `Stream.dfy` the
  event stream between agent and API.
- **The agent** is a server class and a system of two processes (`Agent.dfy`).
- **The log**: `Files.dfy` is a directory whose operations may fail, `Rotate.dfy` the
  rotating writer over it, `History.dfy` the job history and its reader.
- **Small algorithms**: `Semver.dfy`, `Throttle.dfy`, `Access.dfy`, over `Text.dfy`.

Source code that changes state is a class or a loop here, proved against a
specification function; laws over whole runs are lemmas about those functions.
Times are integers, in nanoseconds where a constant matters, and never run
backwards. A command or file operation fails without a reason the code could see;
ghost counters record each such failure, and ghost logs each listing, validation,
pull and `up`, so that an outcome can be held to its cause and a poll to a listing.

## Where the code and its documentation differ

The model follows the code.

- DOCUMENTATION.md:684-686 and 741 say that an image replaced during the soak clears
  the timer. `mark` keeps the first sighting whatever services a later check names
  (`Schedules.Scheduler.Mark`, `Schedules.SoakIsKept`).
- DOCUMENTATION.md:696-697 says a manual update clears a pending soak, so that the two
  never disagree. The callback runs after the store has let the job go, and a tick
  keeps the soak it has read. When no update completed before a start, counting the
  callbacks owed and run tells exactly (`Soak.CompletionsAreSeenUnlessOwed`); two runs that start anyway are
  `Announcements.LateCallbackIsMissed` and `Announcements.CallbackAfterMarkIsMissed`.
- DOCUMENTATION.md:695 says dup wakes when the soak is due. It does, unless the ready
  time passes between the tick's clock reading and the loop's own; then it waits for
  the ticker (`Schedules.StartIsTimely`, `Schedules.LateLookSleepsPastReady`).
- DOCUMENTATION.md:932 says of `rolled_back` that the previous images are running
  again. That needs the image to be on disk, the service to resolve to the reference
  that was put back, and the last container to hold that reference to have run the same
  image (`Pipeline.RolledBackRunsPreviousIff`); `Pipeline.UnresolvedRollbackKeepsNewImage`
  is a rollback that ends so with the new image running. A missing image is named in the
  message.
- `maxJobLogBytes` reads like a cap on a job's log. Each step cut at the cap adds a
  marker beyond it; the log keeps to the cap exactly when nothing had to be cut
  (`Jobs.LogIsCappedIff`, `Jobs.LogIsBounded`).
- `sanitise` cuts at a byte, so it may leave part of a rune, which a second pass would
  replace (`Jobs.SanitisedIsStableIff`, `Jobs.EuroSignsAreCutThrough`).
- The tag of `sha256:1.2` and of any reference that starts with `sha256:` is lost,
  a registry named `sha256` with a port included (`ImageRef.RejoinIff`).
- Numeric identifiers beyond the integer range compare as text, and identifiers with
  leading zeros are accepted, unlike Semantic Versioning 2.0.0
  (`Semver.OrderMatchesStandardIff`, `Semver.AcceptedIsStandardIff`,
  `Semver.LeadingZeroIsAccepted`).
- When the throttle's table is full of live entries it is thrown away, which moves the
  windows of sources that come back (`Throttle.CountersHoldIffNeverReset`,
  `Throttle.ResetMovesTheWindow`).
- DOCUMENTATION.md:937 says a stack with `image_tag_env` rolls back to the previous tag
  value. The code takes the tag of the first wanted container that has one, whether or
  not its service follows the variable (`Rollback.PreviousTagIff`,
  `Rollback.AnotherServiceGivesTheTag`).
- The store accepts `running` as the end of a job. The job then goes on looking live,
  its channel closed, while its target is free (`Stores.ReportRunning`). The pipeline
  never ends so (`Pipeline.Update`).

## Model

| member | source | states |
|---|---|---|
| Pipeline.Update | internal/pipeline/pipeline.go:98-164 | every path of an update leaves its steps bracketed and ends in a word and a message that are true of the Docker world: `dry_run` and `no_change` exactly when they apply and nothing was recreated, an early failure names the command that failed or the service that stopped the tag, `failed` after `up` only without rollback, `succeeded` only after one working `up` and a settled stretch as long as the stability window, both rollback words only after a second, forced `up`, and, if no listing failed, the last list shown is that of the containers there are; each wait it tells of polled by listings made after its `up`; the references not put back keep their images; and the steps the job is told of, in order and with how each went, are those of that ending |
| Pipeline.Decide | internal/pipeline/pipeline.go:98-146 | the part before the first `up`: it stops with a truthful word, or everything an `up` relies on holds, and in both cases no container was recreated |
| Pipeline.Prepare | internal/pipeline/pipeline.go:98-128 | a plan rests on the stack's own containers, the images the compose file resolves to, the list of outdated services in container order and an accepted tag; without a plan the message says which command failed |
| Pipeline.Survey | internal/pipeline/pipeline.go:98-118 | validation, inspection, resolution and the tag guard, each failure told apart by the command that failed |
| Pipeline.BeforeUp | internal/pipeline/pipeline.go:133-146 | `no_change` exactly when nothing is outdated, nothing is forced and the stack is settled; a required hook that failed, and only that, stops the update |
| Pipeline.Deploy | internal/pipeline/pipeline.go:148-164 | the outcomes after the first `up`, including what a rollback accounts for |
| Pipeline.UpAndWait | internal/pipeline/pipeline.go:148-158 | the first `up` runs with the requested tag and services, and success or cause is what the health wait found |
| Pipeline.RolledBackRunsPreviousIff | internal/pipeline/pipeline.go:227-287 | after `rolled_back`, for a container with an image ID and a taggable reference, not named missing, whose service still resolves to the reference put back, every container of that service has the previous image ID if and only if the last container to hold the reference had it too |
| Pipeline.RolledBackRunsPreviousImages | internal/pipeline/pipeline.go:227-287 | so it has whenever containers sharing a reference had agreed on an image, whether or not the compose file resolved during the rollback |
| Pipeline.UnresolvedRollbackKeepsNewImage | internal/pipeline/pipeline.go:238-286 | a rollback that ends in `rolled_back` with nothing named missing while the new image runs: the service resolves elsewhere by then |
| Pipeline.ChangedServices | internal/pipeline/pipeline.go:341-358 | an empty list means every container asked about has its desired reference and image ID; with no failed lookup the list is exactly the outdated services in container order |
| Pipeline.LooksOutdated | internal/pipeline/pipeline.go:342-356 | one container is outdated exactly when its reference differs or the reference names another image |
| Pipeline.NoneFailsIffAll | internal/pipeline/pipeline.go:341-358 | no service is listed exactly when every container is current |
| Pipeline.CheckTag | internal/pipeline/pipeline.go:375-398 | a tag is accepted exactly when every wanted service keeps its repository; a refusal is backed by a failed resolution or by a real offender |
| Pipeline.RunPreUpdate | internal/pipeline/pipeline.go:166-217 | the hook stops the update exactly when it is required and failed |
| Pipeline.Check | internal/pipeline/pipeline.go:40-70 | a check answers exactly when validation, listing and pull worked; with no failed lookup it says available exactly when some container is out of date; it recreates nothing |
| Pipeline.Peek | internal/pipeline/pipeline.go:40-62 | what a check does before it compares images |
| Pipeline.UpdateFeedsTheJob | internal/pipeline/pipeline.go:449-488 | any cut of the calls an update made, fed to a job that then ends, shows one step for each completed pair and at most one that did not complete; the whole trace shows the plan and outcome lists and each step as it went |
| Outcomes.SucceededMeans | internal/pipeline/pipeline.go:98-164 | after `succeeded`: one validation, one first listing, one pull and one `up`, all with the requested tag and services; the requested services run what their references name; and listings made during the update saw every watched service running and healthy, none in between otherwise, for at least the stability window |
| Outcomes.RolledBackMeans | internal/pipeline/pipeline.go:227-287 | after `rolled_back`: two `up`s, the second forced, with the previous tag and the same services, no retagging failed, and the stack was seen at rest for the window with that tag |
| Outcomes.RollbackFailedMeans | internal/pipeline/pipeline.go:273-284 | `rollback_failed` has a reason: a retagging that failed, an `up` that failed, or a wait that gave up |
| Outcomes.CauseMeans | internal/pipeline/pipeline.go:148-156 | the cause named is the `up` exactly when it failed, and else what the wait gave up for |
| Outcomes.LeftMeans | internal/pipeline/pipeline.go:228-232 | an update left as it failed has rollback switched off and one `up`, which failed exactly when it is named as the cause |
| Outcomes.NoChangeMeans | internal/pipeline/pipeline.go:138-141 | `no_change` is said only of a stack at rest whose every container in scope has the reference it is to run, naming its own image; nothing was recreated |
| Outcomes.NoChangeIff | internal/pipeline/pipeline.go:138-141 | and, with no failed lookup, of every such stack that is neither forced nor a dry run |
| Outcomes.ChangedMeans | internal/pipeline/pipeline.go:341-358 | with no failed lookup a service is listed as changing exactly when one of its containers is not up to date |
| Outcomes.StoppedIff | internal/pipeline/pipeline.go:98-146 | no `up` ran exactly for a dry run, nothing to do, or a failure without a word on rollback, and then the stack has the very containers it had; otherwise the job ends with the list of those there are, unless a listing failed |
| Outcomes.PlanMeans | internal/pipeline/pipeline.go:104-128 | the plan is about the stack's own containers, listed first, and the images the compose file resolves to; the job shows them as the ones before |
| Outcomes.HookFailedIff | internal/pipeline/pipeline.go:133-146 | a dry run is what was asked for, and the hook is blamed exactly when it was required, reached and failed |
| Outcomes.MessagesTell | internal/pipeline/pipeline.go:133-164 | the services in a message are those the job shows |
| Outcomes.TagKeepsRepositories | internal/pipeline/pipeline.go:375-398 | a tag that was let through keeps the repository of every wanted service |
| Outcomes.RefusalMeans | internal/pipeline/pipeline.go:375-398 | a tag is refused for a failed resolution, or for a wanted service that has no image without the tag or another repository with it |
| Outcomes.MissingMeans | internal/pipeline/pipeline.go:246-249 | a service reported missing has a container whose image was not on disk, unless asking for one failed |
| Outcomes.OtherReferencesStay | internal/pipeline/pipeline.go:240-258 | a reference no container was put back under names what it named before the rollback |
| Outcomes.EarlySteps | internal/pipeline/pipeline.go:98-126 | the steps of an update that stops before a plan, by name and how each went |
| Outcomes.PlannedSteps | internal/pipeline/pipeline.go:98-146 | the steps of an update that stops at a dry run, at nothing to do or at the hook |
| Outcomes.DeployedSteps | internal/pipeline/pipeline.go:98-164 | the steps of an update that succeeded or is left as it failed |
| Outcomes.RevertedSteps | internal/pipeline/pipeline.go:227-287 | the steps of an update that was rolled back, those of the rollback included |
| Outcomes.TagNotesIff | internal/pipeline/pipeline.go:254-258 | the failed steps of a retagging are exactly those of the containers not retagged |
| Outcomes.HealthTargetsIff | internal/pipeline/pipeline.go:509-520 | a service is watched exactly when it is configured or, when none is, one of its containers was running |
| Outcomes.SettledIsWell | internal/pipeline/pipeline.go:522-546 | a stack is settled exactly when the last container of every watched service runs, with no health check or a healthy one |
| Outcomes.WaitSawRest | internal/pipeline/pipeline.go:289-339 | a wait that succeeded rests on listings made, from the first to the last of them without an answer that found the stack otherwise |
| Outcomes.NotRunningMeans | internal/pipeline/pipeline.go:312-319 | a service said not to be running was watched, had no container or a last one that is exited, dead or removing, at a poll more than twenty seconds after the start |
| Outcomes.TimedOutMeans | internal/pipeline/pipeline.go:325-329 | a wait that timed out was past its timeout and had not seen the stack at rest for the window |
| Outcomes.FromContainersIff | internal/pipeline/pipeline.go:363-370 | when the compose file does not resolve, a service gets the last taggable image among its containers |
| Rollback.Run | internal/pipeline/pipeline.go:227-287 | what a rollback did: resolved images, one mark for each container, the tag table it left, its `up`, its wait, and a word that is `rolled_back` exactly when nothing failed to retag, `up` worked and the stack came healthy |
| Rollback.Restore | internal/pipeline/pipeline.go:237-262 | retagging and recreation with the previous tag, every restorable container in place, missing or not retagged |
| Rollback.Retag | internal/pipeline/pipeline.go:240-258 | loop over a changing tag table: each reference ends at the image of its last holder, no other reference moves, and the two lists of services are exactly those gone and not retagged |
| Rollback.RetagOne | internal/pipeline/pipeline.go:241-257 | one container is skipped, gone, not retagged or in place; gone and not retagged only for cause |
| Rollback.RetaggingStep | internal/pipeline/pipeline.go:240-258 | the loop invariant of the retagging |
| Rollback.RestoredIffSharersAgree | internal/pipeline/pipeline.go:240-258 | every image in place has its reference at exactly that image ID if and only if containers sharing a reference shared an image |
| Rollback.UnnamedIsHeld | internal/pipeline/pipeline.go:246-257 | a container with an image ID and a reference that can be tagged, its own or its service's, is in place unless its service is named missing or failed, whatever state it was in |
| Rollback.SkippedIff | internal/pipeline/pipeline.go:241-245 | a container is left out of the retagging exactly when it has no image ID or neither its own image nor its service's resolved one can be tagged |
| Rollback.RefOfIff | internal/pipeline/pipeline.go:411-423 | a container is to run what its service resolves to if that can be tagged, else the image it was created from |
| Rollback.NamedIff | internal/pipeline/pipeline.go:246-257 | the services in a list are exactly those of the containers with its mark |
| Rollback.PreviousTagIff | internal/pipeline/pipeline.go:781-794 | the rollback goes back to a tag exactly when the first wanted container with a valid tag carries it |
| Rollback.AnotherServiceGivesTheTag | internal/pipeline/pipeline.go:781-794 | a database listed first gives the stack its own tag to go back to |
| Rollback.RunsPreviousIff | internal/pipeline/pipeline.go:227-287 | after the `up` of a rollback, where the service still resolves to the reference put back, what runs is the previous image exactly when the last container to hold the reference had the same one |
| Rollback.ResolvedNames | internal/pipeline/pipeline.go:360-373 | a compose file that resolved names the reference put back for every service it gives a taggable image |
| Rollback.Conclude | internal/pipeline/pipeline.go:264-286 | the outcome word of the rollback from its `up`, its failed retags and its wait |
| Rollback.AwaitHealth | internal/pipeline/pipeline.go:280-286 | a wait and the last look; the wait ended for the reason it gives |
| Rollback.Recreate | internal/pipeline/pipeline.go:260-262 | one `up` with its step, recorded with the tag table it started from |
| Rollback.ResolveImages | internal/pipeline/pipeline.go:360-373 | resolved images come from the compose file, or from the containers exactly when that failed |
| Rollback.Snapshot | internal/pipeline/pipeline.go:442-447 | an inspection in a bracketed step that changes no container |
| Health.WaitHealthy | internal/pipeline/pipeline.go:289-339 | success means an unbroken settled stretch of polls at least as long as the window; each way of giving up is justified; polls are paced by the ticker and number at most timeout/interval + 2 |
| Health.Round | internal/pipeline/pipeline.go:301-323 | one poll: healthy, dead after the grace with the service named, or going on with the stretch intact |
| Health.Ask | internal/pipeline/pipeline.go:301-303 | one listing, recorded, and shown at once narrowed to the watched services |
| Health.PolledMeans | internal/pipeline/pipeline.go:289-300 | polls are listings made, in order, on the whole three seconds apart or more |
| Health.SettledTimesOutOnlyIfLate | internal/pipeline/pipeline.go:304-329 | a stack settled at every poll times out only if what was left of the timeout after its first poll was shorter than the window plus one round |
| Health.EarlySettledNeverTimesOut | internal/pipeline/pipeline.go:304-329 | with one clock reading a round, a stack settled throughout whose first poll lands by timeout minus window is never timed out |
| Docker.Crashed | internal/pipeline/pipeline.go:553-565 | the first watched service, in order, that is gone or stopped for good, if any |
| Docker.ServiceSettledIff | internal/compose/compose.go:45-54 | the words: a service is settled exactly when the last container listed for it is running and its health is empty or healthy |
| Docker.ServiceCrashedIff | internal/compose/compose.go:56-63 | the words: a service has crashed exactly when it has no container or the last one is exited, dead or removing |
| Docker.SettledIff | internal/pipeline/pipeline.go:522-546 | with nothing to watch one container that runs well is enough, and else every watched service must |
| Docker.LastOfIff | internal/pipeline/pipeline.go:567-573 | the last container listed for a service decides |
| Docker.LowerAt | internal/compose/compose.go:45-63 | letter case does not matter in a state |
| Docker.WatchedConcat | internal/pipeline/pipeline.go:492-503 | what a poll shows is a filter of the containers in their order |
| Docker.WatchedOne | internal/pipeline/pipeline.go:492-503 | of a single container it shows it if its service is watched or none is named |
| Docker.InScopeIff | internal/pipeline/pipeline.go:505-507 | a service is in scope if it is named or none is |
| Docker.Daemon.Up | internal/compose/compose.go:124-131 | the contract of `up`: recorded, takes no tag away, and on success requested services run what their references name |
| Docker.Daemon.Tag | internal/compose/compose.go:133-135 | tagging moves one reference to an image on disk, or nothing |
| Docker.Daemon.ImageID | internal/compose/compose.go:142-148 | a lookup answers from the tag table or fails |
| Docker.Daemon.ImageExists | internal/compose/compose.go:137-140 | a yes means the image is on disk |
| Docker.Daemon.Containers | internal/compose/compose.go:158-174 | a listing that worked is the containers there are; only their states move by themselves |
| ImageRef.RejoinIff | internal/pipeline/pipeline.go:400-423 | splitting repo:tag recovers the repository exactly when it holds no `@`, and the tag exactly when moreover the text is not of digest form |
| ImageRef.DigestIsCut | internal/pipeline/pipeline.go:400-409 | a digest after a reference does not hide its repository |
| ImageRef.RepositoryWhole | internal/pipeline/pipeline.go:400-409 | a reference without a colon in its last path element is its own repository, a port notwithstanding |
| ImageRef.RefTagIff | internal/pipeline/pipeline.go:796-813 | a tag comes out of a reference exactly when it is valid and follows the last colon of a reference without a digest |
| ImageRef.ValidTagIff | internal/config/config.go:45 | a valid tag, character by character |
| ImageRef.TagGuard | internal/pipeline/pipeline.go:385-396 | walking the services in any order, the guard accepts exactly when every wanted service keeps its repository, and a refusal names a real offender |
| ImageRef.PinnedRepositoryPasses | internal/pipeline/pipeline.go:375-398 | a compose file that pins the repository accepts any valid tag |
| ImageRef.WholeImageVariableIsRefused | internal/pipeline/pipeline.go:375-398 | a compose file whose whole image is the variable is refused once the tag names another repository |
| Jobs.Sanitise | internal/job/job.go:367-389 | the loop over runes computes the cleaned and cut text, bytes that are no rune replaced |
| Jobs.SanitisedIsPlain | internal/job/job.go:367-389 | cleaned text holds no control character and keeps to its bound |
| Jobs.SanitisedIsStableIff | internal/job/job.go:367-389 | a second pass leaves the text alone exactly when it was not cut, was cut between runes, or was cut so that what is left of a rune begins U+FFFD |
| Jobs.CleanIsProper | internal/job/job.go:371-384 | cleaned text is whole runes and has no control character |
| Jobs.EuroSignsAreCutThrough | internal/job/job.go:385-387 | four hundred euro signs are cut through at a thousand bytes |
| Jobs.PrintableIsKept | internal/job/job.go:367-389 | printable text, newlines and tabs included, is left as it is, up to the cut |
| Jobs.AsciiIsCleaned | internal/job/job.go:373-383 | of ASCII, carriage returns go, tabs, newlines and printable characters stay, and the rest becomes U+FFFD |
| Jobs.Job.Receive | internal/job/job.go:143-194 | each sink call changes the job as the call says and nothing else |
| Jobs.Job.AddStep | internal/job/job.go:149-170 | a report replaces the open placeholder or is added, its output cut to the room left |
| Jobs.Job.Finish | internal/job/job.go:196-218 | only the first end counts: state, message, cleared progress, the open step marked, the done channel closed; given a terminal state the channel is closed exactly when the job looks ended |
| Jobs.Job.CloseOpenStep | internal/job/job.go:208-216 | a step still open when the job ends is marked as not completed |
| Jobs.FinishedIs | internal/job/job.go:196-218 | the end of a job, field by field: the lists and finished steps stay, and a step left open is marked |
| Jobs.StepsShow | internal/job/job.go:143-170 | a started step is shown last and running, and its report takes its place |
| Jobs.UnopenedIsAdded | internal/job/job.go:149-170 | a report no step is open for is added |
| Jobs.ListsShow | internal/job/job.go:172-194 | each list is the latest one set, and setting one touches no other |
| Jobs.KeptIs | internal/job/job.go:152-162 | an output is kept whole within 96 KiB, and else as far as there is room, with a marker |
| Jobs.LogIsCappedIff | internal/job/job.go:149-170 | the log of a job keeps to its cap exactly when the cleaned outputs reported fit in it together, and then it is their sum |
| Jobs.LogIsBounded | internal/job/job.go:149-170 | over any run the log passes the cap by at most one marker a step, and by that much exactly when the first output overfills it and every later one has something to cut |
| Jobs.LogIsItsOutputs | internal/job/job.go:149-170 | the log size is the sum of the outputs the steps hold |
| Trace.BracketedConcat | internal/pipeline/pipeline.go:449-488 | bracketed traces compose |
| Trace.PrefixIsNotBroken | internal/pipeline/pipeline.go:449-488 | cutting a bracketed trace never mixes step names |
| Trace.JobMirrors | internal/job/job.go:143-170 | a job fed an unbroken trace has one step for each report and the open step last |
| Trace.CutTraceSettles | internal/job/job.go:196-218 | a job fed any prefix and then ended has no step running and at most one that did not complete |
| Trace.UnpairedStartStaysRunning | internal/job/job.go:149-170 | without the bracket a placeholder stays running for ever |
| Trace.JobShowsTrace | internal/job/job.go:172-194 | a job shows the latest lists of its trace |
| Trace.ShownAreReported | internal/pipeline/pipeline.go:449-488 | the steps a trace shows are its reports, with their names and how they went |
| Trace.Recorder.Record | internal/pipeline/pipeline.go:449-488 | a recorded call advances the bracket |
| Stream.StreamSink.Send | internal/agentd/server.go:416-445 | each sink call is one event while the peer is there |
| Stream.Serve | internal/agentd/server.go:251-263 | what the agent has sent is always a prefix of the calls followed by one result |
| Stream.Consume | internal/agent/client.go:122-165 | the decoder loop replays exactly the calls of the decodable events and returns the last result, or a failure with an error |
| Stream.RemoteEqualsLocal | internal/agent/client.go:122-165 | whatever unknown events are mixed in, the job fed through the stream and finished is the job fed directly, apart from clock readings, with the same outcome |
| Stream.CutStreamFails | internal/agent/client.go:122-165 | a stream cut anywhere before its result is a failure with an error after a prefix of the calls |
| Stream.CleanIffResult | internal/agent/client.go:122-165 | no error exactly when every line decoded and a result was among them |
| Stream.NoiseIsIgnored | internal/agent/client.go:130-150 | events this client does not know change neither the calls nor the result |
| Stream.TranscriptIsComplete | internal/agentd/server.go:416-445 | decoding what was encoded gives back the calls and the result |
| Stream.VerdictIff | internal/agent/client.go:122-165 | a stream ends as its last result says, exactly when every line decoded; one with a broken line or without a result has failed |
| Stream.LastResultIff | internal/agent/client.go:153-157 | the outcome is that of the last result |
| Stream.NoiseIff | internal/agent/client.go:138-160 | exactly the events of other words, and step events without a step, mean nothing |
| Stream.WireWords | internal/agentd/server.go:425-445 | the word on the wire for each call |
| Stream.SameMeans | internal/agent/client.go:122-165 | what two jobs that differ in clock readings only have in common, field by field |
| Stores.Store.Begin | internal/job/job.go:265-284 | refused exactly when the target has a running entry; otherwise the new job is the target's running job and is listed, and a sound store stays sound |
| Stores.Store.Evict | internal/job/job.go:278-283 | the listing keeps to its bound by dropping the oldest, running or not |
| Stores.Store.Complete | internal/job/job.go:286-293 | the job ends as `finish` says, its own running entry goes and every other stays; a sound store stays sound exactly when the state given, or the job before, was terminal |
| Stores.Store.Running | internal/job/job.go:302-307 | the answer is the one unfinished job of the target, and none means every job of the target has ended |
| Stores.Store.List | internal/job/job.go:309-336 | the first `limit` of the retained jobs of the target, newest first, as summaries |
| Stores.Store.Choose | internal/job/job.go:309-330 | the backward loop is take of filter of reverse |
| Stores.AddIsIndexed | internal/job/job.go:265-284 | adding and evicting keep the index and the order equal to the latest 200 jobs |
| Stores.SelectedIsComplete | internal/job/job.go:309-336 | a listing misses no retained job of its target and invents none |
| Stores.NewestComesFirst | internal/job/job.go:309-336 | jobs of other targets never displace a target's newest job |
| Stores.SelectedConcat | internal/job/job.go:309-336 | a listing keeps the order of its jobs, newest first |
| Stores.SelectedOne | internal/job/job.go:318-327 | a single job is listed if its target, or none, is asked for |
| Stores.SummaryKeeps | internal/job/job.go:328-335 | a listing keeps everything but the steps and the containers before and after |
| Stores.ListingBounds | internal/job/job.go:265-336 | a listing is cut at a positive limit and covers the last two hundred jobs |
| Stores.EndRun | internal/job/manager.go:77-100 | a run ends its job in the reported state and with the reported message, or failed with the message that contact was lost and why, before the completion callback sees it |
| Stores.ReportRunning | internal/job/manager.go:77-100 | a run reported as running leaves a job that looks live, its channel closed, while its target is free and takes another |
| Rotate.Writer.Write | internal/rotate/rotate.go:80-96 | a write that succeeds appends one line to the log, dropping only the oldest archive, and touches no file but the writer's; it fails only for a fault or a closed file, and then the directory is conserved |
| Rotate.Writer.MakeRoom | internal/rotate/rotate.go:84-90 | a rotation happens exactly when the line would not fit |
| Rotate.AddedIs | internal/rotate/rotate.go:80-132 | what one line does: it goes to the end of the live file, or, if it would take a file that is not empty past the bound, the live file becomes the first archive, every archive the next, and the line starts a new file |
| Rotate.Writer.Rotate | internal/rotate/rotate.go:98-132 | after a rotation the live file is empty and each archive one older; every directory state on the way is conserved |
| Rotate.Writer.Reopen | internal/rotate/rotate.go:64-76 | opening changes nothing in the log and takes the size that is there |
| Rotate.Open | internal/rotate/rotate.go:36-62 | opening an absolute path keeps what is there and fails only for a fault; bounds that are not positive become the default, a negative number of archives none |
| Rotate.RotateArchives | internal/rotate/rotate.go:109-128 | at every intermediate state each line but those of the pruned archive is on disk in order of age, the only duplicate is the live file against archive 1, and no rename met an existing file |
| Rotate.PruneAndShift | internal/rotate/rotate.go:109-118 | pruning drops the oldest archive and the shift frees archive 1 |
| Rotate.Shift | internal/rotate/rotate.go:113-118 | the renaming loop, highest first, keeps the log as it is at every step |
| Rotate.ShiftOne | internal/rotate/rotate.go:114-117 | one rename onto a free name |
| Rotate.RenameKeepsArchived | internal/rotate/rotate.go:113-118 | moving an archive up by one keeps the order of the log |
| Rotate.GzipFile | internal/rotate/rotate.go:138-174 | the archive appears whole under its name or not at all; without a live file nothing happens |
| Rotate.Build | internal/rotate/rotate.go:138-169 | the archive under construction never shows in the log |
| Rotate.PublishAndRemove | internal/rotate/rotate.go:120-126 | publishing and removing the live file moves its lines into archive 1 |
| Rotate.PublishDuplicates | internal/rotate/rotate.go:170-173 | publishing adds the live file's lines once more and touches nothing else |
| Rotate.RotatedIsRotateShelf | internal/rotate/rotate.go:98-132 | the directory after a rotation is the shelf model rotated |
| Rotate.LogIsShelfLog | internal/rotate/rotate.go:134-136 | the log read from file names is the shelf's log |
| Rotate.RetainedIsSuffix | internal/rotate/rotate.go:80-132 | after any run of writes what is retained is a suffix of everything written |
| Rotate.FilesStayBounded | internal/rotate/rotate.go:80-96 | over any run each file is within the bound or holds one line |
| Rotate.ArchivesAreFull | internal/rotate/rotate.go:84-90 | the newest archives, one for each rotation, are within one line of full |
| Rotate.RetentionFloor | internal/rotate/rotate.go:80-132 | after as many rotations as archives, at least keep × (bound − largest line + 1) bytes are retained |
| Files.IndexOfArchive | internal/history/history.go:140-150 | the index read from an archive name is the number it was made with |
| Files.NamesDiffer | internal/rotate/rotate.go:134-136 | archive names, the live file and the partial archive never collide |
| Files.GlobbedIff | internal/history/history.go:127-150 | what is taken for an archive is the path, a dot, anything and .gz, and its index is the number in between |
| History.Append | internal/history/history.go:67-83 | a finished job adds one line, a running one nothing |
| History.ReadFile | internal/history/history.go:152-200 | the scanner loop yields the matching jobs in order, or fails exactly on a file that does not open or an oversized line |
| History.HitsIff | internal/history/history.go:176-195 | the hits of a file are exactly the snapshots of its entries for the target asked for whose id begins with the one asked for |
| History.HitsOfOne | internal/history/history.go:176-195 | and they keep the order and the number of their lines |
| History.ShortenedIdIsHit | internal/history/history.go:188-193 | a job is a hit of every shortening of its id |
| History.UnreadableIff | internal/history/history.go:152-175 | a source cannot be read exactly when it does not open or has a line of more than 4 MiB |
| History.SourceIs | internal/history/history.go:152-160 | a file that is not there is empty, and one that is there and does not open fails the read |
| History.ArchiveIndex | internal/history/history.go:140-150 | the digit loop computes the decimal value, or the index of a foreign name |
| History.SortedArchives | internal/history/history.go:127-138 | the files that match the pattern, in ascending index |
| History.Read | internal/history/history.go:100-123 | the nested loops are the walk over the live file and then the archives |
| History.AppendNewest | internal/history/history.go:110-120 | the inner loop appends a file's hits in reverse up to the limit |
| History.WalkIsNewest | internal/history/history.go:100-123 | when files open and no line is oversized the walk is take of reverse of filter of the joined log |
| History.NewestIs | internal/history/history.go:98-123 | a read returns the last hits, the last of them first, as many as asked for, or twenty |
| History.JobIsFound | internal/history/history.go:98-123 | a job asked for by its id, shortened or not, is found if fewer jobs than asked for match and are newer |
| History.FailsIff | internal/history/history.go:100-123 | a read fails exactly when a file that does not open or holds an oversized line is met before the limit is reached, and then returns what the files before it gave |
| History.ListingIsPresent | internal/history/history.go:127-138 | among the files listed, whatever else is there, the writer's archives are those that exist, newest first |
| History.DirectoryJoinsIff | internal/history/history.go:127-138 | reading a directory walks exactly the writer's log if and only if no file beyond its archives that the reader takes for one holds a line |
| History.WriterMakesNoStray | internal/rotate/rotate.go:98-136 | the writer neither makes nor fills such a file |
| History.StrayLeavesAGap | internal/history/history.go:127-138 | in a directory left by a writer that kept two archives, one that keeps one prunes a line and an older one is still read |
| History.ReadAfterRun | internal/history/history.go:100-123 | after any run of appends, whatever else the directory holds but stray archive lines, a read returns the newest matching jobs of a suffix of everything written |
| Schedules.Scheduler.Tick | internal/schedule/schedule.go:232-295 | one tick, whatever it meets, changes the target's pending soak, broken flag and announcements as specified, and no other target |
| Schedules.UnavailableTick | internal/schedule/schedule.go:265-273 | an answer that nothing is available drops the soak, starts nothing, and withdraws the offer with its message exactly when one was pending |
| Schedules.SightingTick | internal/schedule/schedule.go:275-295 | a first sighting is announced with the time it applies at and starts at once only without a soak |
| Schedules.ConfirmingTick | internal/schedule/schedule.go:275-309 | a later one starts exactly when the soak is over and the start is accepted; a refused start leaves the soak |
| Schedules.FailedTick | internal/schedule/schedule.go:244-262 | a failed check leaves the soak alone and is announced unless the one before had failed too |
| Schedules.BusyTickDoesNothing | internal/schedule/schedule.go:232-256 | while an update runs, and on the answers 409 and 503, a tick does nothing |
| Schedules.Scheduler.Watch | internal/schedule/schedule.go:197-229 | one turn of the loop: the tick, the two times shown, and the instant it wakes |
| Schedules.WakeIs | internal/schedule/schedule.go:198-228 | the loop wakes when a soak ends that had not when it looked, if that is before the ticker fires, and else with the ticker |
| Schedules.Scheduler.Mark | internal/schedule/schedule.go:311-321 | the first sighting is kept, whatever services a later check names |
| Schedules.Scheduler.Clear | internal/schedule/schedule.go:323-330 | the soak is dropped and its existence reported |
| Schedules.Scheduler.ClearPending | internal/schedule/schedule.go:145-149 | the completion callback drops the soak silently |
| Schedules.Scheduler.MarkBroken | internal/schedule/schedule.go:82-92 | a change of the failing flag, and only that, is reported |
| Schedules.Scheduler.Apply | internal/schedule/schedule.go:297-309 | the soak is dropped exactly when the start was accepted |
| Schedules.Scheduler.PendingFor | internal/schedule/schedule.go:124-129 | the pending soak of the target |
| Schedules.StartIsTimely | internal/schedule/schedule.go:194-229 | busy, refused and failed checks and refused starts do not disturb a soak: the update starts in the first round at or after the ready time with nothing in the way and in no earlier one; a sleep ends by the ready time exactly when the loop looked before it or the ticker fires by then |
| Schedules.LateLookSleepsPastReady | internal/schedule/schedule.go:206-225 | a run with a ten second soak that starts after a hundred, the loop having looked just as the soak ended |
| Schedules.StartIsWithinLag | internal/schedule/schedule.go:202-229 | rounds that follow their wake-up within a lag start the update within that lag of the ready time |
| Schedules.SoakIsKept | internal/schedule/schedule.go:232-294 | as long as no answer says otherwise the first sighting stays pending, and nothing starts early |
| Schedules.RoundWaits | internal/schedule/schedule.go:275-294 | no round before the ready time starts anything |
| Soak.StartsAreJustified | internal/schedule/schedule.go:232-330 | in every run of interleaved steps every automatic start comes at least the soak after a recorded sighting, which no later answer contradicts, no other start uses, and no notified completion precedes up to the mark of the starting tick |
| Soak.CompletionsAreSeenUnlessOwed | internal/job/manager.go:86-100 | no update completed between sighting and start exactly when the callbacks owed at the start and those run since are together no more than were owed at the sighting; up to the mark, the callbacks owed decide alone |
| Soak.LedgerHolds | internal/job/manager.go:86-100 | in every run the callbacks owed are the completions less the callbacks run, at every event that notes them |
| Soak.EventsFollowAnswers | internal/schedule/schedule.go:232-309 | in every run the latest answer before a sighting, a mark or an automatic start said available with those services, and before a denial not |
| Soak.UpdatesAreExclusive | internal/job/job.go:265-284 | in every run at most one update of the target runs at a time, whoever began it |
| Soak.StepIsSound | internal/schedule/schedule.go:232-330 | each step of the loop, of another user or of a completion keeps the invariant |
| Soak.RecordIsSound | internal/schedule/schedule.go:311-321 | marking keeps the invariant, whether it sights or confirms |
| Soak.BegunIsSound | internal/schedule/schedule.go:297-309 | a start is justified by the sighting its tick holds |
| Announcements.AnnouncementsAreTransitions | internal/schedule/schedule.go:243-288 | over every run what was said about checks is exactly the transitions of the answers that were not busy refusals, every withdrawal directly follows its offer, and without an announcer nothing is said |
| Announcements.AnnouncedIsSaid | internal/schedule/schedule.go:232-295 | over every run with an announcer the notices are exactly these, in order: the changes of the check, every sighting with the time it applies at, and a withdrawal for every answer that nothing is available while a soak stood |
| Announcements.TransitionsAlternate | internal/schedule/schedule.go:82-92 | failed and recovered strictly alternate, starting with failed |
| Announcements.WithdrawnNeverExceedsAvailable | internal/schedule/schedule.go:265-288 | in every prefix withdrawn notices never outnumber available ones |
| Announcements.TickIsItsSteps | internal/schedule/schedule.go:232-295 | a tick nobody interrupts, taken step by step, is the tick of the scheduler class |
| Announcements.LateCallbackIsMissed | internal/job/manager.go:86-100 | a run in which an update completes during the soak and the start still happens, the callback being late |
| Announcements.CallbackAfterMarkIsMissed | internal/schedule/schedule.go:275-307 | a run in which a whole update fits between a tick's mark and its start |
| Agent.Server.Acquire | internal/agentd/server.go:381-389 | the lock is taken exactly when it was free |
| Agent.Server.Release | internal/agentd/server.go:391-395 | the lock is given back |
| Agent.Server.TakeSlot | internal/agentd/server.go:232-239 | a slot is taken exactly when one of three is free |
| Agent.Server.Handle | internal/agentd/server.go:226-239 | a handler leaves locks and slots as it found them and answers conflict or unavailable exactly when the lock or the slots were taken |
| Agent.MutualExclusion | internal/agentd/server.go:226-239 | in every reachable state of the two processes at most one update or check works on a target, at most three in all, and locks and slots are exactly those of the handlers in flight |
| Agent.StepKeeps | internal/agentd/server.go:297-310 | each step of a handler or of the API keeps the invariant |
| Agent.NothingLeaks | internal/agentd/server.go:226-239 | once every handler is gone no lock and no slot is held |
| Agent.AbandonedUpdateExcludes | internal/job/manager.go:77-86 | after the API gave up on an update that still works, the next job for that target is accepted by the API and refused by the agent |
| Agent.UnavailableIffFull | internal/agentd/server.go:232-239 | a handler with its lock is turned away exactly when three others are at work |
| Agent.RefusedIffHeld | internal/agentd/server.go:226-229 | an arriving handler, update or check, is refused exactly when another is in flight on its target |
| Agent.ConflictIsExplained | internal/agentd/server.go:226-229 | an arriving update is refused exactly when a check holds the lock or one of the two updates is over for the API; two live jobs never meet |
| Semver.Parse | internal/selfupdate/semver.go:53-89 | the parser computes the parsed version or the error |
| Semver.NumericField | internal/selfupdate/semver.go:91-101 | a canonical decimal within the integer range, and nothing else, is a number |
| Semver.ComparePre | internal/selfupdate/semver.go:127-142 | the identifier loop computes the list order |
| Semver.Compare | internal/selfupdate/semver.go:24-34 | the order of two versions that both parse, or the first error |
| Semver.ParsedIffPrinted | internal/selfupdate/semver.go:53-89 | a text parses to a version exactly when, stripped, it is that version's canonical spelling |
| Semver.DecorationsAreIgnored | internal/selfupdate/semver.go:53-89 | padding, a leading v and build metadata change nothing |
| Semver.OrderFlips | internal/selfupdate/semver.go:114-176 | swapping the operands negates the result, which is zero exactly on equal versions |
| Semver.OrderTransitive | internal/selfupdate/semver.go:114-176 | the order is transitive |
| Semver.IdentMatchesStandard | internal/selfupdate/semver.go:144-165 | one identifier pair is ordered as section 11.4 of Semantic Versioning 2.0.0 says exactly under a condition on oversized numbers |
| Semver.OrderMatchesStandardIff | internal/selfupdate/semver.go:114-165 | two standard versions are ordered as section 11 of Semantic Versioning 2.0.0 says exactly when the identifiers that decide are read alike |
| Semver.OrderMatchesStandard | internal/selfupdate/semver.go:114-165 | so they are when numeric identifiers fit the integer range |
| Semver.AcceptedIsStandardIff | internal/selfupdate/semver.go:53-89 | an accepted text is a version of the standard exactly when its identifiers have no leading zeros and it has no padding, no leading v and only identifiers as build metadata |
| Semver.StandardIsAcceptedIff | internal/selfupdate/semver.go:53-101 | a version of the standard is accepted exactly when its three numbers fit the integer range |
| Semver.NonstandardIsAccepted | internal/selfupdate/semver.go:66-76 | a version with an identifier such as 01 parses all the same |
| Semver.LeadingZeroIsAccepted | internal/selfupdate/semver.go:66-76 | such versions exist: 1.0.0-01 |
| Semver.OversizedNumberSortsAsText | internal/selfupdate/semver.go:144-165 | an oversized number sorts above text that starts with a hyphen, against the standard |
| Semver.OversizedNumbersExist | internal/selfupdate/semver.go:159-165 | such numbers exist: 2 to the power 63 |
| Throttle.AuthThrottle.Touch | internal/server/auth.go:32-53 | the entry of a key after sweeping, resetting or restarting its window |
| Throttle.AuthThrottle.Sweep | internal/server/auth.go:55-61 | the deleting loop removes exactly the expired entries |
| Throttle.AuthThrottle.Allow | internal/server/auth.go:63-67 | the verdict and the table after it |
| Throttle.AuthThrottle.Fail | internal/server/auth.go:69-73 | one more failure counted for its key |
| Throttle.CountsAreReal | internal/server/auth.go:32-73 | in every run the table holds at most 4096 keys and counts no failure that was not recorded in the entry's window |
| Throttle.NoWrongLockout | internal/server/auth.go:63-73 | a refusal is always backed by twenty failures of that key within the last window |
| Throttle.TwentyFailuresRefuse | internal/server/auth.go:32-73 | the twentieth failure within a minute of the first shuts its source out for the rest of that minute, and no earlier one does |
| Throttle.VerdictsAreIndependent | internal/server/auth.go:32-67 | without a reset every key gets the verdict of its own independent counter, so sweeping is invisible |
| Throttle.CountersHoldIffNeverReset | internal/server/auth.go:32-53 | the table holds every key's own counter all along exactly when it is never reset |
| Throttle.ResetDropsACounter | internal/server/auth.go:36-46 | a reset drops the counter of some key whose window is still running |
| Throttle.RunHolds | internal/server/auth.go:32-73 | the table holds each key's own counter or has dropped it after it expired |
| Throttle.FewSourcesNeverReset | internal/server/auth.go:36-46 | up to the key limit of distinct sources the table never resets |
| Throttle.QuietSourceIsAllowed | internal/server/auth.go:63-67 | a source that never failed is always allowed |
| Throttle.ResetMovesTheWindow | internal/server/auth.go:36-52 | past the key limit a reset can leave a source refused when its own counter would have started over |
| Access.ClientIP | internal/server/access.go:10-48 | the backward scan finds the client address |
| Access.Chain | internal/server/access.go:24-33 | the hops of all headers, left to right |
| Access.InAnyOf | internal/server/access.go:117-127 | an address is in some prefix of its family |
| Access.ContainsIff | internal/server/access.go:117-127 | a prefix contains the block of addresses of its family around its own, and no zoned one |
| Access.ContainsBytes | internal/server/access.go:117-127 | 10.0.0.0/8 is the addresses whose first byte is 10, /32 one address, /0 all |
| Access.ForeignIff | internal/server/access.go:34-47 | a hop counts exactly when it parses to an address that no trusted prefix contains |
| Access.HopsOfList | internal/server/access.go:24-33 | the hops of a header are its parts between commas without the blanks around them, blank parts left out |
| Access.UntrustedPeerDecides | internal/server/access.go:10-24 | an untrusted peer's headers never change the result |
| Access.TrustedPeerForwards | internal/server/access.go:24-48 | behind a trusted peer the result is the rightmost parseable untrusted hop, or the peer if there is none |
| Access.RightmostIs | internal/server/access.go:34-47 | the scan's answer is the hop with no untrusted hop to its right |
| Access.FrontIsIgnored | internal/server/access.go:24-48 | headers or hops added in front change nothing once an untrusted hop exists |
| Access.TrustedResultIsPeer | internal/server/access.go:10-48 | a trusted address is only returned because it is the peer |
| Access.AllowedSource | internal/server/access.go:50-60 | admitted exactly when no list is configured or the client address is in it |
| Access.AdmittedIff | internal/server/access.go:50-60 | the same for a whole list, address by address |
| Access.OutsiderStaysOut | internal/server/access.go:50-60 | a peer neither trusted nor listed cannot talk its way in |
| Access.Normalise | internal/server/access.go:140 | the same address without its zone; exactly the addresses of ::ffff:0:0/96 become IPv4 |

## Left out

- Running docker and compose: commands are operations with contracts; that a successful `up` runs what the references name is assumed, and containers that belong to no compose service are not modelled.
- Who else changes Docker: nobody retags or recreates while an update runs; container states and health do move by themselves.
- gzip and JSON: lossless codecs; half-written or undecodable archives, bad UTF-8 and the encoded size of a job are not modelled.
- HTTP, TLS, HMAC, peer credentials, CORS and request decoding: the agent's handlers start where they take the lock.
- Configuration loading and its path, owner and permission checks; `health_timeout` is taken to be positive, as the loader demands.
- The command line, message wording, `parsePull`, notification formats, `dryRunMessage`, step commands and durations.
- Docker.LowerAt: lowers ASCII letters only, because Docker's state words are ASCII.
- The output and the wording of a step's error; its name, its order and whether it went well are modelled.
- Docker's own normalisation of references: `nginx` and `nginx:latest` are different keys of the tag table.
- Pipeline.RunPreUpdate: does not model the hook's environment, its timeout or its output, because only its success decides anything.
- Pipeline.Update: says what the last list shows only if no listing failed since the update began, because a failed inspection may return a partial list.
- Health.WaitHealthy: does not model the context of the wait but as a cancellation that may come at any round after the deadline check.
- Readers that race a rotation, a second writer, and a live file removed by somebody else.
- Rotate.Writer.Write: does not model short writes, because a write of a line is taken to add all of it or nothing.
- History.ReadAfterRun: does not cover a last line without its newline, because every line is written whole.
- History.ArchiveIndex: does not wrap around for names of nineteen digits or more, which only order stray files among themselves and against the others.
- Stores.Store.Begin: takes the new id to be fresh, because ids are random in the source.
- `DrainRunning`, `Get` and the deep copies of `Snapshot`: a listing is of values here.
- Throttle entries are values in the map, not shared pointers; the source never keeps one across calls.
- Access.ClientIP: takes the parser of addresses as a parameter, because the library's grammar is not visible; prefixes are compared by their leading bits.
- Soak.StartsAreJustified: follows one target, because the scheduler's other targets share no state with it; the first check's jitter and shutdown are not steps.
- Announcements are made by the target's own loop in the step that causes them; a notification that is lost or slow is not modelled.
- Agent.MutualExclusion: does not cover `handleImages` and `handleDiscover`, because they take no lock, nor two agents on one host.
- Agent.Server.Handle: runs a handler alone, because its interleavings are the system of two processes.
- The integer range is that of 64-bit platforms.
