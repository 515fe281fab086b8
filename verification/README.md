# Verification of marathon-consul

marathon-consul keeps a Consul service registry in agreement with the healthy tasks
that Marathon runs. A periodic sync pass compares the two; workers react to Marathon's
event stream in between. This project models that behaviour in Dafny and proves what it
keeps, over all inputs and over all runs. `dafny verify dfyconfig.toml` checks
everything.

## The modules

- `Text`: the string functions of Go that the identity codecs stand on.
- `Identity`: application IDs inside task IDs, task IDs inside owner tags
  (`marathon-task:…`) and service IDs, and the instance IDs of Marathon 1.4.
- `Placeholders`, `PlaceholderOrder`: `{port:name}` in tags, replaced in Go's map order,
  and when that order matters.
- `Planning`: labels, port definitions, and the registrations planned for a task.
- `AgentCache`: the cached Consul agents and the retry loop that evicts them.
- `LineScanner`, `EventStream`: bytes from the connection, lines, events, the queue.
- `Registry`: registrations, and the operations on the registry.
- `Reconcile`: one sync pass; `Worker`: one event.
- `Convergence`: what passes achieve while Marathon stands still and nothing fails.
- `Interleaving`: sync passes, several workers and Marathon as a state machine, one
  registry call a step. A run is any list of actions; an action that is not possible in
  a state changes nothing. Registry calls fail at will, the listing of services is put
  together one entry at a time while others work and may be out of date, events come
  late, twice, never, or were never sent by Marathon.
- `Passes`: what every pass of `Interleaving` that nothing disturbs leads to, from
  anywhere in it and whatever fails.
- `Simulation`: the atomic pass and the atomic event are runs of `Interleaving`.
- `Recovery`: after any run, every undisturbed pass without faults puts the registry
  right, and such a pass is always possible.

Objects that the program updates (the agent and its cache, the registry, the scanner,
the event under construction, the handler with its queue, the sync job, the worker)
are classes whose methods are proved against functions on values; the theorems are
about those functions.

## Main results

1. **Live tasks stay registered.** In every interleaving, a sync pass removes an entry
   only after it gave up the service listed under that ID: one without owner, or whose
   task was not in the pass's list of applications while the re-check was unanswered or
   did not find it live (`Interleaving.SyncRemovesOnlyTheJudged`). A worker removes one
   only after a terminal status event. So a task that Marathon runs ever since it first
   showed it keeps its entries, if no event ends it and no re-check of its own services
   goes unanswered (`Interleaving.LiveTasksStayRegistered`).
2. **No phantoms.** Every entry of every reachable registry, unless it was there from
   the start, was generated for a task that Marathon had shown as healthy before
   (`Interleaving.NoPhantoms`).
3. **Convergence, idempotence and recovery** (`Convergence.MissingTasksAreRegistered`,
   `Convergence.OnlyLiveServicesRemain`, `Convergence.SecondPassIsIdle`). A pass registers
   exactly the healthy tasks that own fewer listed entries than their application asks for,
   and its four counters count what they say (`Reconcile.TodoIff`,
   `Reconcile.PassIsCounted`). Every
   undisturbed pass, whatever fails in it, ends where the atomic one does
   (`Passes.EveryPassIsTheAtomicOne`), and after any run every undisturbed pass without
   faults supplies all healthy tasks and clears away the services of tasks that are gone
   (`Recovery.EveryPassRecovers`).
4. **The agent loop** answers, whatever agents it draws, exactly when a reliable agent is
   cached and there are as many retries as the others can still fail; and its books
   balance over any sequence of calls (`AgentCache.SuccessIff`, `AgentCache.BooksBalance`).
   A local agent is heard at its first answer (`AgentCache.FirstAnswerIsHeard`).
5. **The event stream**: with CRLF, chunking independence and the print-and-read round
   trip hold exactly when no read tears a line from its line feed; with lone LFs or lone
   CRs, exactly when the stream holds at most one event
   (`LineScanner.ChunkingIndependence`, `EventStream.StreamRoundTrip`,
   `EventStream.BareStreamIff`). Blank lines and comments between events make no difference
   (`EventStream.PaddedEventsAreRead`).
6. **The plan** agrees with the count that sync compares with, scoped tags do not leak,
   and every registration names its owner (`Planning.PlanAgreesWithCount`,
   `Planning.ScopedTagsDoNotLeak`, `Registry.RegistrationNamesItsOwner`). From label to
   registry: every comma-separated part of a port's consul label has its intent, its entry
   once the task is registered, and its entry behind a health event that is about the task
   (`Planning.EveryPartHasItsIntent`, `Registry.EveryPartIsRegistered`,
   `Worker.EventRegistersEveryPart`).
7. **Placeholders**: Go's map order never matters exactly when no port number occurs in
   the name of another port (`PlaceholderOrder.OrderFreeIff`).

## What the theorems assume

- Go panics on an owner tag without a dot (`apps/task.go:33-34`) and on a named port
  definition beyond the task's ports (`apps/app.go:163`). `NamedInRange`,
  `OwnersHaveDots` and `OwnersDotted` exclude this from the atomic operations; in
  `Interleaving` such a step does not happen.
- No task ID followed by an underscore starts another (`Apart`). That is exactly when
  service IDs cannot collide (`Identity.ServiceIdsMeetIff`), and it always holds for
  dot-free applications with the usual suffixes (`Identity.DotFreeAppsAreApart`).
- Marathon names tasks after their application (`WellNamed`), as its own naming does for
  application IDs without underscores (`Interleaving.NamedByMarathon`), and neither the
  configured tag nor a label key that becomes a tag begins with `marathon-task:`
  (`CleanApp`).
- The number of retries and the tolerance lie below the largest uint32 (`Limit`).
- What is registered in the ID space of a task is that task's (`Tidy`). The convergence
  theorems need this of the registry that the pass finds, and the interleaving theorems
  about owners need it of the registry in which the run begins (`Undisputed`); every
  registry that a run reaches from a tidy one is tidy (`Recovery.ReachableIsTidy`).
  `NoPhantoms` and `SyncRemovesOnlyTheJudged` do without it, and
  `Convergence.OwnerlessEntryIsLost` is an input that shows what goes wrong without it.
- Every entry of the registry lies in one datacenter (`Separate`).
- In `Interleaving` there is one sync pass at a time, as there is one sync job, and nobody
  but this program writes to the registry: nobody else registers, removes or edits an
  entry, not even the tags that `enableTagOverride` opens to others.

## Where code and documentation differ

- `README.md:197` says that each retry uses a different cached agent. The code draws
  any cached agent again, so the same one can fail several times in a row
  (`consul/consul.go:45`); the bound of `SuccessIff` counts that.
- The comments in `events/sse_events.go:25-28` allow lines that end in LF or CR alone.
  `lineTerminatorPosition` returns 0 both for "none" and for "at the start", so a blank
  line made of a lone LF or CR stalls the scanner until the end of the stream. Lines that
  end in LF alone are scanned as they are exactly when none is empty, lines that end in CR
  alone exactly when none but the last is (`LineScanner.LineFeedsAlone`,
  `LineScanner.CarriageReturnsAlone`); a stream of two or more such events dispatches
  none (`EventStream.BareStreamIff`). With CRLF the same happens behind a read that ends
  between the CR and the LF of a line with text.
- At the end of the stream the handler queues the partial event, and if its type is a
  supported one it queues it twice (`sse/sse_handler.go:74-90`).
- A service without an owner tag is deregistered "since sync should have reregistered
  it already" (`sync/sync.go:115-118`). If the new registration has the same service ID,
  the same pass removes it again, and the task is left without it
  (`Convergence.WantedSurvivesIff`, `Convergence.OwnerlessEntryIsLost`).
- A consul label with a colon is taken for a scoped tag, so its services are called after
  the application, not by the names in the label (`apps/app.go:231-239`,
  `Planning.ExtractedName`).
- If the application list of a stale service cannot be read, the service goes, live or
  not (`sync/sync.go:126-141`); `Interleaving.JudgementIff` has the exact condition.
- The stub `consul/consul_stub.go:150-158` also matches a service by its ID; the model
  follows `consul/consul.go:239-266`, which goes by the tag alone.

## Model

| member | source | states |
|---|---|---|
| Identity.AppIdRoundTrip | apps/task.go:32-35 | the application ID read from a task ID is the original one exactly when it holds no underscore |
| Identity.ServiceIdDeterminesSlot | consul/consul.go:321-323 | for one task, a service ID determines name and port, even for names with underscores |
| Identity.ServiceIdsMeetIff | consul/consul.go:321-323 | two tasks can be given one service ID exactly when one task ID, followed by an underscore, starts the other |
| Identity.DotFreeAppsAreApart | apps/task.go:24-35 | tasks of applications without dots never share service IDs |
| Identity.ReadOwner | service/service.go:25-32 | the search over tags finds the task named behind "marathon-task:" in the first tag that begins so, and a task if and only if there is such a tag |
| Identity.AppendedOwner | consul/consul.go:305-306 | an owner tag behind other tags is read back exactly when those name nobody or the same task |
| Identity.NormalizeIsTheRegex | events/task_health_change.go:24-31 | the task ID of an instance ID is the regular expression's replacement for every match, and the ID itself if nothing matches |
| Identity.NormalizeKeepsApp | events/task_health_change.go:26-31 | converting an instance ID never changes the application it belongs to |
| Placeholders.ResolvePlaceholders | apps/app.go:169-175 | the loop replaces one placeholder after the other in the order of iteration |
| Placeholders.ResolveIsOnePass | apps/app.go:158-175 | for keys without nested braces, replacing in sequence equals one simultaneous pass from left to right |
| Placeholders.OrderIsIrrelevant | apps/app.go:169-175 | so for such keys the iteration order of the map does not matter, whatever the port names |
| PlaceholderOrder.OrderFreeIff | apps/app.go:169-175 | the iteration order never matters, whatever the key, exactly when no port number occurs in the name of another port |
| PlaceholderOrder.Commute | apps/app.go:169-175 | two replacements commute on every text if neither port number occurs in the other's name |
| PlaceholderOrder.NestedOrderMatters | apps/app.go:169-175 | for one nested key two orders give different tags |
| Placeholders.ResolveForgesNothing | apps/app.go:169-175 | substituting ports never creates a prefix without digits that the key did not have |
| Planning.IsHealthy | apps/task.go:67-76 | a task is healthy when it has health results, none of them false, and its state is not "TASK_KILLING" |
| Planning.FindTask | apps/task.go:45-52 | a task is found if and only if one with that ID is listed |
| Planning.ExtractLabelsForService | apps/app.go:227-247 | the loop keeps exactly the labels selected for the service |
| Planning.ScopedTagsDoNotLeak | apps/app.go:227-247 | a key becomes a tag of a service exactly when its label is a plain tag, is scoped to that very name, or names the service "tag" |
| Planning.NoTagTwice | apps/app.go:148-156 | a map of labels gives no tag key twice |
| Planning.ExtractedName | apps/app.go:227-247 | the labels selected for a name carry that name as their consul label, unless the label they come from has a colon: then it is gone, or is "tag" if it was scoped to that name |
| Planning.FilterConsulDefinitions | apps/app.go:207-225 | every name of every labelled definition has its own expanded definition, at the place after all names before it, and there is nothing else |
| Planning.CreateTagPlaceholderMapping | apps/app.go:158-167 | the mapping has one entry for each non-empty port name, with the task's port at the index of the last definition of that name, and nothing else |
| Planning.PlanRefs | apps/app.go:158-167 | looked up by name the mapping gives that port, and it is a valid placeholder map if no name has braces |
| Planning.PlanSubstitutes | apps/app.go:148-175 | with the plan's own mapping every tag is its key with all placeholders substituted at once |
| Planning.PlanOrderFreeIff | apps/app.go:148-175 | whatever the labels, the tags do not depend on the map order, exactly when no port number of the task occurs in the name of another port |
| Planning.LabelsToTags | apps/app.go:148-156 | the tags are the resolved keys of the labels with the value "tag" |
| Planning.RegistrationIntents | apps/app.go:113-142 | the loop plans the default intent, or one for every consul definition within the task's ports |
| Planning.ServiceNameIs | apps/app.go:144-146 | a service name is what is left without white space at both ends and then without slashes at both ends, with the separator joining the parts between slashes |
| Planning.PlainName | apps/app.go:144-146 | a name without slashes and outer white space is kept as it is |
| Planning.BlankName | apps/app.go:144-146 | white space alone or slashes alone give no name |
| Planning.NameOfLabels | apps/app.go:177-187 | a service is called by its consul label, and after the application if that is absent, empty, "true" or blank |
| Planning.DefinitionsAre | apps/app.go:252-261 | the port definitions are the port mappings if there are any, each at its own index |
| Planning.DefaultIntent | apps/app.go:119-127 | without a consul label on any port the plan is one service with the first port and the name and tags of the application, or nothing for a task without ports |
| Planning.PlanAgreesWithCount | apps/app.go:100-142 | the plan is never longer than the expected number, and as long exactly when the task has every port it needs |
| Planning.IntentsFollowDefinitions | apps/app.go:129-140 | the intents are those of the expanded definitions within the task's ports, one by one and in order: the task's port at the definition's index, its name and its tags |
| Planning.EveryNameHasItsIntent | apps/app.go:113-142 | every name of every definition within the task's ports has its own intent, at the place after all names before it, and there are no others |
| Planning.NamesAreTheParts | apps/app.go:210-213 | the names of a port are all the comma-separated parts of its consul label |
| Planning.EveryPartHasItsIntent | apps/app.go:113-142 | every comma-separated part of a port's consul label, if the task has the port, has an intent with the task's port, the name it asks for, and the tags selected for it before the common ones |
| Registry.MarathonTaskToConsulServices | consul/consul.go:296-319 | registrations exist exactly when the host resolves, one for every intent and in order, each with its intent's name, port and service ID, the resolved address, the tag-override flag, and the configured tag, the intent's tags and the owner tag |
| Registry.RegistrationsFollowThePlan | consul/consul.go:296-319 | the same of the specification: with a resolving host one registration for every intent, with all its fields, and none without |
| Registry.RegistrationNamesItsOwner | consul/consul.go:305-317 | every registration built for a task is read back as that task's, and its service ID lies in the task's ID space |
| Registry.PutAllEntry | consul/consul.go:179-189 | registering several services puts the last successful one under each ID and leaves all other entries alone |
| Registry.PlanIsEntered | consul/consul.go:162-213 | after registering a task, under the ID of every intent whose call did not fail lies an entry with its name and port and all fields of an intent of the plan, and every other ID keeps what it had |
| Registry.EveryPartIsRegistered | consul/consul.go:162-213 | after registering a task, every comma-separated part of a consul label of a port that it has lies in the registry, with the name it asks for, that port, and the task as owner |
| Registry.SuccessIsWrittenOut | consul/consul.go:162-189 | registering succeeds exactly when the host resolves and no ID of an intent is refused |
| Registry.ServiceRegistry.Register | consul/consul.go:162-177 | enters the whole plan of the task, entry by entry, and reports success exactly when the host resolves and no call fails |
| Registry.ServiceRegistry.RegisterMultipleServices | consul/consul.go:179-189 | every service is attempted; success means that none failed |
| Registry.ServiceRegistry.Deregister | consul/consul.go:268-294 | removes the entry under the ID, or nothing if the call fails |
| Registry.ListingIsQueried | consul/consul.go:109-133 | a listing exists exactly when the datacenters are known and no answering one fails on the name of an entry of its own with the tag, and it shows what some answering one holds |
| Registry.SnapshotIsFound | consul/consul.go:109-151 | a listing holds every such entry once, with the name, tags, address and flag it was registered with, and nothing else |
| Registry.ServiceRegistry.GetAllServices | consul/consul.go:105-133 | lists each entry with the configured tag that an answering datacenter holds, once and as it was registered, and nothing else; fails exactly when the datacenters cannot be asked or a query by name fails |
| Registry.ServiceRegistry.DeregisterByTask | consul/consul.go:216-266 | removes exactly the visible services tagged with the task, except those that fail, and reports an error if and only if one failed |
| Registry.DeregistrationIsWrittenOut | consul/consul.go:216-266 | the same entry by entry: an entry goes exactly when it has the tag "marathon-task:" with the task, an answering datacenter holds it, and its call does not fail |
| Registry.ServiceRegistry.DeregisterMultipleServices | consul/consul.go:227-237 | every service is attempted; the failing ones stay, and there is an error if and only if one failed |
| Registry.ServiceRegistry.FindByTag | consul/consul.go:239-266 | the search by tag skips a silent datacenter, fails with any query by name, and otherwise finds exactly the visible entries with the tag |
| Registry.TaskOwnsItsIds | consul/consul.go:245-253 | where owner tags agree, the services found by tag are exactly those owned by the task |
| AgentCache.Agent.IncFailures | consul/agent.go:17-19 | the counter grows by one, and from the largest uint32 wraps to zero |
| AgentCache.Consul.constructor | consul/agents.go:30-55 | a configured local agent is resolved and cached; without one the log of calls is empty |
| AgentCache.Consul.GetAgent | consul/agents.go:98-119 | one agent for each resolved address; a new one begins with no failures, and all others stay |
| AgentCache.Consul.RemoveAgent | consul/agents.go:84-96 | the agent of the resolved address goes, and no other |
| AgentCache.Consul.Strike | consul/consul.go:53-57 | one more failure for the agent, which is evicted above the tolerance |
| AgentCache.Consul.GetFromLocal | consul/consul.go:41-63 | a local agent is asked up to retries + 1 times: the result is its first answer, and giving up exactly when no attempt is answered; its counter ends at zero on success, and has counted every attempt otherwise |
| AgentCache.Consul.GetFromAny | consul/consul.go:40-64 | without a local agent the loop ends with an answer, an empty cache or all attempts used; it logs exactly the failed calls and the one that answered, and they explain the cache |
| AgentCache.Consul.GetServices | consul/consul.go:40-64 | with a local agent, its first answer or giving up exactly when it gives none, and no eviction; without one, the counters stay what the logged calls leave behind, and exactly the calls made are logged |
| AgentCache.FirstAnswerIsHeard | consul/consul.go:41-63 | asking one agent again and again gives up exactly when no attempt is answered, and otherwise finds the answer of the first attempt that is |
| AgentCache.LocalAgentIsHeard | consul/consul.go:41-63 | so if some attempt is answered and none before it, that answer is the result |
| AgentCache.FailureCostsOne | consul/consul.go:53-57 | every failure of an unreliable agent lowers the potential, the sum of tolerance + 1 - failures, by exactly one |
| AgentCache.Conservation | consul/consul.go:50-61 | over any sequence of joins, failures and successes: (tolerance + 1) * evictions + cached failures + wiped failures == failures at the start + failed calls, with every counter within the tolerance |
| AgentCache.BooksBalance | consul/consul.go:50-61 | the same for a client that began with an empty cache, as an equation in its log of calls |
| AgentCache.EvictionsShrink | consul/consul.go:53-57 | agents come only by joining and go only by eviction: cached + evicted == cached at the start + joined |
| AgentCache.SuccessWipes | consul/consul.go:58-61 | a success moves the agent's failures out of the cache and nothing else |
| AgentCache.RetriesSufficeIff | consul/consul.go:41-57 | some list of retries + 1 draws of cached agents can consist of failures of unreliable ones alone exactly when there are fewer retries than their potential |
| AgentCache.SuccessIff | consul/consul.go:40-64 | every end of the loop, for whatever draws and failures, is an answer exactly when a reliable agent is cached and retries are at least the potential of the others |
| AgentCache.SlackIsBounded | consul/consul.go:41-57 | the potential of the unreliable agents is at most (tolerance + 1) times the number of them that are cached |
| AgentCache.ReliableAgentIsFound | consul/consul.go:40-64 | with one reliable cached agent and at least as many retries as the potential of the others, every end of the loop is an answer |
| AgentCache.EnoughRetries | consul/consul.go:40-64 | the same for (tolerance + 1) retries for each cached agent that is not reliable |
| LineScanner.ScanLines | events/sse_events.go:111-125 | never advances past the data, advances exactly when there is a token, and at the end of input yields a token as long as there is data |
| LineScanner.Scanner.Scan | events/sse_events.go:93-104 | returns the next token of those still to come, and none only when there are none |
| LineScanner.Stalled | events/sse_events.go:127-140 | a line feed in front of the data swallows the whole rest of the stream into one token |
| LineScanner.ChunkingIndependence | events/sse_events.go:111-148 | the tokens of a CRLF-framed stream are its lines exactly when no read ends between the CR and the LF of a line with text |
| LineScanner.LineFeedsAlone | events/sse_events.go:111-140 | lines that end in LF alone are scanned as they are, however they are cut into reads, exactly when none is empty |
| LineScanner.CarriageReturnsAlone | events/sse_events.go:111-140 | lines that end in CR alone are scanned as they are exactly when none but the last is empty |
| EventStream.SseEvent.ParseLine | events/sse_events.go:24-87 | byte by byte: an empty line or a line feed dispatches exactly an event with type, body or ID, a comment does nothing, and the four named fields take their values, with one space behind the colon dropped |
| EventStream.ParseSseEvent | events/sse_events.go:93-107 | the event is read from an empty one, line by line, up to the line that dispatches it, or to the end with the event as far as it got |
| EventStream.LineIsWrittenOut | events/sse_events.go:24-87 | the effect of every line on type, body, ID and delay, in bytes: with and without colon, with and without the space, with empty data, as comment, blank |
| EventStream.NextEventReadsThrough | events/sse_events.go:93-107 | reading an event goes through one state for each line, the last one dispatching it or the lines running out |
| EventStream.CommentIsIgnored | events/sse_events.go:36-40 | a line with a colon in front changes nothing, wherever it stands |
| EventStream.BlankLine | events/sse_events.go:30-34 | a blank line dispatches exactly an event that has a type, a body or an ID, and is skipped otherwise |
| EventStream.EventIsRead | events/sse_events.go:24-107 | a printed event is read back as it was, and leaves all lines behind it |
| EventStream.PrintedEventsAreRead | events/sse_events.go:93-107 | a printed list of events is read back as that list, and then the end |
| EventStream.PaddedEventsAreRead | events/sse_events.go:24-107 | the same with any number of blank lines and comments before, between and behind the events |
| EventStream.TornStreamLosesEvents | events/sse_events.go:111-140 | a torn stream yields fewer events than were sent |
| EventStream.StreamRoundTrip | events/sse_events.go:93-148 | printed with CRLF framing and cut into reads, the same events come out, with nothing left over, exactly when no read tears a line |
| EventStream.PaddedStreamIsRead | events/sse_events.go:93-148 | and with such lines in the stream, as long as no read tears a line |
| EventStream.BareStreamIff | events/sse_events.go:93-148 | printed with lone LFs or lone CRs they come out exactly when there is at most one; from two on none is dispatched |
| EventStream.Handler.EnqueueEvent | sse/sse_handler.go:93-101 | an event is queued, or dropped if the queue is full |
| EventStream.Handler.Handle | sse/sse_handler.go:71-91 | queues the event if its type is one of the supported ones, and at the end of the stream the partial one besides; as often as there is room, behind what was queued |
| EventStream.Handler.HandleStream | sse/sse_handler.go:64-66 | what workers that take events at any pace have taken, and what is still queued, when the connection ends |
| EventStream.AllAttemptsAre | sse/sse_handler.go:71-91 | the handler tries to queue the supported events in order, then the partial event, twice if its type is supported |
| EventStream.SupportedInOrder | sse/sse_handler.go:84-90 | the supported events come in the order of the stream |
| EventStream.SupportedAsOften | sse/sse_handler.go:84-90 | every event of a supported type is among them as often as it came, and no other |
| EventStream.DeliveredInOrder | sse/sse_handler.go:71-101 | at whatever pace the queue is read, its readers get some of these in order, and all of them if the queue can hold all |
| EventStream.FastReadersLoseNothing | sse/sse_handler.go:71-101 | workers that empty the queue before every turn lose nothing of a stream of any length, if the queue holds two events |
| EventStream.StreamIsQueued | sse/sse_handler.go:71-101 | for an untorn stream these are its supported events and one empty event; if nobody reads, the queue is filled with them up to its capacity |
| Worker.EventHandler.HandleEvent | events/event_handler.go:86-107 | status and health events do what `StatusOutcome` and `HealthOutcome` say, entry by entry; every other event and every malformed body changes nothing and is an error |
| Worker.EventHandler.HandleHealthyTask | events/event_handler.go:109-157 | enters the whole plan of the task that the event is about, by task ID or by instance ID, if its application lists it as healthy under a consul label; changes nothing without such a task; an absent or unhealthy task is no error, a nameless event or a silent Marathon is |
| Worker.EventHandler.HandleStatusEvent | events/event_handler.go:159-191 | the five terminal statuses take away exactly the listed entries tagged with the task, except failing ones; every other status changes nothing and is no error |
| Worker.AboutIsHealthTaskId | events/task_health_change.go:26-43 | an event is about the task of its task ID, or else about the one whose ID its instance ID gives by the regular expression, and about none without both |
| Worker.CalledIsOrdered | events/event_handler.go:118-150 | a living task that the event is about, listed once and healthy in its consul application, is the one registered |
| Worker.HealthIsWrittenOut | events/event_handler.go:109-157 | what a health event does to the registry, entry by entry, and when it is an error |
| Worker.EventRegistersEveryPart | events/event_handler.go:109-157 | behind a health event without failures every comma-separated part of a consul label of its task has its entry, with the name it asks for, the port, and the task as owner |
| Worker.HealthKeepsOthers | events/event_handler.go:141-150 | registering a task leaves the entries in other tasks' ID spaces as they were |
| Worker.HealthStaysOwned | events/event_handler.go:109-157 | after a health event, with any failures, every entry still names one owner in whose ID space it lies |
| Worker.StatusRemovesTheTask | consul/consul.go:216-266 | without failures a terminal event takes away exactly the entries that the task owns |
| Worker.StatusUndoesHealth | events/event_handler.go:109-191 | a terminal event after a health event leaves the registry as if the health event had never come |
| Reconcile.Sync.TaskIdsInConsulServices | sync/sync.go:190-198 | the map counts the services of every owner |
| Reconcile.Sync.MarathonTaskIdsSet | sync/sync.go:200-209 | the set holds exactly the IDs of all listed tasks |
| Reconcile.TodoMembers | sync/sync.go:151-187 | a pass registers exactly the healthy tasks of consul applications with fewer registrations than expected |
| Reconcile.TodoIff | sync/sync.go:151-187 | in terms of the registry: a task is registered exactly if it is a healthy one of a listed consul application and owns fewer of the listed entries than its application asks for |
| Reconcile.StaleIff | sync/sync.go:107-147 | in terms of the registry: an entry is deregistered exactly if it is listed and has no owner, or one that neither the applications nor the latest tasks of its own application show |
| Reconcile.PassIsCounted | sync/sync.go:75-83 | the four counters: registrations and their errors add up to the tasks that lack entries, the successes being those whose host resolves and whose calls all succeed; deregistrations and their errors add up to the stale entries |
| Reconcile.NobodyLacks | sync/sync.go:168-180 | no task lacks entries exactly when every healthy task of a consul application owns as many as its application asks for; so a pass then registers nothing |
| Reconcile.Sync.RegisterTasksOf | sync/sync.go:158-186 | for one application: the registry after registering its missing tasks, and counters that add up to their number |
| Reconcile.Sync.RegisterAppTasksNotFoundInConsul | sync/sync.go:149-188 | the same for all applications: successes and errors add up to the tasks to register |
| Reconcile.Sync.DeregisterConsulServicesNotFoundInMarathon | sync/sync.go:107-147 | exactly the stale services go, except the failing ones; successes and errors add up to their number |
| Reconcile.Sync.SyncServices | sync/sync.go:58-105 | when a pass is skipped, fails or runs, the registry after it, and all four counters in terms of the registry before it |
| Convergence.PassEntry | sync/sync.go:58-88 | entry by entry: what the pass wanted replaces what was there, and then the stale IDs are gone |
| Convergence.WantedSurvivesIff | sync/sync.go:115-122 | a new registration survives its own pass exactly when no stale service was listed under its ID |
| Convergence.OwnerlessEntryIsLost | sync/sync.go:115-122 | an input on which a healthy task loses its only registration in the very pass that made it |
| Convergence.MissingTasksAreRegistered | sync/sync.go:149-188 | where ID spaces are tidy, after one pass every registration of every healthy under-registered task is in the registry, with that task's data |
| Convergence.OnlyLiveServicesRemain | sync/sync.go:107-147 | after one pass every tagged service is owned by a task that Marathon runs |
| Convergence.SecondPassIsIdle | sync/sync.go:149-188 | a second pass changes nothing and finds nothing stale, even if it registers some tasks again |
| Convergence.NothingNewIsWanted | sync/sync.go:168-170 | the second pass registers only tasks that the first registered |
| Convergence.SizeChange | sync/sync.go:77-83 | the registry grows by the newly created IDs and shrinks by the deregistrations counted |
| Convergence.TwoTicks | sync/sync.go:27-50 | two ticks of the job: the second leaves the registry as the first left it and deregisters nothing |
| Interleaving.NamedByMarathon | apps/task.go:24-35 | tasks named by Marathon for an application whose ID has no underscore give back its ID, as the re-check needs |
| Interleaving.RecheckFindsLiveTasks | sync/sync.go:125-132 | asking the application that a task ID names finds the task if and only if some application runs it |
| Interleaving.JudgementIff | sync/sync.go:114-145 | a pass gives up a service exactly when it has no owner, or its owner is not listed and the re-check is unanswered or does not find it live |
| Interleaving.Always | sync/sync.go:58-88 | in every state of every run all that is registered, pending or listed comes from the start or from a task shown as healthy |
| Interleaving.OneOwner | service/service.go:25-32 | over a whole run a service ID never changes its owner |
| Interleaving.NoPhantoms | events/event_handler.go:141-154 | an entry at any time of any run, if not there from the start, was made for a task that Marathon had shown as healthy in a consul application |
| Interleaving.SyncRemovesOnlyTheJudged | sync/sync.go:107-147 | a pass removes an entry only after it gave up the service listed under that ID: ownerless, or with an owner neither in its list of applications nor live when the re-check is answered |
| Interleaving.SyncSparesTheLive | sync/sync.go:107-147 | where ID spaces are tidy that service was the entry owner's: a pass never removes the entry of a task that is in its list or live when the re-check is answered |
| Interleaving.WorkersRemoveOnlyTheNamed | consul/consul.go:227-266 | a worker removes an entry only if a terminal event came for a task whose owner tag was listed under that ID |
| Interleaving.WorkersRemoveOnlyTheEnded | events/event_handler.go:159-191 | where ID spaces are tidy that was the task that owns the entry |
| Interleaving.EntriesStay | sync/sync.go:107-147 | in every interleaving an entry stays and keeps its owner unless a pass gives up a service of that owner or a terminal event for it comes |
| Interleaving.LiveTasksStayRegistered | sync/sync.go:124-145 | in every interleaving a task that is live ever since it appeared, also one launched during the run, keeps every entry it has, if no event ends it and no re-check of its own services goes unanswered |
| Passes.FinishIsSettled | sync/sync.go:58-88 | no step of an undisturbed pass, failing or not, changes the registry with which it will end |
| Passes.EveryPassFinishes | sync/sync.go:58-88 | every undisturbed pass, from anywhere in it and whatever fails, ends with that registry |
| Passes.EveryPassIsTheAtomicOne | sync/sync.go:75-76 | every undisturbed pass that has listed its services does what the atomic pass does with the same faults |
| Passes.PassCanEnd | sync/sync.go:107-188 | from any point, with any faults, a pass comes to its end |
| Simulation.PassIsARun | sync/sync.go:58-88 | the atomic pass, with any faults, is a run of the state machine |
| Simulation.HealthIsARun | events/event_handler.go:109-157 | so is a health event, with Marathon's answer or without |
| Simulation.StatusIsARun | events/event_handler.go:159-191 | and so is a status event |
| Simulation.AnyChangeIsPossible | sync/sync.go:124-132 | Marathon may show anything well-named at any point of a run |
| Simulation.PassMayHearOldAnswers | consul/consul.go:109-133 | a registration that was due at some time can be listed to a pass ever after |
| Simulation.WorkerMayHearOldAnswers | consul/consul.go:239-266 | and to a worker that looks for its task |
| Simulation.LookupsCanFail | sync/sync.go:70-73 | a listing or a search can fail at any point, and the registry stays as it is |
| Recovery.ReachableIsTidy | consul/consul.go:296-323 | in every reachable registry the ID space of a task holds only that task's entries |
| Recovery.PassEnds | sync/sync.go:58-88 | from every reachable state the pass in progress can end by steps of its own with any given faults, and then the registry is the settled one |
| Recovery.EveryPassRecovers | sync/sync.go:58-88 | after any run, every undisturbed pass without faults over the current applications and entries leaves every healthy task of a consul application with all planned registrations or as many as expected, and only services of live tasks |
| Recovery.AnyRunRecovers | sync/sync.go:58-88 | such a pass is always possible: the pass in progress ends with any faults, and another reads, lists and goes through without faults |

## Left out

- The Consul and Marathon clients, TLS, authentication and JSON decoding: foreign calls; a call succeeds or fails, and the model starts from decoded tasks and events.
- `replaceTaskIDWithID`: works on raw JSON; status events come with the task ID already in place.
- Host resolution is a table of names; resolving a resolved address is assumed to change nothing.
- Creating a Consul client for a resolved address is assumed to succeed.
- The registry is keyed by service ID alone, not by agent and service ID.
- Registry.MarathonTaskToConsulServices: does not model the health checks of a registration, which are string and URL formatting around a port.
- Registry.ServiceRegistry.Register: does not model those checks either, nor the agent cache entry that a registration creates.
- Registry.ServiceRegistry.Deregister: the agent that is asked plays no part, since the registry is keyed by service ID alone.
- Registry.ServiceRegistry.GetAllServices: which agent is asked, and asking again, is the retry loop of `AgentCache`; here its outcome is the catalogue.
- Planning.RegistrationIntents: labels come as lists, one per Go map, whose order stands for one order of iteration; tags are compared in that order.
- Placeholders.OrderIsIrrelevant: one direction only, for a single key; the exact condition over all keys is `PlaceholderOrder.OrderFreeIff`.
- Planning.IntentsFollowDefinitions: `strings.TrimSpace` is modelled for the white space of the Latin-1 range.
- LineScanner.Scanner.Scan: a minimal driver of the split function; the buffer is large enough, reads do not fail, and the limit on empty reads is left out.
- EventStream.Handler.HandleStream: the first connection only; after a reconnect the program scans with the default split function.
- The overflow of the retry counter: the configured limits are below the largest uint32.
- AgentCache.Consul.GetServices: the agents are used by one caller at a time; the log explains the counters as long as there is no local agent, which is never evicted.
- Parallel memory effects: every registry call is one step.
- Leadership changes, stopping of workers and of the stream: the code gives no guarantee there that could be stated.
- `syncStartedListener` (adding agents for all listed tasks), metrics, logging, configuration and the web endpoint: plumbing.
- `substituteEnvironment` and health-check URLs: string formatting.
- Time: nothing says when a pass or an event happens, so progress is stated as what one undisturbed pass achieves.
