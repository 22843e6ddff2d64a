# Verification models of the PyGo runtime

PyGo pairs a Go HTTP/WebSocket server with a supervised Python process. This project models the parts
of it that keep state or translate text, in Dafny, and proves what their design relies on. `dafny verify
dfyconfig.toml` checks all of it.

Concurrent parts are step machines: one event is one step of one party (a Go thread, the Python loop, a
hub client, a worker, a pool user), an event that is not enabled leaves the state alone, and so every
sequence of events is a run. Time is an integer passed to each operation; handlers, workers, guards and
the operating system are arbitrary oracles. Code that updates objects is a class with the source's
fields, whose methods are proved against functions of the old state; where there is a step machine too, the
rows below say which methods are proved equal to its steps. The pool's `Initialize` and `CloseAll` and the
hub's `OnRegister` and `OnUnregister` have contracts of their own only.

| file | part of the system |
|---|---|
| `Framing.dfy` | length-prefixed frames over a byte stream, on both sides |
| `Protocol.dfy`, `ProtocolSafety.dfy`, `ProtocolTheorems.dfy`, `ProtocolRecovery.dfy`, `ProtocolHandlers.dfy` | the Go/Python call protocol as a step machine, its invariant, and the theorems over all runs |
| `Supervisor.dfy`, `SupervisorCall.dfy` | the `Supervisor` object, and its agreement with the step machine |
| `Tenancy.dfy` | which path a default connect opens, and which file the path leads to |
| `Dispatch.dfy`, `DispatchTenants.dfy` | argument cleaning, the handler call and `_to_wire`, and the database a request's handler opens |
| `Hub.dfy` | the WebSocket hub loop |
| `RetryQueue.dfy`, `RetrySubmissions.dfy`, `RetryCalendar.dfy` | the queue with retries and backoff, what a job keeps of its submission, and which jobs its retry dates can leave behind |
| `WorkerQueue.dfy`, `WorkerLaws.dfy`, `WorkerTurn.dfy`, `WorkerMeasure.dfy` | the queue with several workers, what its steps do to a job, one worker's turn, and a termination measure |
| `SingleQueue.dfy` | the queue with one worker |
| `RateLimit.dfy` | the three sliding-window limiters |
| `Base64Url.dfy`, `Jwt.dfy` | compact HS256 tokens |
| `SourceMaps.dfy`, `Formatter.dfy` | source-map comments and the brace formatter |
| `Pool.dfy` | the connection pool and the circuit breaker |
| `Router.dfy` | route splitting, the mux prefix and path parameters |
| `Caches.dfy` | the two in-memory TTL caches |
| `Common.dfy`, `Text.dfy` | options, bytes, splitting and joining text |

## What holds only under a condition

- A caller's answer is the one computed from its own request as long as no transport error has happened
  on the connection since a call last found it quiet: both streams empty and Python at the top of its loop, or
  dead (`OwnAnswers`). Whatever errors came before, from a quiet state on every later caller gets the answer
  Python computes after that state from its own request, until the next error (`ErrorsAreOver`). Where it is
  not quiet, since an abandoned call has left its request, its running handler or its response on the
  connection, the next caller can be handed that call's answer (`AbandonedIsHandedOver`). `CallPython` keeps
  the connection after every error alike. An end of stream or a reset means that Python is gone, and no
  deadline is set; but an error of the system's own that leaves Python alive, such as running out of memory
  for a read, brings such a state about (`AfterTransportErrorAnswersShift`), although the comments in
  `core/runtime/db.py:33-35` and `core/runtime/pyclient/__init__.py:34-36` argue from the mutex alone.
  The tenant variable follows the request being served even then (`TenantOfRequest`).
- A frame reads back exactly when its body is shorter than 2^32 bytes (`FrameReadBackIff`).
- `_to_wire` makes a value packable exactly when all dict keys are packable, integers fit 64 bits, texts,
  byte strings and containers stay below 2^32, and nothing nests deeper than the packer goes
  (`WirePackableIff`): 511 levels, of which the response takes one (`ReplyPackableIff`,
  `NestedSendableIff`). The packed response must be shorter than 2^32 bytes as well, 15 of which are its own
  (`ReplySentIff`). Sending anything else raises outside `dispatch` and ends the process. `dispatch`
  populates exactly one of result and error, as its documentation says, except when a handler returns None
  (`OneFieldPopulatedIff`).
- A hub client may be registered again exactly as long as it has not been removed
  (`ReRegisteringPanicsIffClosed`), and delivery is free of gaps in every run that keeps to that
  (`GapFreeDelivery`); registering each client once does (`OnceIsOpen`).
- `get_remaining` is exact exactly for windows of positive length (`RemainingExactIff`).
- A comment is read back exactly when the name in it is not empty and has no white space and its source line is
  not negative (`CommentReadsBackIff`): the comments of "my app.pgo" are lost (`SpacedNameIsLost`). A file
  reads back exactly when all its comments do (`InjectedReadsBackIff`). A moved
  line is translated to its own source line exactly when the line before it is not tracked or has the
  same source line (`MovedLineTranslatesIff`).
- The pool's idle bound holds throughout a run exactly if what `initialize` opens, whenever it comes, fits
  beside what is idle then (`IdleBoundIff`, `LateInitializeExceeds`); the pool stays empty after `close_all`
  exactly if it had been initialized or min_size is 0 (`NothingIdleAfterCloseIff`).
- Jobs of the retry queue are conserved exactly if every retry date, now + retry_delay * 2^(k-1), is one
  that `datetime` can hold, and no worker raises an exception that leaves `process_next` before `fail` is
  called: one that `except Exception` does not catch, or one whose own `str()` raises (`RunConservesIff`).
  Otherwise the job stays stored in no queue for ever (`LeftBehindForever`), as PROCESSING after such an
  exception, as RETRY where `requeue` raises before it appends; `enqueue(max_retries=39, retry_delay=1)` is one such job
  (`ThirtyNineRetriesStrand`). What can be checked when a job is enqueued is
  now + retry_delay * 2^(max_retries-1), and that check is exact (`LeftBehindIff`).
- Tenants are pasted into a path, so what isolates them is that their names have no slash: such tenants
  never share a file (`TenantsShareIff`, `TenantsIsolated`), and a tenant has the file of its own name exactly
  if it has no slash (`OwnFileIff`). With slashes, "a//b" and "a/b", or "data/../pygo_acme" and "acme", lead
  to one file once the directory exists (`CollidingTenants`), and every tenant has such a double
  (`EveryTenantIsShared`). A connect without tenant shares a tenant's file exactly if the configured default
  leads to it (`DefaultConnectsShareFileIff`), as "./pygo_acme.db" or its absolute path does
  (`DotSlashDefaultIsTenants`, `AbsoluteDefaultIsTenants`).

## Model

| member | source | states |
|---|---|---|
| Framing.FrameReadBackIff | core/runtime/socket/socket.go:130-165 | receiving a sent frame yields its body and leaves the rest of the stream, iff the body's length fits the 32-bit header |
| Framing.FrameLayout | core/runtime/socket/socket.go:130-146 | a frame is four bytes, most significant first, that are the body's length modulo 2^32, and the body |
| Framing.ReceivedMeans | core/runtime/socket/socket.go:149-165 | receiving takes the bytes those four announce, if so many follow, and else says where the stream ends |
| Framing.PrefixReadBack | core/runtime/socket/socket.go:149-165 | a stream cut at any byte reads back as the bodies whose frames are complete, in order, then as an end that says whether the cut was between frames, in a header or in a body; never a wrong message |
| Framing.ListReadBack | core/runtime/pyclient/__init__.py:114-122 | the frames of any list read back as exactly that list, followed by a clean end |
| Framing.Socket.ReadExactly | core/runtime/pyclient/__init__.py:105-112 | however the stream is split into non-empty chunks, it terminates with exactly the next n bytes and leaves the rest, and fails iff fewer than n are left |
| Framing.Socket.ReceiveFrame | core/runtime/socket/socket.go:149-165 | reading header and body through short reads is the frame reader on the whole stream |
| Framing.Socket.ReceiveEach | core/runtime/pyclient/__init__.py:230-234 | the receive loop delivers every message of the stream in order and stops where it ends |
| Framing.Socket.GoSend | core/runtime/socket/socket.go:130-146 | two writes put exactly one frame on the stream, with the length modulo 2^32, or the prefix of it that the stream took before a write failed |
| Framing.Socket.PySend | core/runtime/pyclient/__init__.py:120-122 | one frame, or nothing when the length does not fit the header |
| Framing.Transfer | core/runtime/socket/socket.go:130-165 | both ends together: any list over any split of the stream arrives as that list |
| ProtocolSafety.StepKeeps | core/runtime/runtime.go:79-235 | every step of every party keeps the protocol invariant: one thread inside the mutex, `started`/`conn`/`cmd` right at each program point, bytes in flight only those of the current call, tenants and answers right |
| ProtocolTheorems.MutualExclusion | core/runtime/runtime.go:79-235 | in every run at most one thread is inside the supervisor, `started` holds iff `conn` is set whenever the mutex is free, and no nil connection is used |
| ProtocolTheorems.OwnAnswers | core/runtime/runtime.go:133-153 | in every run each response was read on the connection its request went out on; without transport errors there, or once they are over, it is the one Python computed from that request; no request is answered twice |
| ProtocolTheorems.OneOutstanding | core/runtime/runtime.go:133-153 | on a connection without transport errors, or once they are over, the requests are answered in order, all but at most the last; bytes are in flight or a handler is at work only while the mutex holder is calling over it |
| ProtocolTheorems.TenantOfRequest | core/runtime/pyclient/__init__.py:159-197 | while Python runs a handler the tenant global is its own request's tenant; and without transport errors the mutex holder waits for that very request |
| ProtocolTheorems.TenantsIsolated | core/runtime/db.py:100-113 | in every run each default connect opens "pygo_<tenant>.db" of its own request's tenant, or the configured default or "pygo.db" without one, and connects for different tenants without slashes never share a file |
| ProtocolTheorems.ProcessesAlive | core/runtime/runtime.go:157-235 | only the process launched last can be alive; with the mutex free a live process means the supervisor is started on it |
| ProtocolTheorems.CallAnswered | core/runtime/runtime.go:133-153 | from every ready state, whatever errors came before, a call of a registered handler can be answered with any response, and leaves the connection idle and clean with exactly this exchange recorded |
| ProtocolTheorems.AfterTransportErrorAnswersShift | core/runtime/runtime.go:142-148 | after a failed receive the kept connection can hand the next caller the previous caller's response |
| ProtocolRecovery.ErrorsAreOver | core/runtime/runtime.go:133-153 | from every reachable state in which a connection is quiet and not in use, whatever errors it had, and over every continuation up to its next transport error, each response handed to a caller over it is one that Python computed since that state from the caller's own request |
| ProtocolRecovery.AbandonedIsHandedOver | core/runtime/runtime.go:142-148 | from every state in which an abandoned call has left its request, its running handler or its response on the connection, a run without any further error hands that call's response to the next caller |
| ProtocolRecovery.AnsweredInOrder | core/runtime/runtime.go:133-153 | in every run without transport errors on a connection its requests are answered in the order they were sent, all but at most the last |
| ProtocolTheorems.StartServes | core/runtime/runtime.go:79-129 | `Start` on a stopped supervisor can reach a ready state on a fresh connection with no tenant |
| ProtocolTheorems.RestartServes | core/runtime/runtime.go:157-203 | `Restart` kills the process it replaces and can reach a ready state on a fresh connection |
| ProtocolHandlers.UnknownHandlerAnswered | core/runtime/pyclient/__init__.py:160-169 | in every run a caller that names an unregistered handler and gets a response, without transport errors, gets the error "HandlerNotFound" whose message is "no handler registered for '<its name>'" |
| ProtocolHandlers.UnknownHandlersDiffer | core/runtime/pyclient/__init__.py:160-169 | no such call is ever answered with a result, and two of them get the same answer iff they named the same handler |
| Supervision.Supervisor.Start | core/runtime/runtime.go:79-129 | does nothing when started, else ends connected to the new process or with no connection, by what listening, launching and accepting did |
| Supervision.Supervisor.Restart | core/runtime/runtime.go:157-203 | drops the old connection whatever happens and ends as a start would |
| Supervision.Supervisor.Stop | core/runtime/runtime.go:213-217 | ends with no connection, keeping only the record of the last process |
| Supervision.Supervisor.StopLocked | core/runtime/runtime.go:220-235 | clears the connection, the listener and `started` from any state |
| Supervision.EffectMeans | core/runtime/runtime.go:79-217 | the fields and the outcome of each operation, by what listening, launching and accepting did: connected and started iff all three succeeded, the record of a launched process kept |
| Supervision.AnswerMeans | core/runtime/runtime.go:145-152 | what a call makes of the incoming stream: the response that the bytes announced by its first four decode to, or an error |
| Supervision.Supervisor.CallPython | core/runtime/runtime.go:133-153 | refuses without a connection, sends nothing that cannot be encoded, writes one frame or the prefix that got through before a write failed, and returns what the incoming stream's next frame decodes to |
| Supervision.BodyAgrees | core/runtime/runtime.go:79-235 | a thread of the step machine that runs `Start`, `Restart` or `Stop` alone inside the mutex ends with exactly the fields and the outcome of the object's method, for every luck of the launch, and moves no other thread |
| SupervisionCalls.CallAgrees | core/runtime/runtime.go:133-153 | from taking the mutex to leaving it, over every interleaving with Python and all other threads and any pieces of writes and reads: Python is given exactly the request's frame after what was in the stream; the outcome is what the next frame decodes to of the stream made of what was there and what Python put there during the call, which is taken off, as the method does with its socket |
| SupervisionCalls.FailedSendAgrees | core/runtime/runtime.go:142-144 | over every interleaving as well, a write that fails leaves a proper prefix of the frame in the stream, reads nothing and ends in a TransportError |
| SupervisionCalls.NothingLeftOver | core/runtime/runtime.go:133-153 | when a call takes the mutex in a reachable state, a connection without transport errors has nothing in its streams, so the answer is made of what Python puts there during the call alone |
| Supervision.ReaderIsRecv | core/runtime/socket/socket.go:149-165 | reading a stream piece by piece, never asking for more than is missing, needs nothing more exactly when the frame reader has its message, and has that message |
| Tenancy.TenantPathInjective | core/runtime/db.py:100-113 | different tenants have different paths |
| Tenancy.FirstGivenDecides | core/runtime/db.py:100-113 | the path is the explicit one, else "pygo_<tenant>.db" of the explicit or else of the current tenant, else the configured default, else "pygo.db", empty ones counting as none |
| Tenancy.OwnFileIff | core/runtime/db.py:100-113 | a tenant's path leads to the file of its own name in the working directory iff the tenant has no slash |
| Tenancy.TenantsShareIff | core/runtime/db.py:100-113 | tenants without slash share a file iff they are the same; one without and one with slashes iff the latter's path leads to the former's file |
| Tenancy.EveryTenantIsShared | core/runtime/db.py:100-113 | every tenant has a different one, with slashes, whose path leads to the same file |
| Tenancy.CollidingTenants | core/runtime/db.py:100-113 | "a//b" and "a/b" lead to one file, and so do "data/../pygo_acme" and "acme" |
| Tenancy.DefaultConnectsShareFileIff | core/runtime/db.py:100-113 | two default connects open one file iff: they run for the same tenant, if neither has a slash; their paths lead to one file, if one has; the configured default leads to the tenant's file, if one runs for none; the default names a file at all, if both do |
| Tenancy.DotSlashDefaultIsTenants | core/runtime/db.py:100-113 | a default of "./" and a tenant's file name is the tenant's file |
| Tenancy.AbsoluteDefaultIsTenants | core/runtime/db.py:100-113 | and so is that file's absolute path |
| Dispatch.Process.Dispatch | core/runtime/pyclient/__init__.py:150-219 | the tenant global becomes the request's "tenant" argument, None if it has none, whatever it was; an unregistered handler is answered HandlerNotFound with its name; otherwise the handler, if it can be inspected, is called under that tenant with the cleaned arguments, and the reply carries its converted result, or its or the inspection's error with stack and handler name |
| DispatchTenants.OpensOwnDatabase | core/runtime/pyclient/__init__.py:159-197 | whatever was served before, a handler that connects by default opens "pygo_<tenant>.db" of the tenant in its own request's arguments, or the configured default or "pygo.db" without one |
| DispatchTenants.TwoTenants | core/runtime/db.py:100-113 | two requests in a row that carry the tenants a and b open the files named after a and after b, which differ if a and b do |
| Dispatch.CleanedMeans | core/runtime/pyclient/__init__.py:176-196 | argument by argument: the tenant never reaches the handler, a name with a leading underscore only if a parameter is called so, everything else always; only texts for parameters annotated int or float change, if they parse |
| Dispatch.RepliesDoNotLeak | core/runtime/pyclient/__init__.py:150-219 | a process that has served any other request replies to this one as a fresh process does |
| Dispatch.Process.Filter | core/runtime/pyclient/__init__.py:176-183 | the filtering loop keeps exactly the arguments that are not the tenant and not unaccepted metadata, in any iteration order |
| Dispatch.Process.CoerceAll | core/runtime/pyclient/__init__.py:184-196 | the conversion loop touches only accepted text arguments annotated int or float, each once |
| Dispatch.WirePackableIff | core/runtime/pyclient/__init__.py:131-147 | a converted value can be packed with a number of levels to spare iff the value is sendable with that many: dict keys packable, integers within 64 bits, sizes below 2^32, no deeper than that, private object fields aside |
| Dispatch.WireElementwise | core/runtime/pyclient/__init__.py:131-147 | lists, tuples and sets become lists of their converted elements in order, dicts keep their keys, other objects become their text |
| Dispatch.WireOfModel | core/runtime/pyclient/__init__.py:144-145 | an object becomes a dict field by field, in order, without the fields whose names start with an underscore |
| Dispatch.ReplyPackableIff | core/runtime/pyclient/__init__.py:120-147 | the response around a result can be packed, whatever its size, iff the result is sendable one level below the packer's limit of 511 |
| Dispatch.ReplySentIff | core/runtime/pyclient/__init__.py:120-147 | it can be packed and sent in one frame iff, besides, the packed result is shorter than 2^32 - 15 bytes |
| Dispatch.DeepestReply | core/runtime/pyclient/__init__.py:120-147 | a handler can answer with 510 lists inside each other and no more |
| Dispatch.LargestReply | core/runtime/pyclient/__init__.py:120-147 | and with 4294967275 bytes and no more |
| Dispatch.NestedSendableIff | core/runtime/pyclient/__init__.py:131-147 | n lists around None can be sent iff n is within the limit |
| Dispatch.WireFixedIff | core/runtime/pyclient/__init__.py:131-147 | conversion leaves a value alone iff it has only wire containers; its result does, so converting twice is converting once |
| Dispatch.OneFieldPopulatedIff | core/runtime/pyclient/__init__.py:197-219 | a reply of `dispatch` has exactly one of result and error populated iff the handler did not return None |
| Hub.HubLoop.OnRegister | websocket/hub.go:50-54 | adds the client and nothing else; all channels stay open iff the client's is |
| Hub.HubLoop.OnUnregister | websocket/hub.go:56-63 | removes and closes a known client, does nothing for an unknown one, and panics iff a known one's channel is closed |
| Hub.HubLoop.OnBroadcast | websocket/hub.go:65-75 | panics iff some client's channel is closed; otherwise, in any map order, every client with fewer than 256 messages waiting gets the message as its newest, every other is closed and removed, nobody else is touched |
| Hub.BroadcastAnyOrder | websocket/hub.go:65-75 | the step machine, visiting the members one by one in any order, does to each channel what the loop does |
| Hub.BroadcastEnds | websocket/hub.go:65-75 | and when all have been visited the hub is back at its select, with the message sent |
| Hub.VisitRemovesIff | websocket/hub.go:67-73 | a broadcast that comes to a member removes it iff 256 messages are waiting for it, and else gives it the message |
| Hub.StepKeeps | websocket/hub.go:46-77 | every step of the hub, its clients and their pumps keeps the delivery invariant |
| Hub.GapFreeDelivery | websocket/hub.go:46-77 | in every run in which no client is registered with a closed channel: drained plus buffered is exactly the contiguous run of broadcasts from registration to removal; in the map iff registered and open; no channel is closed twice or sent to after closing |
| Hub.KeepsUpStaysIn | websocket/hub.go:46-77 | in every run a registered client that is never unregistered and never has 256 messages waiting is still in the map, and has drained or waiting every broadcast that came to it since it joined |
| Hub.OnceIsOpen | websocket/hub.go:46-77 | a run that registers each client at most once, as the upgrade handler does, registers none with a closed channel |
| Hub.ReRegisteringPanicsIffClosed | websocket/hub.go:50-54 | registering a client again makes the next broadcast that visits it, or its unregistration, panic iff its channel is closed; any other registration keeps every guarantee |
| RetryQueue.JobQueue.Enqueue | core/runtime/jobs.py:80-103 | stores under the new id exactly the caller's name, payload, queue or the default one, limits and schedule, PENDING with nothing else set, and appends the id to that queue; nothing else changes |
| RetryQueue.JobQueue.Dequeue | core/runtime/jobs.py:105-118 | takes the oldest id of the queue and touches no other |
| RetryQueue.JobQueue.Requeue | core/runtime/jobs.py:120-132 | schedules the job and appends its id, touching nothing else; or raises, iff the date overflows, having changed nothing |
| RetryQueue.JobQueue.Fail | core/runtime/jobs.py:134-145 | counts the failure and retries with the doubled delay or marks the job DEAD; raises iff the retry date overflows, with the job left RETRY |
| RetryQueue.JobQueue.Complete | core/runtime/jobs.py:147-155 | marks the job COMPLETED with its result and touches no other |
| RetryQueue.JobQueue.ProcessNextJob | core/runtime/jobs.py:170-189 | is one step of the queue machine; returns True iff a stored job was taken and its worker succeeded, and raises iff the job is left behind |
| RetrySubmissions.CallWrites | core/runtime/jobs.py:134-189 | what one call writes on its job, field by field: the worker's result and COMPLETED; or the error text, one more retry and RETRY or DEAD; or only PROCESSING when an exception escapes; other jobs are untouched |
| RetrySubmissions.CallEnds | core/runtime/jobs.py:170-189 | it returns True iff the worker returned, raises iff the worker's exception escapes or the retry's date overflows, and returns False after any other failure |
| RetrySubmissions.WorkerSeesSubmission | core/runtime/jobs.py:80-189 | after any run the job that the next call hands to its worker was submitted under its id to that queue, with that name, payload and those limits |
| RetrySubmissions.SubmissionKept | core/runtime/jobs.py:105-189 | no run loses a stored job or changes its name, queue, payload, max_retries or retry_delay |
| RetrySubmissions.CompletedForGood | core/runtime/jobs.py:147-189 | once a worker has returned a result for a job, it stays COMPLETED with exactly that result in every continuation |
| RetryQueue.EveryJobPlaced | core/runtime/jobs.py:80-189 | in every run each stored job is in exactly one place: once in the queue it names, PENDING or RETRY; COMPLETED or DEAD; or left behind by an attempt of its own |
| RetryQueue.RunConservesIff | core/runtime/jobs.py:80-189 | a run ends with each live id exactly once in its queue and every other job COMPLETED or DEAD iff every retry it made had a date within the calendar and no worker's exception escaped |
| RetryQueue.LeftBehindForever | core/runtime/jobs.py:120-189 | a job left behind stays as it is, in no queue, in every continuation |
| RetryCalendar.FittingJobsConserve | core/runtime/jobs.py:120-145 | with a clock that stays within bounds, jobs whose last retry date fits at those bounds are never left behind by failures |
| RetryCalendar.LeftBehindIff | core/runtime/jobs.py:120-145 | that check at enqueueing is exact: a fresh job can be left behind by failures within the bounds iff it does not fit |
| RetryCalendar.StrandedAfter | core/runtime/jobs.py:120-145 | the run that leaves a job behind: its failures up to the first retry date that overflows |
| RetryCalendar.ThirtyNineRetriesStrand | core/runtime/jobs.py:120-145 | `max_retries=39, retry_delay=1` is left behind by its 39th failure at any time from 1970 to 5642 |
| RetryQueue.ProcessLowersTotal | core/runtime/jobs.py:170-189 | a call on a non-empty queue uses up one of the attempts left, or all of them on success or when the worker's exception escapes |
| RetryQueue.DrainsWithin | core/runtime/jobs.py:170-189 | with no new jobs, every sequence of calls on non-empty queues is at most as long as the attempts left, whatever the workers do, and one that long empties every queue |
| RetryQueue.DeathAndBackoff | core/runtime/jobs.py:120-145 | in every run a job is DEAD iff it failed max_retries + 1 times, its k-th retry delay is computed as retry_delay * 2^(k-1), and a dead job's delays add up to retry_delay * (2^max_retries - 1); a job left behind is never dead |
| RetryQueue.RetryIsScheduled | core/runtime/jobs.py:120-145 | after a failure the job is RETRY iff retries are left; it is scheduled its delay after now and last in its queue if that is a date or the delay is zero, and else unscheduled and in no queue |
| WorkerQueue.MemoryQueue.Enqueue | queue/queue.go:57-71 | appends the job, with three attempts if it asks for none |
| WorkerQueue.MemoryQueue.Dequeue | queue/queue.go:73-92 | removes and returns the first job with no run time or one before now, leaving the order of the others; every job ahead of it has a run time still to come, and nothing is returned iff all have |
| WorkerQueue.MemoryQueue.WorkerTurn | queue/queue.go:106-135 | one pass of the loop takes the first due job and drops, finishes, gives up or re-enqueues it last with one more attempt, by its handler's outcome |
| WorkerLaws.PollTakesFirstDue | queue/queue.go:73-92 | in every run a poll takes the first job whose run time is absent or past, never one whose time is to come, and comes back empty-handed iff there is none |
| WorkerLaws.StepEnds | queue/queue.go:120-131 | a job succeeds iff its handler returns without an error, is exhausted iff that fails with no attempts left, dropped iff its name has no handler, and nothing else counts an attempt or starts a handler |
| WorkerLaws.RunsAsEnqueued | queue/queue.go:57-71 | in every run job u is the u-th enqueued from outside, with the name, payload and run time it was enqueued with |
| WorkerLaws.ControlSteps | queue/queue.go:94-111 | what registering, processing, closing and cancelling change, and that a worker leaves at its select iff the queue is closed or its context done |
| WorkerLaws.CloseCanReturn | queue/queue.go:143-147 | when no worker has a job, each leaves at its next select and `Close` returns, with the queued jobs left as they are |
| WorkerTurn.TurnAgrees | queue/queue.go:106-135 | the steps of a worker that moves alone add up to that pass, and record its verdict for exactly that job |
| WorkerTurn.TurnAgreesInRuns | queue/queue.go:106-135 | and they do so, verdict included, in every state a run can reach, where the queue lists known jobs without repetition |
| WorkerMeasure.StartsBounded | queue/queue.go:106-135 | in every continuation of every run without outside enqueues, the handler starts are at most the sum of max(0, MaxAttempts - Attempts) + 1 over the jobs queued or held |
| WorkerMeasure.EachStartLowers | queue/queue.go:106-135 | that measure falls with every start of a handler and rises with no step but an outside enqueue |
| WorkerQueue.StepPlaces | queue/queue.go:57-147 | no step of any worker creates, copies or loses a job |
| WorkerQueue.ExactlyOnePlace | queue/queue.go:57-147 | in every run with any number of workers each job is in exactly one of: the queue, one worker's hands, succeeded, dropped, exhausted |
| WorkerQueue.AttemptsBounded | queue/queue.go:106-135 | a handler runs at most MaxAttempts minus the initial Attempts plus 1 times, and exactly that often for a job given up on |
| WorkerQueue.NothingHeldAfterClose | queue/queue.go:143-147 | once `Close` has returned no worker holds a job, then or in any continuation of the run |
| SingleQueue.SubmitAndDrain | core/runtime/jobs/queue.go:67-162 | a submitted job is found queued, as it was submitted, while the jobs before it are run with any outcomes, and then finished with the outcome of its own turn, the one after theirs |
| SingleQueue.CreateAndSend | core/runtime/jobs/queue.go:67-84 | a new job is queued with the caller's handler and arguments, and gets into the channel iff fewer than 128 are waiting there |
| SingleQueue.StaysStopped | core/runtime/jobs/queue.go:134-143 | a worker that has seen the shutdown starts no job in any continuation |
| SingleQueue.Queue.Execute | core/runtime/jobs/queue.go:145-162 | takes the head of the channel to done or failed by the executor's outcome and leaves every other job alone |
| SingleQueue.OneAtATimeInOrder | core/runtime/jobs/queue.go:134-162 | in every run at most one job is running, jobs start in channel order, and none starts twice |
| SingleQueue.SnapshotsMoveForward | core/runtime/jobs/queue.go:86-98 | between any two snapshots a job only moves queued, running, done or failed; handler and arguments never change, result and error only with the end, and then no more |
| SingleQueue.TurnFinishesHead | core/runtime/jobs/queue.go:134-162 | a turn of the worker finishes exactly the head of the channel with the executor's outcome, as the method does |
| RateLimit.GoLimiter.Check | core/middleware/security.go:137-171 | the filtering loop decides by the requests kept in the window and records an admitted one; reports what is left after it |
| RateLimit.AuthLimiter.IsAllowed | core/runtime/auth.py:243-260 | the same decision and the same record from the younger-than comparison |
| RateLimit.AuthLimiter.GetRemaining | core/runtime/auth.py:262-272 | the room left in the window, without changing anything |
| RateLimit.MiddlewareLimiter.Check | core/runtime/security_middleware.py:81-105 | the same decision with 5 requests for logins, 10 for uploads and 100 for anything else in 60 seconds; reports what was left before it |
| RateLimit.CheckedMeans | core/runtime/security_middleware.py:81-105 | the requests looked at are exactly the key's own later than now - window, in order; one more is let through, and remembered after them, iff they are fewer than the limit |
| RateLimit.ThreeAgree | core/runtime/security_middleware.py:81-105 | the three limiters take the same decisions on every sequence of requests |
| RateLimit.PurgeLosesNothing | core/middleware/security.go:137-171 | in every run with a non-decreasing clock, what is kept and what was ever admitted look the same to every window still to come |
| RateLimit.RefusedIffWindowFull | core/middleware/security.go:137-171 | a request is refused iff `limit` requests of its key were admitted in the window that ends at it, counted over the unpurged history since the key's last reset |
| RateLimit.WindowBound | core/middleware/security.go:137-171 | every window, wherever it ends, contains at most `limit` of the requests of a key admitted since its last reset |
| RateLimit.RemainingIsExact | core/runtime/auth.py:262-272 | the reported number is n iff exactly the next n requests at this instant succeed |
| RateLimit.RemainingExactIff | core/runtime/auth.py:262-272 | for a key with room that is so iff the window is positive |
| Base64Url.EncodeShape | core/runtime/auth.go:30-52 | the encoding never contains '.', uses only the alphabet, and never has length 1 modulo 4 |
| Base64Url.AlphabetIs | core/runtime/auth.go:44-46 | the alphabet is A to Z, a to z, 0 to 9, minus and underscore, in this order |
| Base64Url.EncodesGroups | core/runtime/auth.go:44-46 | every three bytes, as one number of 24 bits, are the four letters that stand for it; two or one left over are the first three or two letters of their group filled up with zeros |
| Base64Url.PythonWritesWhatGoWrites | core/runtime/auth.py:161-164 | padding and stripping it gives Go's unpadded text |
| Base64Url.PaddedMeans | core/runtime/auth.py:161-164 | the padded text is Go's and up to two '=', to whole groups of four |
| Base64Url.GoRoundTrip | core/runtime/auth.go:54-78 | Go's decoder reads back every byte string |
| Base64Url.NewlinesSkipped | core/runtime/auth.go:66-69 | Go's decoder skips newlines wherever they stand and refuses any other character outside the alphabet |
| Base64Url.EncodeInjective | core/runtime/auth.go:54-78 | equal encodings are encodings of equal bytes |
| Base64Url.PyRoundTrip | core/runtime/auth.py:192-197 | re-adding the padding and reading non-strictly gives back every byte string |
| Base64Url.StandardLettersRead | core/runtime/auth.py:192-197 | '+' and '/' are read as '-' and '_' are |
| Base64Url.PadMeans | core/runtime/auth.py:192-197 | what '=' does to the non-strict reader at each place of a group: nothing, one of two that end the text, or its end |
| Base64Url.JunkIgnored | core/runtime/auth.py:192-197 | texts that differ only in characters outside the alphabet, and not in length modulo four, read alike |
| Base64Url.JunkInserted | core/runtime/auth.py:192-197 | any multiple of four such characters put in at any position reads alike |
| Jwt.CompactSplits | core/runtime/auth.go:54-60 | a token whose parts have no '.' splits into exactly those three parts |
| Jwt.GoWritesSigned | core/runtime/auth.go:30-52 | signing yields the header, the caller's claims, with an expiry 24 hours ahead if they had none, and the MAC of the two, and fails iff the claims cannot be marshalled |
| Jwt.GoVerifiesWhatItSigned | core/runtime/auth.go:30-78 | verifying a freshly signed token, under any secret and at any time, gives the caller's own claims, with an expiry 24 hours ahead if they had none, unless the MACs differ or a positive expiry is past |
| Jwt.GoAcceptsIff | core/runtime/auth.go:54-78 | a token is accepted iff it is a header and payload without '.' and the encoded MAC of the two, and the payload decodes to claims that have not expired |
| Jwt.PyWritesSigned | core/runtime/auth.py:150-177 | an encoded token is the header, the payload and the encoded MAC of the two without padding, the form Go accepts |
| Jwt.PythonDecodesWhatItEncoded | core/runtime/auth.py:150-216 | decoding a freshly encoded token gives the caller's own payload with "exp" and "iat" set to whole seconds, exactly while its expiry is not past |
| Jwt.CurrentMeans | core/runtime/auth.py:209-211 | how an expiry is compared: numbers as they are, booleans as 1 and 0, a missing one as 0, anything else refused |
| Jwt.PyAcceptsIff | core/runtime/auth.py:179-216 | a token is accepted iff it is three parts without '.', the last of which reads leniently as the MAC of the first two, and the payload decodes to one that has not expired |
| Jwt.PySignatureTextVaries | core/runtime/auth.py:192-207 | all such texts of the signature get the same verdict, so several texts pass where Go accepts one |
| SourceMaps.CommentReadsBackIff | core/runtime/source_map.py:38-44 | the search finds in a comment, as it is injected, the name and line it was written with, iff the name is not empty and has no white space and the line is not negative |
| SourceMaps.CommentMeans | core/runtime/source_map.py:86-90 | an injected comment is "// PYGO_ORIGINAL: ", the name, a colon and the line in decimal digits, with a minus sign if negative |
| SourceMaps.MatchFinds | core/runtime/source_map.py:40-44 | what is found after the marker is a match: white space, a name without any, a colon, and a number with all its digits |
| SourceMaps.MatchIsGreedy | core/runtime/source_map.py:40 | wherever such a match exists one is found, and none has a longer name |
| SourceMaps.SearchIsLeftmost | core/runtime/source_map.py:40 | the search takes the leftmost marker that the pattern matches at |
| Text.ContainsIff | core/runtime/source_map.py:39 | one text is found in another iff it stands somewhere in it |
| Text.SpacesAre | core/runtime/source_map.py:40 | white space is the 29 characters that the Unicode database lists, and no others |
| SourceMaps.SpacedNameIsLost | core/runtime/source_map.py:38-44 | the comment of line 3 of "my app.pgo" is never read back |
| SourceMaps.InjectSourceMapComment | core/runtime/source_map.py:79-92 | the loop writes every line, followed by a comment if it is tracked |
| SourceMaps.InjectedReadsBackIff | core/runtime/source_map.py:29-92 | a file without markers of its own reads back, once injected, as one entry per tracked line inside it, iff for every such line the name and its source line can be read back from a comment |
| SourceMaps.InjectedReadsBack | core/runtime/source_map.py:29-50 | generating from an injected file yields exactly one entry per tracked line g inside it, in order, at line g plus the number of tracked lines up to g |
| SourceMaps.DeletingMarkersRestores | core/runtime/source_map.py:79-92 | deleting the marker lines gives the original file back |
| SourceMaps.SourceMapGenerator.GenerateForFile | core/runtime/source_map.py:29-50 | collects the entries of all lines and stores them under the file, touching no other file's |
| SourceMaps.InjectAndGenerate | core/runtime/source_map.py:29-92 | the two as they are written, on text: inject, generate, and the round trip of both |
| SourceMaps.SourceMapGenerator.TranslateError | core/runtime/source_map.py:52-71 | an entry of least distance, the earliest on ties; the line itself for unknown files and files without entries |
| SourceMaps.CommentLineTranslates | core/runtime/source_map.py:52-71 | on an injected file a comment line's nearest entry is its own |
| SourceMaps.MovedLineNearest | core/runtime/source_map.py:52-71 | the nearest entry of a moved tracked line is the comment directly above it if the line before is tracked, else its own |
| SourceMaps.MovedLineTranslatesIff | core/runtime/source_map.py:52-71 | it translates to its own source line iff the line before is not tracked or has the same source line |
| Formatter.PyGoFormatter.FormatContent | core/runtime/pygo_fmt.py:32-75 | the loop with its running indent level formats each line at the level the lines before it leave |
| Formatter.FormattingKeepsLines | core/runtime/pygo_fmt.py:32-75 | the number of lines and every stripped line are kept |
| Formatter.FormattingIsIdempotent | core/runtime/pygo_fmt.py:32-75 | formatting formatted lines changes nothing |
| Formatter.FormatTwice | core/runtime/pygo_fmt.py:32-75 | the same two facts for the formatter object on text |
| Formatter.FormattedLine | core/runtime/pygo_fmt.py:38-93 | every line ends up as it is if empty or a comment, else as its stripped text behind four spaces per level of the lines before it, one level less if it only closes |
| Formatter.SumOfLine | core/runtime/pygo_fmt.py:48-70 | a line steps the level by one for an opening brace without a closing one, minus one for any closing brace, else not at all |
| Text.StripMeans | core/runtime/pygo_fmt.py:45 | stripping takes white space off both ends and nothing else, and leaves none there |
| Formatter.LevelIsReflectedSum | core/runtime/pygo_fmt.py:45-70 | the level after any lines is the sum of their steps minus its lowest prefix sum, 0 included |
| Formatter.LowestIsReached | core/runtime/pygo_fmt.py:45-70 | that lowest value is a prefix sum |
| Formatter.LowestIsBound | core/runtime/pygo_fmt.py:45-70 | and no prefix sum is below it |
| Pool.ConnectionPool.Initialize | core/runtime/connection_pool.py:47-60 | once only, adds one fresh open connection per successful connect |
| Pool.ConnectionPool.GetConnection | core/runtime/connection_pool.py:62-83 | the newest idle connection, else a fresh one if allowed, else the newest at the first poll before the timeout that finds any, else none |
| Pool.ConnectionPool.ReturnConnection | core/runtime/connection_pool.py:85-94 | keeps the connection, or closes it after shutdown or when the pool is full |
| Pool.ConnectionPool.CloseAll | core/runtime/connection_pool.py:96-105 | closes every idle connection and leaves none |
| Pool.StepConserves | core/runtime/connection_pool.py:47-116 | no step of any thread duplicates or loses a connection |
| Pool.EachConnectionInOnePlace | core/runtime/connection_pool.py:47-116 | in every run each created connection is in exactly one of idle, held by one thread, closed |
| Pool.IdleBounded | core/runtime/connection_pool.py:47-94 | initialized first, with min_size at most max_size, no run has more than max_size idle connections |
| Pool.IdleBoundIff | core/runtime/connection_pool.py:47-94 | over every run, initialized first, late or never, at most max_size connections are idle throughout iff those `initialize` opens fit beside those idle by then |
| Pool.LateInitializeExceeds | core/runtime/connection_pool.py:47-60 | a run in which they do not |
| Pool.NothingIdleAfterCloseIff | core/runtime/connection_pool.py:85-105 | in every run, once `close_all` has cleared the pool nothing is idle in any continuation, whatever threads were in the middle of returning, iff the pool had been initialized or min_size is 0 |
| Pool.GetAlone | core/runtime/connection_pool.py:62-83 | the steps of a thread that asks while no other moves add up to what `GetConnection` does |
| Pool.ReturnAlone | core/runtime/connection_pool.py:85-94 | and those of a return to what `ReturnConnection` does |
| Pool.AskerMoves | core/runtime/connection_pool.py:68-83 | a thread that found the pool empty connects iff fewer than max_size are idle by then, and when it waits takes the newest idle connection there is |
| Pool.ClosingSteps | core/runtime/connection_pool.py:96-105 | `close_all` sets the flag and then closes every idle connection |
| Pool.CircuitBreaker.Enter | core/runtime/connection_pool.py:200-211 | admission and cool-down as one step of the breaker |
| Pool.CircuitBreaker.Leave | core/runtime/connection_pool.py:213-229 | completion as one step of the breaker |
| Pool.BreakerFollowsHistory | core/runtime/connection_pool.py:182-229 | over all interleavings the breaker is open iff at least five completions failed since the last success or cool-down, its counter is their number, and a call is admitted only when closed or more than 60 seconds after the last failure, and refused only otherwise |
| Pool.CallWrites | core/runtime/connection_pool.py:200-229 | which entry each admission, refusal and completion adds to that history |
| Pool.LogCounts | core/runtime/connection_pool.py:213-229 | a success or a cool-down clears the count of failures, a failed completion adds one and is the last failure |
| Router.SplitPath | core/runtime/router.go:243-260 | the character loop yields the non-empty pieces between slashes |
| Router.MuxPath | core/runtime/router.go:104-116 | the route itself, or the path of the segments before its first parameter, with a slash |
| Router.ExtractPathParams | core/runtime/router.go:222-241 | binds each parameter to the path's segment at its place, and nothing for a path that is too short |
| Router.ParamBinds | core/runtime/router.go:233-241 | ":name" binds name to the path's segment at the last place where it stands |
| Router.OthersKept | core/runtime/router.go:233-241 | a name that no ":name" stands for keeps what it had |
| Router.SegmentsOfPath | core/runtime/router.go:243-260 | non-empty slash-free segments survive being written as a path and split again |
| Router.BuildAndExtract | core/runtime/router.go:222-260 | for every route and every binding of its parameters to non-empty slash-free values, extraction from the instantiated path, with anything after it, returns exactly the binding, and the mux path is a prefix of it |
| Router.PrefixOfInstance | core/runtime/router.go:104-116 | the subtree of a route with parameters contains every instance of it |
| Caches.GoMemoryCache.Get | cache/cache.go:42-55 | the unexpired value or a miss; a lapsed entry is dropped |
| Caches.GoMemoryCache.Set | cache/cache.go:57-66 | the key now holds the value until its time is over |
| Caches.GoMemoryCache.CleanupLoop | cache/cache.go:90-100 | drops exactly the lapsed entries, in any iteration order |
| Caches.PyMemoryCache.Get | core/runtime/cache.py:37-46 | the unexpired value, or None for a miss or a lapsed entry, which is dropped |
| Caches.PyMemoryCache.Set | core/runtime/cache.py:48-54 | as the Go cache, and forever without a ttl or with ttl 0 |
| Caches.PyMemoryCache.Delete | core/runtime/cache.py:56-60 | removes the key and says whether it was stored |
| Caches.PyMemoryCache.Remember | core/runtime/cache.py:135-143 | calls back iff `get` answers None, and then stores the result |
| Caches.GetFollowsHistory | cache/cache.go:42-100 | over every run with a non-decreasing clock and sweeps at any points, a read returns v iff the last set of the key wrote v, was not deleted or cleared since, and has not lapsed |
| Caches.PurgingIsInvisible | cache/cache.go:42-100 | leaving out every read and sweep of a run changes no later answer |
| Caches.RememberAgain | core/runtime/cache.py:135-143 | after a `remember` that called back and any run that leaves its key alone, another one calls back again iff the first result was None or has lapsed |

## Left out

- I/O and glue: process launching, sockets, signals, HTTP serving, file watching, SMTP, SQL drivers, the
  CLI and the HTML, OpenAPI and REST generators. The Redis branches of queues and caches.
- MessagePack and JSON are arbitrary codecs that read back what they wrote (or reject it), HMAC is an
  arbitrary function, and job ids are given from outside and are new.
- ProtocolTheorems.TenantsIsolated: files are told apart by where their paths lead when every directory
  exists; symbolic links, file systems that ignore case and names with a NUL are not modelled. It assumes
  that handlers do not call `set_tenant` themselves and pass no explicit path or tenant to `connect`. A
  tenant that is not a text is not part of the step machine.
- ProtocolTheorems.CallAnswered: says a call can be answered, not that it will be; Python may hang.
- The process-wide default supervisor and `SetDefault`, and killing and waiting for a process as the
  operating system does it.
- ProtocolHandlers.UnknownHandlerAnswered: how `repr` quotes and escapes a handler name; single quotes stand around it
  as it is.
- Dispatch.Process.Dispatch: the same, and `BaseException`s of handlers, which end the
  process.
- Dispatch.ToWire: cyclic objects, and Python's own recursion limit, with which `_to_wire` answers a value
  some hundreds of levels deep by a RecursionError that `dispatch` reports; subclasses of the basic types,
  and texts that cannot be encoded as UTF-8.
- Dead peers, ping timers and the HTTP upgrade of the hub; what of a broadcast is done when it panics.
- RetryQueue.JobQueue.Requeue: times are whole seconds; the fraction of now never decides whether a date
  overflows.
- RetryQueue.JobQueue.Dequeue: the scheduled time of a job is ignored, as in the source, so retries are not
  delayed; the scheduler and its cron expressions.
- WorkerQueue.MemoryQueue.Enqueue: the id and creation time it fills in; enqueueing one job object twice; handlers that enqueue; a second
  `Close`, which panics; the wait between polls.
- SingleQueue.Queue.Enqueue: blocking on a full channel is a separate step of the machine.
- The order in which Go's map iteration visits limiter keys, token cleanup, CSRF tokens, sessions and
  password hashing.
- Limiter times are integers; Python's are floating point.
- Base64Url.GoDecode: tokens are sequences of characters; bytes that are not UTF-8 do not occur.
- Jwt.PyVerify: an expiry that is a floating-point number is a real; NaN and infinities do not occur.
- SourceMaps.CommentReadsBackIff: digits are ASCII digits, white space is that of `Text.IsSpace`, and numbers
  of more than 4300 digits, which Python refuses to convert, are read; files have "\n" line ends only.
- Formatter.PyGoFormatter.FormatContent: works on text; reading and writing files and `format_model`.
- Pool.ConnectionPool.GetConnection: what others put into the pool before each poll is given from outside.
  Total open connections are not bounded, in the source either.
- `FramedConnection` of the pool, which reads with a single `recv`, and `bridge/bridge.go`, whose framing is
  right only if reads are never short.
- Router.ExtractPathParams: percent-decoding and the standard library's own path cleaning; literal segments
  are not compared, as in the source.
- `Has` of the Go cache, which ignores expiry; the unsynchronised deletion in `Get` is modelled as atomic;
  callbacks of `remember` that use the cache themselves.
- Workflows, i18n, validators, audit, the module manager, the tenant store and the query builder.
