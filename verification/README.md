# A model of the recorder service and the Sidecar

The repository makes videos with two long-running services: the recorder service, which captures
a camera, a microphone and a screen, streams them live and logs what was said; and the Sidecar,
which runs background Jobs from a database. Both are built from small machines that must hold
under any order of events. This project models those machines and proves what they are for.

| module | what it is |
|---|---|
| `Common`, `Bytes` | shared: options, sets, bytes and big-endian numbers |
| `CommandLine` | the quoting of a Windows command line, and how a program reads one |
| `FlvVideo` | the incremental FLV parser (Annex E of the Flash Video File Format Specification 10.1) |
| `Png` | the decoder of the card's still (section 9 of the PNG Specification, section 6 of RFC 2083) |
| `LineSplitter`, `LiveClaps`, `JsonLines` | readers of text, of a growing WAV, of a log of JSON lines |
| `JobEventFeed` | one poller of a table whose ids commit out of order |
| `Jobs`, `Sidecar`, `LeaseRenewal` | a Job's row, the sidecars that run Jobs, and when a cut-off one stops |
| `StreamSide`, `GoLive` | the Live Stream's supervisor, and End Stream over it |
| `Speech`, `RecordingSession`, `CrashRecovery` | a session's log: the speech detector, the take with its Chat Highlights, a crash |
| `FramesLost`, `MicAnchor` | losses gathered into spans; the mic's clock |
| `PreviewFeeds`, `CardFeed`, `CardPlanes` | what a browser is sent; when a card changes; how it is drawn |

A machine is given twice. Its steps are functions on a state, one for each callback, and the
results are about every run of them. Beside them a class holds the code's own fields, its methods
change them one at a time as the code does, and each method's contract ties its new state to
the step. A handler that awaits is split at its await. Processes, sockets, the database, clocks
and ffmpeg are the events and parameters of the steps.

## Where the code does not do what it says

Each of these is kept as the code has it and shown on an input; and what the code does promise is
proved, up to the exact condition where there is one.

- A settling write tried again is called safe (`settle-retry.ts`): it is, unless the same sidecar
  has claimed the Job again meanwhile. Then it settles the new run, and two handlers of one Job can
  work at once (`Jobs.SecondWriteChangesOnlyAHeldRow`, `Sidecar.LostAnswerRunsTwoHandlers`; exactly
  when, `Sidecar.TwoHandlersExactlyWhen`).
- A post that went out is not retried: unless its `posted` event lands after the author's Retry
  (`Sidecar.LatePostedStartsAgain`; exactly when, `Sidecar.StartedAgainExactlyWhenQueued`).
- The publish lane runs one Job: in each sidecar. An outage can leave two sidecars
  (`Sidecar.LapsedLeasePublishesTwice`; exactly when, `Sidecar.PublishesTwiceExactlyWhen`).
- The feed starts over for a first subscriber: unless that one read fails, which is never made
  again (`JobEventFeed.StartReadIsNotRetried`), so that old events are sent again
  (`JobEventFeed.FailedStartSendsTheRest`). Started on an empty table it reads from the first event:
  an event with a smaller id that commits after that one is lost
  (`JobEventFeed.NullStartLosesAnEarlierId`; exactly which ids, `JobEventFeed.NullStartKeepsInv`).
- The feed gives up no event that can be read: unless a page of smaller gaps kept it off
  (`JobEventFeed.VisibleGapLost`).
- FLV frames do not depend on chunks: unless a header's DataOffset is over 9
  (`FlvVideo.CutAfterShortHeadersOnly`).
- A watcher gets the config first: unless its socket was full as the config came
  (`PreviewFeeds.RefusedConfigIsNeverSent`; exactly when, `PreviewFeeds.ConfigInForceExactlyWhen`).
- A log that cannot be written stops the session: exactly unless it is one of the first
  two events (`RecordingSession.NeverStopsExactlyWhen`).
- A highlight is closed before the log's end: a crashed log's is not
  (`RecordingSession.RecoveryLeavesTheHighlight`).
- The listener hears one line per complete line: and an empty one per CRLF cut in two
  (`LineSplitter.AnyChunking`).

## Model

| member | source | states |
|---|---|---|
| CommandLine.Quote | apps/local/scripts/windows-guard.ts:163-176 | the loop over one argument: its result is the argument's quoted form, backslashes counted up to a quote or the end |
| CommandLine.JoinArguments | apps/local/scripts/windows-guard.ts:188-189 | the launched program's command line: every argument quoted, one space between |
| CommandLine.ReadsQuoted | apps/local/scripts/windows-guard.ts:163-176 | one quoted argument, wherever it stands before a space or the end, is read back as exactly that argument, under either rule for a doubled quote |
| CommandLine.ArgumentsRoundTrip | apps/local/scripts/windows-guard.ts:163-176 | for every argument list (empty arguments, embedded quotes, trailing backslash runs), reading the command line by the CommandLineToArgvW rules gives back the same list |
| CommandLine.JoinedIsInjective | apps/local/scripts/windows-guard.ts:188-189 | no two argument lists share a command line |
| FlvVideo.Parser.OnChunk | apps/local/recorder-service/flv-video.ts:28-69 | one chunk: what is emitted and kept is the whole-buffer parse of what was held and the chunk |
| FlvVideo.TurnIsStable | apps/local/recorder-service/flv-video.ts:30-57 | a turn the loop could take is the same turn once more bytes have come |
| FlvVideo.TypeFlagsDoNotMatter | apps/local/recorder-service/flv-video.ts:47-67 | of a tag's type byte only the low five bits are its type |
| FlvVideo.GarbageDropped | apps/local/recorder-service/flv-video.ts:33-41 | bytes before the first header change nothing of what follows |
| FlvVideo.KeepsWhatMatters | apps/local/recorder-service/flv-video.ts:28-69 | what the parser keeps after a chunk yields, with any future bytes, what the whole stream would have |
| FlvVideo.FedAsWhole | apps/local/recorder-service/flv-video.ts:25-70 | from any state of the parser, what it emits depends on the bytes, not on their chunks |
| FlvVideo.AnyChunking | apps/local/recorder-service/flv-video.ts:25-70 | two ways of cutting one stream emit the same configs and frames, leading garbage and headers in mid-stream included, when every header's DataOffset is at most 9 |
| FlvVideo.CutAfterShortHeadersOnly | apps/local/recorder-service/flv-video.ts:43-45 | chunk-independence after a header holds exactly when its DataOffset is at most 9: behind a longer one a tag is emitted or lost by where the chunk ended |
| FlvVideo.ReadsTags | apps/local/recorder-service/flv-video.ts:47-67 | a written list of video, audio and script tags gives exactly its AVC configs and frames, in order |
| FlvVideo.StreamRoundTrip | apps/local/recorder-service/flv-video.ts:25-70 | any bytes in which no FLV signature starts, then any streams one after another, in any chunks: the AVC records written come back, in order |
| JobEventFeed.Feed.ReadPage | apps/local/sidecar/job-event-feed.ts:88-112 | one page: the rows published, the gaps opened and closed, the cursor moved |
| JobEventFeed.Feed.MarkMissed | apps/local/sidecar/job-event-feed.ts:101-105 | every id skipped over becomes a gap first missed now |
| JobEventFeed.Feed.Expire | apps/local/sidecar/job-event-feed.ts:109-111 | exactly the gaps first missed longer ago than the TTL are given up |
| JobEventFeed.Feed.Poll | apps/local/sidecar/job-event-feed.ts:81-116 | a poll: starting over when asked, then pages until one is not full or a read fails |
| JobEventFeed.StartReadIsNotRetried | apps/local/sidecar/job-event-feed.ts:76-138 | over every run of subscribers coming and going and polls, once a first one has come and until the next comes to nobody: the first poll that finds a subscriber decides where everything sent from then on is read from, the answered start, or the old cursor and gaps if that one read failed |
| JobEventFeed.PagesSendAllAfter | apps/local/sidecar/job-event-feed.ts:87-115 | a poll of a table with no visible gap sends, page by page, exactly its ids past the cursor, in order and once |
| JobEventFeed.FailedStartSendsTheRest | apps/local/sidecar/job-event-feed.ts:43-50 | so after a failed start read a subscriber is sent all of the table past the old cursor, and the very first one, whose cursor is null, the whole table from its first id |
| JobEventFeed.AnsweredStartSendsWhatFollows | apps/local/sidecar/job-event-feed.ts:43-50 | after an answered one, exactly what comes after that start |
| JobEventFeed.Feed.Subscribe | apps/local/sidecar/job-event-feed.ts:135-138 | a subscriber comes: the first one has the feed start over |
| JobEventFeed.Feed.Leave | apps/local/sidecar/job-event-feed.ts:139-142 | a subscriber's scope closes |
| JobEventFeed.RowsInClosedForm | apps/local/sidecar/job-event-feed.ts:94-108 | what a page of rows in id order does to cursor and gaps, in closed form |
| JobEventFeed.NothingSeenIsNews | apps/local/sidecar/job-event-feed.ts:94-108 | whatever rows a read brings, in any order: what was seen stays seen and is never news again, and each row is news at most once |
| JobEventFeed.NullStartIsFirstId | apps/local/sidecar/job-event-feed.ts:100-106 | a null start records no gap below the first id read |
| JobEventFeed.NullRunIsARun | apps/local/sidecar/job-event-feed.ts:76-116 | every run of a feed that starts from null holds nothing until an event is read, and from then on is a run of the feed started just below the first event it published |
| JobEventFeed.NullStartKeepsInv | apps/local/sidecar/job-event-feed.ts:76-116 | so over those runs too nothing is lost or published twice from the first event published on, and nothing below it is ever published |
| JobEventFeed.NullStartLateCommitIsPublished | apps/local/sidecar/job-event-feed.ts:53-60 | and the late commit is published as in a run with a start |
| JobEventFeed.NullStartLosesAnEarlierId | apps/local/sidecar/job-event-feed.ts:17-23 | an event that commits after the first one published, with a smaller id, is never published by a feed that started from null, over any continuation |
| JobEventFeed.ReadEffect | apps/local/sidecar/job-event-feed.ts:87-115 | a read publishes its page, waits for a missed id as long as the TTL, and then gives it up |
| JobEventFeed.EveryRunKeepsInv | apps/local/sidecar/job-event-feed.ts:81-116 | for every interleaving of late commits and paged reads: what lies between the start and the cursor is partitioned into published, missed and given up, and nothing is published twice |
| JobEventFeed.VisibleGapOnPage | packages/core/services/db-job-feed.server.ts:34-95 | a visible gap is on the page read exactly when fewer smaller gaps than the page size are visible |
| JobEventFeed.VisibleGapLost | apps/local/sidecar/job-event-feed.ts:109-111 | exactly which visible events are given up: older than the TTL and kept off the page by a full page of smaller visible gaps |
| JobEventFeed.LateCommitIsPublished | apps/local/sidecar/job-event-feed.ts:53-60 | an id visible within the TTL of first being missed is published, by the next read at the latest, if each read had room for the visible gaps |
| JobEventFeed.PageShrinksUnread | apps/local/sidecar/job-event-feed.ts:87-115 | each row read is one fewer visible unpublished row |
| JobEventFeed.ShortPageLeavesNothing | apps/local/sidecar/job-event-feed.ts:113-114 | a page that is not full leaves nothing visible unread |
| JobEventFeed.FullPagesAreBounded | apps/local/sidecar/job-event-feed.ts:113-115 | the page loop goes round at most as often as the unread rows fill pages |
| Png.ChunksOf | apps/local/recorder-service/png-rgba.ts:30-53 | the chunk walk ends, and gives the size and the joined IDAT bodies, or the code's errors |
| Png.UnfilterRow | apps/local/recorder-service/png-rgba.ts:19-24 | one row in place: each byte is its filtered byte and its prediction, modulo 256 |
| Png.DecodeRows | apps/local/recorder-service/png-rgba.ts:15-25 | all rows in place are the decoded rows of the inflated data |
| Png.DecodePngRgba | apps/local/recorder-service/png-rgba.ts:8-27 | the decoder is the decoded image of the file, errors included |
| Png.RowRoundTrip | apps/local/recorder-service/png-rgba.ts:55-76 | a row filtered by the specification's own formula of each of the five filters is given back by unfiltering |
| Png.RowsRoundTrip | apps/local/recorder-service/png-rgba.ts:15-25 | the same for a whole image, each row with a filter of its own |
| Png.ReadsChunks | apps/local/recorder-service/png-rgba.ts:30-53 | whatever chunks stand between them, the IDAT bodies are found and joined, and the size read |
| Png.ImageRoundTrip | apps/local/recorder-service/png-rgba.ts:8-27 | for every image, every choice of filters and every split of the compressed data, the decoder restores the exact pixels |
| Png.AnythingElseIsRefused | apps/local/recorder-service/png-rgba.ts:35-37 | a file too short, or that does not begin with the four bytes of a PNG, is refused |
| Png.HeaderIsRefusedUnlessRgba8 | apps/local/recorder-service/png-rgba.ts:40-47 | whatever its header chunk holds, a file is refused exactly unless it is 8-bit RGBA, not interlaced |
| Png.StopsAfterChunks | apps/local/recorder-service/png-rgba.ts:36-52 | a file that stops after whole chunks, or inside the next one's type, needs no end chunk; one that stops inside its length is refused |
| Png.UnknownFilterIsRefused | apps/local/recorder-service/png-rgba.ts:15-25 | rows are decoded until one's filter is unknown or missing, and then the image is refused |
| Png.FailsAsItsPartsDo | apps/local/recorder-service/png-rgba.ts:8-27 | the image fails as its chunks, its compressed data or its rows do, and otherwise has all its pixels |
| StreamSide.StreamSide.OnStart | apps/local/recorder-service/stream-side.ts:391-411 | Go Live: refused while one runs or is held, else held, shown as starting and launched |
| StreamSide.StreamSide.OnBanner | apps/local/recorder-service/stream-side.ts:405-410 | the listening banner: starting becomes connecting |
| StreamSide.StreamSide.OnBlock | apps/local/recorder-service/stream-side.ts:318-324 | a progress block: the first frame makes it live, unless its push is lost |
| StreamSide.StreamSide.OnPushLost | apps/local/recorder-service/stream-side.ts:336-340 | the push lost: one reconnect if it was live |
| StreamSide.StreamSide.OnPushBack | apps/local/recorder-service/stream-side.ts:341-344 | the push back: live again if it has framed |
| StreamSide.StreamSide.OnStall | apps/local/recorder-service/stream-side.ts:300-309 | a stall: quit, and its going remembered for the exit handler |
| StreamSide.StreamSide.OnExited | apps/local/recorder-service/stream-side.ts:348-363 | the exit handler up to its await |
| StreamSide.StreamSide.OnGone | apps/local/recorder-service/stream-side.ts:364-367 | the exit handler after its await |
| StreamSide.StreamSide.OnTimer | apps/local/recorder-service/stream-side.ts:249-259 | the relaunch timer: launches unless the Live Stream ended or another runs |
| StreamSide.StreamSide.OnEnd | apps/local/recorder-service/stream-side.ts:429-441 | the end: nothing held, no timer, the process told to quit once |
| StreamSide.StreamSide.OnEndPressed | apps/local/recorder-service/stream-side.ts:447-450 | End Stream pressed: shown as ending while it goes on |
| StreamSide.StreamSide.OnSwitchScene | apps/local/recorder-service/stream-side.ts:453-457 | a scene switch reaches the running process unless it is ending |
| StreamSide.EventKeepsInv | apps/local/recorder-service/stream-side.ts:195-457 | every callback, from any state that keeps the supervisor's invariant, keeps it |
| StreamSide.EveryRun | apps/local/recorder-service/stream-side.ts:248-457 | over every run: at most one process has not exited; held exactly while neither idle nor ended; live means framed with its push not lost; a process not ending shows the current scene; and what is held always has a process, an exit handler or a timer to launch it again |
| StreamSide.EveryRunShows | apps/local/recorder-service/stream-side.ts:195-457 | over every run the status shown, the scene and the reconnects said are exactly what has happened: ending once pressed, live while the running process's frames go out, reconnecting, connecting from the banner on, or starting |
| StreamSide.OnAirIsShown | apps/local/recorder-service/stream-side.ts:316-346 | so a running process not told to end, with a frame and its push, not heard to exit, is shown live or, once pressed, ending, and has the time it came on air |
| StreamSide.LinesAreHeard | apps/local/recorder-service/stream-side.ts:316-345 | a progress block, a push lost and a push back change exactly what they tell of the running process, and the time it last came on air |
| StreamSide.StartBegins | apps/local/recorder-service/stream-side.ts:391-411 | a Go Live is refused while one runs or is held, and otherwise begins with nothing of the last |
| StreamSide.LaunchesFresh | apps/local/recorder-service/stream-side.ts:261-291 | a process launched shows the scene then current and has done nothing yet, and no other is touched |
| StreamSide.IsLetGo | apps/local/recorder-service/stream-side.ts:348-367 | each timer, quit and exit handler is done with once it has come, and a process whose going was awaited runs no more |
| StreamSide.StallQuits | apps/local/recorder-service/stream-side.ts:300-309 | a stalled process is told to quit, and its exit handler waits for that quit |
| StreamSide.RelaunchedOnceGone | apps/local/recorder-service/stream-side.ts:348-367 | over every run a timer launches exactly while the Live Stream is held, with nothing else running, the process before it exited and its quit done |
| StreamSide.EndingOnlyEnds | apps/local/recorder-service/stream-side.ts:195-201 | ending is left only for ended, and what is over starts again only at Go Live |
| StreamSide.NothingLaunchesAfterEnd | apps/local/recorder-service/stream-side.ts:429-441 | after an end, whatever was under way, nothing is launched and nothing held until the next start |
| StreamSide.WaitsBackOff | apps/local/recorder-service/stream-side.ts:348-363 | over every run, each wait before a relaunch is the first again after a healthy process, and otherwise twice the one before it up to the longest |
| GoLive.GoLive.Finish | apps/local/recorder-service/go-live.ts:171-180 | the first to come stops the push and starts the one close; later comers change nothing |
| GoLive.GoLive.OnRecorded | apps/local/recorder-service/go-live.ts:284-288 | Record begun: which session is streamed, and on which Broadcast |
| GoLive.GoLive.OnSessionEnded | apps/local/recorder-service/go-live.ts:227-235 | a streamed session's end ends the stream, and finishes its End Stream |
| GoLive.GoLive.OnEndStream | apps/local/recorder-service/go-live.ts:318-326 | End Stream: refused, ignored while one is pending, or accepted |
| GoLive.GoLive.OnWaitOver | apps/local/recorder-service/go-live.ts:326-338 | the wait over, whether or not the stop throws |
| GoLive.GoLive.OnClosed | apps/local/recorder-service/go-live.ts:174-179 | the push stopped: the message is sent |
| GoLive.EventKeepsInv | apps/local/recorder-service/go-live.ts:171-181 | every callback keeps each End Stream in exactly one of: pending, closing, told |
| GoLive.EachEndStreamToldOnce | apps/local/recorder-service/go-live.ts:171-181 | each accepted End Stream is told at most once, with its own session's Broadcast, exactly once when nothing is left under way; and nothing else is told |
| GoLive.ToldOnceStopped | apps/local/recorder-service/go-live.ts:174-179 | when it is told, every process launched by the step that began its close has exited, whatever came between |
| GoLive.EndsIt | apps/local/recorder-service/go-live.ts:171-235 | the streamed session's end, an End Stream's wait however it ends, a Go Live that fails and the service's close each end the side, and finish the End Stream they belong to |
| GoLive.EndedForGood | apps/local/recorder-service/go-live.ts:171-235 | over every run such an event leaves nothing held, ended shown, every process launched exited or told to quit, and none is launched until the next Go Live |
| GoLive.RecordedIsStreamed | apps/local/recorder-service/go-live.ts:284-288 | Record begun, its session is the one streamed, on that Broadcast |
| GoLive.PressIsShown | apps/local/recorder-service/go-live.ts:318-326 | an accepted End Stream is shown as ending at once and its wait begun, and nothing is stopped yet |
| GoLive.PressesThatAddNothing | apps/local/recorder-service/go-live.ts:318-323 | a press changes nothing exactly when one is pending, nothing is streamed, or another session records |
| Jobs.FailureKeepsSound | packages/core/services/db-job-settle.server.ts:68-152 | the retry rule keeps a row's starts paid for and inside its grants |
| Jobs.ActKeepsSound | packages/core/services/db-job-operations.server.ts:160-408 | every statement on a row keeps it: starts paid for exactly by attempts, lost runs put back and deliberate stops; attempts inside the kind's; never-re-run kinds never put back |
| Jobs.RecoverySettlesAsALostLease | packages/core/services/db-job-operations.server.ts:378-404 | recovery settles a lost run exactly as the sidecar that lost its lease would have |
| Jobs.HowARunEnds | apps/local/sidecar/sidecar.ts:220-324 | what becomes of a held row by how its run ended: which endings spend an attempt, a free lost run, or nothing, and which end it |
| Jobs.RetriedExactlyWhen | packages/core/services/db-job-posting.server.ts:57-123 | the author's Retry changes a row exactly when it is a post that failed or was interrupted, at the attempt the author saw, not known to have gone out, and its parent succeeded |
| Jobs.RowMovesExactlyWhen | packages/core/services/db-job-operations.server.ts:160-408 | what takes a row out of the queue, out of its holder's hands and back from its end, and that nothing else does |
| Jobs.EachChangeIsLogged | packages/core/services/db-job-operations.server.ts:160-408 | every change of a row is told by one event that says what it was, a row nothing changed tells nothing, and only a running row is held |
| Jobs.ActKeepsOut | packages/core/services/db-job-posting.server.ts:20-34 | no statement starts a post that is known to have gone out and is not queued |
| Jobs.WentOutMeansSinceTheLastStart | packages/core/services/db-job-posting.server.ts:24-34 | a run went out exactly when a posted event, or a check that found it, stands after every start in the log |
| Jobs.SecondWriteChangesOnlyAHeldRow | packages/core/services/db-job-operations.server.ts:136-149 | a settling write changes a row exactly when the sidecar still holds it |
| Sidecar.HandlerStartsAreGranted | apps/local/sidecar/sidecar.ts:220-400 | over every interleaving of claims, failures, stops, lost leases, deaths, lost answers and recoveries: a post's handler starts at most once per enqueue and author's Retry, a Publish's once, any other's at most its attempts, free lost runs and deliberate stops |
| Sidecar.RetriedOnceForEachRun | packages/core/services/db-job-posting.server.ts:44-72 | over every run a Job is retried at most once for each of its runs the author asked to retry, however often and from however many tabs; so a post's handler starts at most once, and once more for each of those |
| Sidecar.EveryStartIsAccountedFor | packages/core/services/db-job-settle.server.ts:68-152 | a row that waits or runs has been started exactly as often as its attempt, lost runs and stops say |
| Sidecar.WentOutNeverStartsAgain | packages/core/services/db-job-posting.server.ts:44-80 | once a post that is not queued is known to have gone out, no later step starts its handler |
| Sidecar.StartedAgainExactlyWhenQueued | packages/core/services/db-job-posting.server.ts:24-80 | over every run, a post known to have gone out can be started again by some further steps exactly when its row is queued |
| Sidecar.LatePostedStartsAgain | packages/core/services/db-job-posting.server.ts:57-123 | and such a row is reached: a whole run in which the posted event lands after recovery and the author's Retry, and the post is started again |
| Sidecar.TriedAgainChangesNothing | apps/local/sidecar/settle-retry.ts:21-47 | a settling write whose answer was lost, tried again after any steps, changes no row, if the same sidecar did not claim the Job in between |
| Sidecar.LostAnswerRunsTwoHandlers | apps/local/sidecar/settle-retry.ts:10-14 | if it did, the second try fails the new run's row, and two handlers of one Job work at once |
| Sidecar.PublishesOneAtATime | apps/local/sidecar/lanes.ts:26-39 | the publish lane runs at most one Job in each sidecar over every interleaving, and one in all while no lease lapses under a living sidecar |
| Sidecar.PublishesTwiceExactlyWhen | apps/local/sidecar/sidecar.ts:384-400 | from every reachable state, two Publishes can come to run at once with no further lapse exactly when two sidecars are alive, or one is and the lease is free |
| Sidecar.LapsedLeasePublishesTwice | apps/local/sidecar/sidecar.ts:384-400 | once a lease lapses under a sidecar that still works, two Publishes do run at once |
| Sidecar.HeldUntilTaken | packages/core/services/db-job-operations.server.ts:136-149 | a working run's row leaves it exactly at a recovery of its Job, or a write by another run of the same sidecar and Job |
| Sidecar.TwoHandlersByAClaimBeside | apps/local/sidecar/sidecar.ts:384-400 | a step sets two handlers of one Job to work exactly when it is an answered claim of a Job one of whose runs still works |
| Sidecar.TwoHandlersExactlyWhen | apps/local/sidecar/sidecar.ts:384-478 | over every run, two handlers of one Job come to work at once exactly when a working run loses its row so and its Job is claimed again while it still works |
| Sidecar.CalmRunsOneHandler | apps/local/sidecar/sidecar.ts:424-433 | so no two handlers of one Job work at once, in one sidecar or two, if recovery takes no row still worked on and no sidecar claims a Job it is still settling |
| Sidecar.SidecarsComeAndGo | apps/local/sidecar/sidecar.ts:403-530 | a sidecar is up from its boot until it leaves or dies, told to stop or not, and nobody else is touched |
| Sidecar.LeaseIsTheNamedOnes | packages/core/services/db-job-operations.server.ts:545-610 | over every run a lease is held only in the name on it, which changes only when a sidecar comes up while none is held |
| Sidecar.RunsGoThrough | apps/local/sidecar/sidecar.ts:220-400 | a run ends, settles by its own ending, and is over, its Job out of the map, once its write is answered or given up |
| Sidecar.FilledWhileRoom | apps/local/sidecar/sidecar.ts:384-400 | a lane is filled as far as there are Jobs and room |
| Sidecar.Runner.FillLane | apps/local/sidecar/sidecar.ts:384-400 | filling a lane with whatever the database answers leaves at most one Publish in the map |
| Sidecar.Runner.Settle | apps/local/sidecar/sidecar.ts:220-324 | which write a run's ending makes, as the sidecar stands |
| Sidecar.Runner.Heartbeat | apps/local/sidecar/sidecar.ts:460-478 | a heartbeat cuts off exactly the runs of the Jobs no longer held |
| Sidecar.Runner.Ended | apps/local/sidecar/sidecar.ts:375-380 | a run's end takes out whatever entry its Job has |
| Sidecar.NeverReRunNames | apps/local/sidecar/job-kind.ts:255-264 | the names recovery must not retry are exactly those of the never-re-run kinds |
| LeaseRenewal.Renewal.Renew | apps/local/sidecar/lease-renewal.ts:26-54 | one renewal, hung, failed or answered |
| LeaseRenewal.EachRenewalCounts | apps/local/sidecar/lease-renewal.ts:26-54 | by what the database said and when: an answer in time starts the tolerance again or stops the sidecar at once, and a late one counts as none |
| LeaseRenewal.SilenceStopsInTime | apps/local/sidecar/lease-renewal.ts:26-54 | for any pattern of hangs and failures, from the first renewal of a sidecar or after any answered one: it runs on for the whole tolerance and has stopped by the latest stop its timing allows |
| LeaseRenewal.EveryRunStopsInTime | apps/local/sidecar/lease-renewal.ts:26-54 | whatever the renewals answer, over every run from the sidecar's start: running on, the last answer is no older than the tolerance and a wait; stopped by silence, it was older, and by the latest stop; stopped by another's lease, a renewal was answered so |
| LeaseRenewal.LatestStopIsReached | apps/local/sidecar/lease-renewal.ts:42-52 | and for every timing a silence stops it exactly then: failing attempts that fill the tolerance as far as they can, and one more that hangs |
| LeaseRenewal.StopsBeforeRecovery | apps/local/sidecar/sidecar-timing.ts:2-25 | with safe timing, over every run, a sidecar stopped by silence was so before another may recover a Job heartbeated within a heartbeat period of the last renewal answered |
| LeaseRenewal.StopsInTimeExactlyWhen | packages/core/services/db-job-operations.server.ts:342-347 | for every timing, every silence stops the sidecar before recovery exactly when the latest stop is before it |
| LeaseRenewal.SafeExactlyWhen | apps/local/sidecar/sidecar-timing.ts:2-25 | when a renewal may hang for the wait between two, and one fits the tolerance, that is exactly safe timing: wait, lease time and heartbeat period within the Job's lease |
| LeaseRenewal.SidecarTimingIsJustSafe | apps/local/sidecar/sidecar-timing.ts:27-37 | the numbers in force stop in time with a margin of exactly nothing |
| Speech.SpeechDetector.OnLine | apps/local/recorder-service/speech-detector.ts:83-101 | a silence line: warming up over, a speech begun, or one ended |
| Speech.SpeechDetector.OnProgress | apps/local/recorder-service/speech-detector.ts:106-112 | the file has run on: the speech becomes a Take once provably long enough |
| Speech.SpeechDetector.OnStop | apps/local/recorder-service/speech-detector.ts:117-119 | a speech still going ends where the file does |
| Speech.SpeechDetector.End | apps/local/recorder-service/speech-detector.ts:67-73 | a speech's end, and nothing when none is going |
| Speech.EndIsAccepted | apps/local/recorder-service/speech-detector.ts:44-59 | wherever the file ends, a speech's end is Clip-length exactly when it was a Take |
| Speech.EveryRunIsAccepted | apps/local/recorder-service/speech-detector.ts:61-121 | over every run of detector calls the marks are in order: warmed up at most once and before any speech, speeches starting and ending in turn, one Take mark at most in each |
| Speech.TakeExactlyWhenClip | apps/local/recorder-service/speech-detector.ts:20-28 | in any marks in order, a speech's end is Clip-length exactly when one Take mark lies inside it, and otherwise none does |
| Speech.EachCallTells | apps/local/recorder-service/speech-detector.ts:67-119 | over every run, exactly what one more call tells: a speech begun unless one is going or a stop was asked for, the one going ended, the warming up over once, a Take once |
| Speech.SilentOnceStopped | apps/local/recorder-service/speech-detector.ts:75-81 | a stopped detector that was told to stop says nothing more |
| Speech.TakesAreProvablyLong | apps/local/app/silence-detection-constants.ts:55-67 | over every run, a Take marked by progress was marked only once the file had run a Silence Length past the minimum Clip length |
| Speech.SpeechEndsAtItsSilence | apps/local/recorder-service/speech-detector.ts:37-58 | over every run in which silences are reported in time, a speech ends where its silence starts, to within the tolerance: no Take is stretched |
| JsonLines.AppendedIsRead | apps/local/recorder-service/crash-recovery.ts:48-53 | a record appended to any file, torn last line or not, is read after all that was read before |
| JsonLines.CutReadsAPrefix | apps/local/recorder-service/crash-recovery.ts:29-46 | a file cut off after any number of characters reads as its first records |
| CrashRecovery.Recover | apps/local/recorder-service/crash-recovery.ts:97-139 | the appends one session's recovery makes, numbered on |
| CrashRecovery.MaxNumberOf | apps/local/recorder-service/crash-recovery.ts:101 | the highest number in the log: one of its numbers, and none is higher |
| CrashRecovery.OpenIsSpeaking | apps/local/recorder-service/crash-recovery.ts:104-119 | the speech found open is the one the detector's own rule has open, a Take or not alike |
| CrashRecovery.RecoveredIsComplete | apps/local/recorder-service/crash-recovery.ts:97-139 | a log cut anywhere after its first event and recovered keeps the rule and consecutive numbers, and is complete exactly when the mic's length is known or no speech was going |
| CrashRecovery.CutAnywhereRecovers | apps/local/recorder-service/crash-recovery.ts:60-150 | the file of a session, finished or not, cut after any character, mid-line or not, recovers to a good log with an end that begins with what was read, complete exactly when the mic's length is known or no speech was going; and recovering again changes nothing |
| RecordingSession.Take.LogOne | apps/local/recorder-service/recording-session.ts:315-335 | one event numbered, filed and sent; the first append that fails asks for the stop, or throws where there is none |
| RecordingSession.Take.Stop | apps/local/recorder-service/recording-session.ts:513-519 | the one stop: only the first reason counts |
| RecordingSession.Take.Hear | apps/local/recorder-service/recording-session.ts:391-396 | a detector call's marks, each sent |
| RecordingSession.Take.OnCameraLost | apps/local/recorder-service/recording-session.ts:599-604 | the camera lost: said once, then the stop |
| RecordingSession.Take.OnSwitchScene | apps/local/recorder-service/recording-session.ts:625-630 | a scene change, unless it has ended |
| RecordingSession.Take.ChatHighlight | apps/local/recorder-service/recording-session.ts:631-636 | a highlight's edge, unless it has ended |
| RecordingSession.Take.FinishStop | apps/local/recorder-service/recording-session.ts:557-593 | the last marks, the open highlight hidden, the stop, each append landing or failing on its own |
| RecordingSession.ChatHighlights.OnCommand | apps/local/recorder-service/chat-highlights.ts:119-141 | a command waits for those before it |
| RecordingSession.ChatHighlights.OnTurn | apps/local/recorder-service/chat-highlights.ts:97-126 | a command's turn: refused once the stream has closed, and a hide unless that highlight shows |
| RecordingSession.ChatHighlights.OnRendered | apps/local/recorder-service/chat-highlights.ts:69-79 | the card drawn: the one showing leaves first |
| RecordingSession.ChatHighlights.OnHiddenStamped | apps/local/recorder-service/chat-highlights.ts:73-79 | its exit stamped: the hidden edge |
| RecordingSession.ChatHighlights.OnShownStamped | apps/local/recorder-service/chat-highlights.ts:80-91 | the entrance stamped: the shown edge |
| RecordingSession.ChatHighlights.OnHideStamped | apps/local/recorder-service/chat-highlights.ts:101-105 | the exit stamped: the hidden edge |
| RecordingSession.EverySessionIsInOrder | apps/local/recorder-service/recording-session.ts:315-640 | whatever races between Stop, camera loss, exits, a failing log and the highlights: numbers 1, 2, 3, opened by the start and a scene at 0, speech marks in order, highlights opening and closing in turn, a stop exactly when ended, last, and no highlight open then |
| RecordingSession.NothingFollowsTheStop | apps/local/recorder-service/recording-session.ts:391-396 | nothing is sent after the stop, though silence lines are still listened to |
| RecordingSession.FirstReasonStands | apps/local/recorder-service/recording-session.ts:511-516 | whoever asks to stop first gives the reason |
| RecordingSession.StoppingExactlyWhen | apps/local/recorder-service/recording-session.ts:315-335 | over every run a session has been told to stop exactly when the camera was lost, a process exited, Stop was pressed, or the line of some event sent could not be appended |
| RecordingSession.EachStopsTheSession | apps/local/recorder-service/recording-session.ts:511-604 | from every session not stopping, each of the first three stops it for its own reason, or for the log's when the camera's own line is the first to fail; and the stop ends the log, every speech and highlight closed before it |
| RecordingSession.EachEventSends | apps/local/recorder-service/recording-session.ts:315-640 | over every run one more event sends exactly what it has to say, nothing dropped or said twice |
| RecordingSession.AShowShows | apps/local/recorder-service/chat-highlights.ts:69-91 | a highlight asked for at rest, its awaits met, is the one showing, the one before it hidden first; one that could not be drawn changes nothing |
| RecordingSession.AHideHides | apps/local/recorder-service/chat-highlights.ts:97-106 | a hide of the highlight showing hides it; of any other it is refused and changes nothing |
| RecordingSession.CommandsTakeTurns | apps/local/recorder-service/chat-highlights.ts:119-141 | a command waits while one is in hand, and they are taken in the order asked |
| RecordingSession.ClosedRefuses | apps/local/recorder-service/chat-highlights.ts:119-145 | once the stream has closed no command or stamp changes anything |
| RecordingSession.ThrownGoesOn | apps/local/recorder-service/recording-session.ts:385-454 | over every run after a beginning that threw: the listeners go on sending, each event after the throw numbered one past its place, and nothing ever stops the session or sends a stop |
| RecordingSession.NeverStopsExactlyWhen | apps/local/recorder-service/recording-session.ts:442-519 | a session can never be told to stop, whatever happens to it, exactly when its first or second append failed |
| RecordingSession.SpeechIsSentAfterTheThrow | apps/local/recorder-service/recording-session.ts:391-396 | a silence line heard after the throw is sent, in a session whose start was not |
| RecordingSession.CrashedSessionRecovers | apps/local/recorder-service/crash-recovery.ts:60-150 | a session under way none of whose appends failed, whatever else has happened in it, cut off with its file ending after any character, recovers to a good log with an end, complete exactly when the mic's length is known or no speech was going |
| RecordingSession.FileIsWhatLanded | apps/local/recorder-service/recording-session.ts:315-335 | over every run, each append landing or failing on its own: the file holds exactly the events sent whose append landed, in order |
| RecordingSession.AnyCrashedSessionRecovers | apps/local/recorder-service/crash-recovery.ts:60-150 | and such a session, cut off after any character, recovers to a log whose numbers rise and which one end closes, holding up to the last number read exactly the events sent whose append landed; an open speech is closed exactly when the mic's length is known; recovering again changes nothing |
| RecordingSession.UnstartedFileIsLeft | apps/local/recorder-service/crash-recovery.ts:65-72 | a session whose start could not be appended has a file recovery leaves as it is |
| CrashRecovery.CutAnywhereRecoversHoles | apps/local/recorder-service/crash-recovery.ts:60-150 | any file of records with rising numbers, a start first and nothing after an end, cut after any character: what was read is kept, the numbers run on from the last one read, and one end closes it |
| RecordingSession.FileIsWhatWasSent | apps/local/recorder-service/recording-session.ts:315-335 | while no append has failed, the file is what was sent, and the log of a session |
| RecordingSession.RecoveryLeavesTheHighlight | apps/local/recorder-service/crash-recovery.ts:104-138 | crash recovery leaves open whatever highlight the cut log left open |
| FramesLost.Counter.Add | apps/local/recorder-service/frames-lost.ts:72-85 | a loss merged into the last near span of its picture, or a span of its own |
| FramesLost.Counter.Lost | apps/local/recorder-service/frames-lost.ts:93-104 | told now or once the period is over |
| FramesLost.Counter.OnCaptureDrop | apps/local/recorder-service/frames-lost.ts:140-146 | a dshow drop counted |
| FramesLost.Counter.OnGap | apps/local/recorder-service/frames-lost.ts:111-136 | a gap counted, from its start line or the file time |
| FramesLost.Counter.OnTimer | apps/local/recorder-service/frames-lost.ts:95-100 | the tell that waited |
| FramesLost.Counter.OnStop | apps/local/recorder-service/frames-lost.ts:174-177 | telling stopped |
| FramesLost.MissingCountsTheGap | apps/local/recorder-service/frames-lost.ts:42-44 | a gap of k+1 frame times, to within half a frame, is k frames missing, and never none |
| FramesLost.GapRunsForward | apps/local/recorder-service/frames-lost.ts:129-131 | a gap from a printed time never ends before it starts |
| FramesLost.EachLineIsItsLoss | apps/local/recorder-service/frames-lost.ts:111-146 | over every run, the loss each line counts for: where it begins by its own start line, how long it is, and how many frames of its own picture's rate |
| FramesLost.MergedExactlyWhen | apps/local/recorder-service/frames-lost.ts:72-85 | a loss joins the last span of its picture exactly when no more than a second lies between them |
| FramesLost.ToldAtOnceExactlyWhen | apps/local/recorder-service/frames-lost.ts:93-104 | a loss is told at once exactly when nothing has been told for half a second and no tell waits |
| FramesLost.TotalsSayTheLosses | apps/local/recorder-service/frames-lost.ts:88-91 | what is told is both pictures' frames lost so far, the screen's only if captured, and their spans |
| FramesLost.WaitingTellIsMade | apps/local/recorder-service/frames-lost.ts:95-100 | a tell that waits is made when its time has come, and not after a stop |
| FramesLost.SpansHoldEveryLoss | apps/local/recorder-service/frames-lost.ts:72-86 | the spans hold every frame of every loss, and each loss lies inside one of its picture's |
| FramesLost.OrderedLossesStayApart | apps/local/recorder-service/frames-lost.ts:72-85 | losses in time order make spans in time order, more than the merge distance apart |
| FramesLost.TotalsAreTheSpans | apps/local/recorder-service/frames-lost.ts:86-91 | under any lines at any times, totals, spans and losses agree |
| FramesLost.ToldOrWaiting | apps/local/recorder-service/frames-lost.ts:93-104 | before the stop the latest totals have been told or a tell waits; tells are at least the period apart |
| MicAnchor.Expression.Evaluate | apps/local/recorder-service/capture-args.ts:564-571 | the expression on one buffer, its four registers updated in its order |
| MicAnchor.AnchorIsTheEarliest | apps/local/recorder-service/capture-args.ts:564-566 | the recurrence is the least, over the buffers so far, of when each says the mic started plus the creep since |
| MicAnchor.NeverAfterTheStamp | apps/local/recorder-service/capture-args.ts:564-571 | no buffer is given a time after its stamp, and its lateness is how much earlier |
| MicAnchor.TimesNeverRunBack | apps/local/recorder-service/capture-args.ts:564-571 | stamps that never run backwards give times that never do |
| MicAnchor.AStallHardlyMovesIt | apps/local/recorder-service/capture-args.ts:532-537 | a buffer however late moves the anchor by no more than the creep |
| MicAnchor.ErrorIsTheLeastBound | apps/local/recorder-service/capture-args.ts:542-563 | with any drift and lateness the error is exactly the least of the buffers' bounds |
| MicAnchor.NeverBeforeItsSound | apps/local/recorder-service/capture-args.ts:542-563 | with a card no slower than the creep, no sound is placed before it was made |
| MicAnchor.SlowerCardsFallBehind | apps/local/recorder-service/capture-args.ts:532-537 | with a slower one it is, for every buffer of sound after any that was read on time |
| MicAnchor.AStallIsLoggedOnce | apps/local/recorder-service/capture-args.ts:567-569 | between two stall lines lies a buffer that was not late |
| PreviewFeeds.Feed.SendToAll | apps/local/recorder-service/preview-feeds.ts:111-119 | one chunk, to every watcher by whether it skips and its socket has room |
| PreviewFeeds.Feed.OnConfigVideo | apps/local/recorder-service/preview-feeds.ts:129-137 | a config: the buffer emptied, every watcher to start again |
| PreviewFeeds.Feed.OnFrameVideo | apps/local/recorder-service/preview-feeds.ts:138-147 | a frame: the buffer, then every watcher |
| PreviewFeeds.Feed.Serve | apps/local/recorder-service/preview-feeds.ts:195-203 | a browser that joins |
| PreviewFeeds.GopIsSinceKey | apps/local/recorder-service/preview-feeds.ts:142-144 | the buffer is exactly the frames since the last keyframe while they are at most 150, and then empty |
| PreviewFeeds.EveryDeltaFollows | apps/local/recorder-service/preview-feeds.ts:111-147 | across joins, full sockets, resets and reconnects, every delta a watcher is sent comes right after the frame before it, given that each config is followed by a keyframe |
| PreviewFeeds.SentExactlyWhen | apps/local/recorder-service/preview-feeds.ts:111-119 | a watcher is sent a frame exactly when its socket has room and it is a keyframe or the one after the frame it was last sent: never a backlog |
| PreviewFeeds.JoinerIsCaughtUp | apps/local/recorder-service/preview-feeds.ts:195-203 | a browser that joins is sent the config and every frame since the last keyframe while they are kept, and then the very next frame; it is sent to until it leaves, and nobody else notices |
| PreviewFeeds.BackToAKey | apps/local/recorder-service/preview-feeds.ts:14-19 | so each goes back, frame by frame, to a keyframe the watcher was sent |
| PreviewFeeds.DeltaAfterConfigBreaksIt | apps/local/recorder-service/preview-feeds.ts:129-137 | a delta that follows a config directly is sent to every watcher with room, and breaks it |
| PreviewFeeds.DecodesWithLastTaken | apps/local/recorder-service/preview-feeds.ts:111-205 | over every run each watcher decodes with the last config it took: the last its socket had room for, or the one in force as it joined |
| PreviewFeeds.ConfigIsInForce | apps/local/recorder-service/preview-feeds.ts:111-205 | so it decodes with the config in force unless the latest config since it joined met its full socket, whatever others refused and whatever it refused before |
| PreviewFeeds.ConfigInForceExactlyWhen | apps/local/recorder-service/preview-feeds.ts:111-205 | and, no config being one that came before, exactly then |
| PreviewFeeds.RefusedConfigIsNeverSent | apps/local/recorder-service/preview-feeds.ts:111-119 | a config that meets a full socket is lost to that watcher, which then gets the next keyframe without it |
| CardFeed.Feed.AdvanceTo | apps/local/recorder-service/card-feed.ts:250-263 | an exit over: the next card enters, or nothing shows |
| CardFeed.Feed.ApplyOne | apps/local/recorder-service/card-feed.ts:400-431 | one change, by where the card is |
| CardFeed.Feed.Draw | apps/local/recorder-service/card-feed.ts:265-276 | one slot: the exit, the changes due, the picture |
| CardFeed.Feed.OnTick | apps/local/recorder-service/card-feed.ts:278-315 | every slot the clock has reached, until the socket holds too much |
| CardFeed.Feed.OnConnect | apps/local/recorder-service/card-feed.ts:324-346 | a reader connects, the newest alone |
| CardFeed.Feed.OnDrain | apps/local/recorder-service/card-feed.ts:294-306 | the socket drained |
| CardFeed.Feed.ShowCard | apps/local/recorder-service/card-feed.ts:391-421 | a show asked for, with its stamps |
| CardFeed.Feed.HideCard | apps/local/recorder-service/card-feed.ts:423-432 | a hide asked for, with its stamp |
| CardFeed.EveryRunIsInSlots | apps/local/recorder-service/card-feed.ts:278-315 | over every run the k-th frame written to a reader is slot k, not before its time, and a late one repeats the frame before |
| CardFeed.ChangesKeepTheirTime | apps/local/recorder-service/card-feed.ts:249-276 | no change more than half a frame before it was asked for; a replacing card an exit's length (less 0.5 ms) after the exit began; each stamp given at most once |
| CardFeed.EveryRunHeadsAsAsked | apps/local/recorder-service/card-feed.ts:249-276 | over every run the card on the picture to stay, or waiting for the one leaving, is the one the last change to reach the picture asked for: none after a hide, whatever waited |
| CardFeed.ApplyHeads | apps/local/recorder-service/card-feed.ts:391-432 | one change: a card up begins to leave now, one leaving goes on leaving, and only with none up does a card enter at once |
| CardFeed.ApplyStamps | apps/local/recorder-service/card-feed.ts:391-432 | the stamps one change gives: a hide's; a show's entrance if it enters at once, and the exit of the card it found |
| CardFeed.AdvanceHeads | apps/local/recorder-service/card-feed.ts:250-263 | an exit over: the card that waited enters now, stamped, or none is up |
| CardFeed.ShowsTheCardUp | apps/local/recorder-service/card-feed.ts:241-276 | what is shown is the card up, leaving or not, its first frame one frame into that |
| CardFeed.EveryChangeIsAppliedOrWaits | apps/local/recorder-service/card-feed.ts:265-269 | over every run each change asked for has reached the picture once or still waits |
| CardFeed.SlotsAreFramesApart | apps/local/recorder-service/card-feed.ts:235-238 | a slot's time is its reader's start and its own number of frames on, and it is late only long past that and past the last drain |
| CardFeed.ReadersComeAndGo | apps/local/recorder-service/card-feed.ts:278-346 | the newest reader is written to from its launch's start on until it closes, an older one's close changes nothing, and a reader that can be written to is brought up to the clock |
| CardFeed.OnTimeSlotsLeaveNothingDue | apps/local/recorder-service/card-feed.ts:265-269 | a slot on time applies every change that is due, and no other |
| CardFeed.NoCardOutlastsItsExit | apps/local/recorder-service/card-feed.ts:249-263 | no slot on time shows a card leaving that has had its exit already |
| CardFeed.ReplacedAfterNineFrames | apps/local/recorder-service/card-feed.ts:168-169 | within one reader that is nine whole frames |
| CardPlanes.DrawPlane | apps/local/recorder-service/card-feed.ts:116-144 | one plane in its place: its rows drawn, the rest of the buffer kept |
| CardPlanes.DrawFrame | apps/local/recorder-service/card-feed.ts:146-166 | four planes that fill the buffer from end to end, each in its own part |
| CardPlanes.PlanesOf | apps/local/recorder-service/card-feed.ts:69-98 | the still's planes, each 2x2 block weighted by alpha |
| CardPlanes.ColoursAreLegal | apps/local/recorder-service/card-feed.ts:84-90 | any RGB gives luma 16 to 235 and colour differences at most 112 either way |
| CardPlanes.ColourEndsAreReached | apps/local/recorder-service/card-feed.ts:84-90 | and each end is reached |
| CardPlanes.ChromaStaysLegal | apps/local/recorder-service/card-feed.ts:87-96 | for any still, a block's weighted colour is 16 to 240 |
| CardPlanes.ColourReadsBack | apps/local/recorder-service/card-feed.ts:84-90 | luma and the two colour differences, read as BT.709 says, give back red, green and blue exactly |
| CardPlanes.PixelsReadBack | apps/local/recorder-service/card-feed.ts:77-83 | each pixel of a still is found by its row and column, its channels in the order red, green, blue, alpha |
| CardPlanes.PixelsHoldLuma | apps/local/recorder-service/card-feed.ts:84-86 | the luma and alpha planes hold each pixel's own, row by row |
| CardPlanes.BlocksHoldColour | apps/local/recorder-service/card-feed.ts:87-96 | the half-size planes hold each block's colour differences |
| CardPlanes.BlockIsItsFourPixels | apps/local/recorder-service/card-feed.ts:77-96 | for any still a block's colour is the alpha-weighted mean of its own four pixels', and neutral when none is seen |
| CardPlanes.BlendsTheTwoRows | apps/local/recorder-service/card-feed.ts:127-141 | between whole rows, the linear blend of the two it lies between |
| CardPlanes.BlankIsBlank | apps/local/recorder-service/card-feed.ts:146-159 | a frame with nothing showing is black, neutral and transparent, and as big as any other |
| CardPlanes.DrawnWithinItsTravel | apps/local/recorder-service/card-feed.ts:160 | the card is drawn where its pose says, never above its place nor past its travel |
| CardPlanes.FrameReadsBack | apps/local/recorder-service/card-feed.ts:146-166 | a frame read as yuva420p holds at each place that value of the still, blue's difference before red's |
| CardPlanes.UnseenPixelsNeverTint | apps/local/recorder-service/card-feed.ts:63-68 | a transparent pixel's colour never tints its block |
| CardPlanes.EveryFrameIsLegal | apps/local/recorder-service/card-feed.ts:111-166 | for any still, opacity and offset every luma byte is 16 to 235 and every colour byte 16 to 240 |
| CardPlanes.AlphaStaysWithin | apps/local/recorder-service/card-feed.ts:141-162 | scaled by any opacity from 0 to 1, the alpha byte is the rounded value: nothing wraps |
| CardPlanes.WholeRowsAreCopied | apps/local/recorder-service/card-feed.ts:127-141 | down by whole rows nothing is blended: each value is the still's, that many rows lower |
| CardPlanes.WholeRowsKeepAlpha | apps/local/recorder-service/card-feed.ts:127-162 | at full opacity the alpha plane is then the still's own, byte for byte |
| LineSplitter.Splitter.OnChunk | apps/local/recorder-service/launcher.ts:51-59 | a chunk: the complete lines told, the rest kept |
| LineSplitter.SplitReadsBack | apps/local/recorder-service/launcher.ts:50-59 | lines written with any mix of the three breaks are told as they were written, and what follows the last is kept |
| LineSplitter.AnyChunking | apps/local/recorder-service/launcher.ts:50-59 | however the output is cut, the lines told that are not empty are the whole text's, and each cut inside a CRLF, and nothing else, tells one empty line more |
| LineSplitter.AllLinesUnlessABreakIsCut | apps/local/recorder-service/launcher.ts:50-59 | so all lines are the whole text's exactly when no chunk ends inside a CRLF |
| LiveClaps.ReadWavLayout | apps/local/recorder-service/live-claps.ts:33-53 | the header loop ends, and is the walk over the chunks |
| LiveClaps.ReadsWrittenHeader | apps/local/recorder-service/live-claps.ts:28-53 | whatever chunks come before the samples, odd-sized ones padded, the layout is the last format and the place after the data header |
| LiveClaps.AnythingElseHasNoLayout | apps/local/recorder-service/live-claps.ts:33-36 | no layout without a whole RIFF header |
| LiveClaps.OtherSamplesHaveNoLayout | apps/local/recorder-service/live-claps.ts:42-45 | nor from a format of samples not 16 bits wide, or cut short |
| LiveClaps.SampleReadsBack | apps/local/recorder-service/live-claps.ts:119-127 | a sample is signed: each two's-complement value reads back |
| LiveClaps.ReadsTheRecording | apps/local/recorder-service/live-claps.ts:109-129 | for any recording, what is filled of the window is each frame's mean over its channels, for as many whole frames as there are and fit |
| LiveClaps.Mic.Update | apps/local/recorder-service/live-claps.ts:109-129 | after any updates of a growing file the filled samples are the mono mix of the same frames read at once |
| LiveClaps.ReadStays | apps/local/recorder-service/live-claps.ts:109-129 | what was filled stays as it was however the file grows |

## Left out

- Sidecar: time. A lease may lapse and recovery may take a row at any moment, so what rests on the timing is in `LeaseRenewal` and not tied to the steps here.
- Sidecar: a sidecar told to stop may here claim until it has died; in the code its lanes are interrupted first.
- Sidecar: sidecars with different registries. Every sidecar knows every kind, so a Job of an unknown kind is not modelled.
- Jobs: which queued Job a claim takes (the oldest whose dependency succeeded, held while recording). Any queued row of the lane may be claimed; a failed dependency is a step that fails a queued row.
- Jobs: `coveredBy` and `queuesBehind` at enqueue, and the cleanup hooks of a kind (`afterLostRun`, `afterFinalFailure`), which run outside the row.
- JobEventFeed: the last subscriber leaving in the middle of a poll, and two database calls of one poll disagreeing about the start.
- StreamSide: the health numbers and feed overflows, the bound on waiting for the listener, and the length of the relaunch wait, which is computed and not timed.
- StreamSide: a process that outlives its kill on the Windows side; `exited` is taken to mean gone once its quit is done.
- GoLive: the refusals before anything is started, and the Chat Highlights' start, which `RecordingSession` takes from there.
- RecordingSession: the repairs of files, the load sampler and what the screen recorder's tuning says; such an event is one that says nothing more.
- RecordingSession: what an error thrown out of a listener does to the service. After a beginning that threw the listeners are taken to go on; any of their events may also never come.
- RecordingSession: an append that fails is taken to write nothing; one that tears its line would cost the line after it too.
- RecordingSession: how long a stop waits for the writer to catch up. It finishes at any later step.
- CrashRecovery: stopping the processes a crash left behind, and the repair of files, of which only the mic's length (or that it is unknown) is used.
- JsonLines: JSON itself. A record is taken to be written without a line break and to read back, and no cut of one to read as a record.
- Speech: the pattern that finds a silence in a line of ffmpeg's output.
- FramesLost: the patterns of the gap lines, and the log line each gap prints.
- MicAnchor: aresample, which follows the times the expression gives, and ffmpeg's own arithmetic on them, which is not exact.
- CardFeed: the easing. A frame is known by its card, whether it leaves and how far in it is; where a card left from in mid-entrance is not kept. The timer that calls the next tick is not modelled: a tick may come at any time.
- CardPlanes: rounding to single precision in the planes; the cache of the last frame drawn.
- LiveClaps: a WAV of no channels, which the code cannot read either; rounding to single precision; the claps heard in the samples.
- PreviewFeeds: the still feed's JPEGs; a picture is its place among the frames, not its bytes.
- Png: inflate, a parameter; CRCs, which the code does not check either.
- CommandLine: everything of the launcher but the quoting.
- Launching processes, sockets, HTTP, the Effect runtime, PowerShell and file access, beyond the contracts above.
- The argument lists of ffmpeg other than the mic's clock, the calibration constants, clap detection, the pages and their routes.
- `take-arming.ts`: whether one writer at most is on the relay is not decided by that code.
