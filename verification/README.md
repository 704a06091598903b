# Verified models of the telephony stack

This project models seven parts of the repository in Dafny and proves what they promise over whole
runs, for all inputs. `dafny verify dfyconfig.toml` checks all of it.

- **Text agent.** `JsonText`, `JsonScan`, `JsonExtract`, `JsonTorn`: JSON objects as they may be
  printed, and the scanner that cuts one out of a model's reply. `ReplyText`: what is scanned.
  `LogTailer`, `LogMemory`, `LogRecords`: the incremental log reader. `AgentState` says what each
  request makes of conversations, drafts, suppression and mode; the class in `TextAgent` does it step
  by step; `AgentDuties` says what every request must do, `AgentSafety` and `AgentRecord` what runs of
  requests keep, `SendRace` what interleaved threads do.
- **Telnyx reconciler.** `TelnyxAccount` is a server with families of records; `Reconciler` has
  discovery, the plan and the apply loop; the `Plan...` modules prove that a run is never refused,
  reaches its goals, leaves the rest alone and converges, `PlanDesired` and `PlanNotices` in terms of
  the desired file and the account alone. `Pagination` is the list loop.
- **Voice agent.** `GrowingWav` and `WavGrowth` (reading a recording while it is written),
  `TurnVad` (end of turn), `EslWaiters` (completions and the threads that wait for them),
  `CallHandler` (a call from start to end record), `ChatSteps` (the steps of a chat request).
- **Dialplan simulator.** `Dialplan`: the depth-bounded interpreter and its unbounded meaning.
  `DialplanText`: how ranges, conditions and actions are written.
- **Marker gates.** `Markers` (the two line scanners) and `Monotonicity` (the running-peak loops).
- **Operator API.** `LoginDamper` and `CdrPager`. **Sessions.** `OidcSession`.

Objects that the code updates in place are classes, and its loops are loops, proved against
functions of the old state; the theorems are then about those functions.

What the outside decides is a parameter or an arbitrary choice: the JSON parser and the identity of
a record, regular expressions and int(), the bridge and the model, the ids a server mints, the
clock, keys and signatures. Hashes are assumed not to collide, signatures and nonces to have no dot.

## What the models show about the code

- A log that is truncated and refilled so that the saved offset falls just before a newline, or at
  the very end, is not noticed (`LogTailer.RefillBeforeNewlineIsLost`), although the offset is
  inside a record's line: it has to be inside the record itself (`LogTailer.TornExactly`).
  `LogTailer.QuietRefillLoses` says exactly what is lost.
- An event whose `data` is no object, or whose identity cannot be hashed, makes the poll raise, and
  every poll after it that reads that line: the log is not read past it
  (`LogTailer.PollCompletesExactly`).
- An unrecognised default mode behaves like `full` (`AgentSafety.UnrecognisedIsFull`); only a mode
  set at run time is checked.
- Delivery webhooks other than `message.sent` re-arm the agent once the message has left the last
  fifty (`AgentRecord.OwnWebhookIsIgnored`).
- When the directory for turns cannot be made a call leaves no end record, although its transcript
  could be written (`CallHandler.HandleCall`).
- A completion that comes after its execute timed out is taken for the next execute of the same
  application on that call (`EslWaiters.LateCompletionSignalsNext`).
- The dialplan simulator goes on to the next extension when a matched one holds only actions that do
  not end the call; its documentation has the first match win. The model follows the code.
- The damper's documentation speaks of five failures in a window; bursts of four separated by a
  window never lock, at 150 seconds a failure, and nothing is faster (`LoginDamper.RateBound`,
  `LoginDamper.SpanIsMet`).
- A negative limit makes the CDR pager return an empty page that claims more.
- A user whose name has a dot, an e-mail address for instance, is given a session cookie that is
  never accepted (`OidcSession.MintedIdentity`).
- A login state does not expire by itself: only the next login drops the old ones.

## Model

| member | source | states |
|---|---|---|
| JsonExtract.ExtractJsonObject | modules/telephony/text-agent.py:711-745 | over the reply with fences removed and whitespace stripped, the result is the parse of the leftmost balanced candidate that parses; an error exactly when no candidate parses or the reply is empty; it always terminates |
| JsonExtract.FindClose | modules/telephony/text-agent.py:719-743 | the inner loop finds the index at which the depth first returns to zero outside strings, or nothing |
| JsonExtract.CandidateIsBalanced | modules/telephony/text-agent.py:719-739 | the stretch the scanner takes from an opening brace is a candidate if and only if it is balanced, balance being said by a grammar of quoted strings and nested braces and not by the scanner |
| ReplyText.FencesGo | modules/telephony/text-agent.py:717 | of a reply cut at its fences, as early as they begin and with the language tag where there is one, the texts between them are left |
| ReplyText.EveryTextIsCut | modules/telephony/text-agent.py:717 | every reply can be cut so |
| ReplyText.PreparedIs | modules/telephony/text-agent.py:717 | what is then trimmed is the whitespace at both ends, all of it and nothing else |
| JsonExtract.PrintedObjectCloses | modules/telephony/text-agent.py:722-736 | in front of any text, the scan of a printed JSON object (RFC 8259 sections 4 and 7, with any layout) closes exactly at its last character |
| JsonExtract.PrepareKeepsObject | modules/telephony/text-agent.py:717 | removing fences and stripping leaves a fence-free object whole, and puts no opening brace before it |
| JsonExtract.PrintedObjectIsExtracted | modules/telephony/text-agent.py:711-745 | a printed object with no fence in it, after any text without an opening brace and before any text, is extracted: exactly that object |
| JsonTorn.PrefixDoesNotParse | modules/telephony/text-agent.py:606-612 | no proper non-empty prefix of a printed object parses, so that a record cut off in a write is not taken for one |
| JsonTorn.SuffixDoesNotParse | modules/telephony/text-agent.py:633-645 | no proper non-empty suffix of a printed object parses, so that a seek into a record is noticed |
| LogRecords.PrintedObjectIsRecord | modules/telephony/text-agent.py:606-645 | a JSON object on its own line satisfies what the tailer theorems assume of records, for every parser that rejects what is no JSON: every cut of it fails to parse |
| LogRecords.EnvelopeIsRecord | modules/telephony/text-agent.py:611-621 | so does the receiver's own envelope, which has no id and goes by the digest of its line |
| LogTailer.JsonlTailer.Dispatch | modules/telephony/text-agent.py:606-628 | one line: garbage is skipped, a known identity is not handed over again, a new one is remembered (all but 2500 forgotten above 5000) and handed over, and the lookup can raise |
| LogTailer.JsonlTailer.ReadPass | modules/telephony/text-agent.py:630-648 | a pass from an offset dispatches its lines in order, or reports an unclean start before dispatching any |
| LogTailer.JsonlTailer.PollOnce | modules/telephony/text-agent.py:650-674 | a poll as a whole: inode change and shrinking read from the top, an unclean first line reads again from the top, the bookkeeping is saved only on completion |
| LogTailer.TornExactly | modules/telephony/text-agent.py:633-645 | with the saved offset anywhere in a record's line, the guard against refills fires if and only if the offset is strictly inside the record: not at its start and not in the whitespace behind it |
| LogTailer.PollCovers | modules/telephony/text-agent.py:630-674 | a completed poll has every record of the log handed over, by event, after any append (torn writes included), truncation, replacement, or refill with the saved offset strictly inside a record |
| LogTailer.CompletedPollsCover | modules/telephony/text-agent.py:606-674 | the same after every completed poll of any run of polls |
| LogTailer.ReplacedIsCovered | modules/telephony/text-agent.py:660-663 | a log under another inode, or shorter than the saved offset, has all its records handed over by a completed poll |
| LogMemory.LinesAre | modules/telephony/text-agent.py:631-646 | the lines of a text are the text cut behind each newline, of which only the last may lack one |
| LogMemory.HandedInOrder | modules/telephony/text-agent.py:606-628 | a pass appends to the handler's calls and changes none: what it adds is in the order of the lines |
| LogMemory.MemoryOfOne | modules/telephony/text-agent.py:617-621 | a new identity is handed over and remembered; the one above 5000 leaves the last 2500 of the listing |
| LogMemory.MemoryIsBounded | modules/telephony/text-agent.py:617-621 | over any run at most 5000 identities are remembered, and only such as were handed over |
| LogTailer.NoIdentityTwice | modules/telephony/text-agent.py:617-623 | while at most 5000 identities are known none is handed over twice in a run, re-reads from the top included |
| LogTailer.PollCompletesExactly | modules/telephony/text-agent.py:611-616 | a poll completes if and only if no line it reads makes the identity lookup raise: one such line stops the poll, and every later one that reads it |
| LogTailer.QuietRefillLoses | modules/telephony/text-agent.py:633-645 | a refill that passes the guards loses exactly the records that begin before the saved offset and were neither handed over nor are repeated behind it |
| LogTailer.RefillBeforeNewlineIsLost | modules/telephony/text-agent.py:639-645 | being off a line boundary is not enough to be noticed: with the saved offset just before a newline the refilled record is lost |
| TextAgent.Agent.AppendMessage | modules/telephony/text-agent.py:373-384 | the message joins the conversation, of which the last fifty are kept; a human outbound clears the counter and the freeze |
| TextAgent.Agent.MarkAutoSent | modules/telephony/text-agent.py:386-400 | the counter goes up by one and the conversation freezes at the limit |
| TextAgent.Agent.Freeze | modules/telephony/text-agent.py:402-406 | the conversation is frozen for the escalation, whatever else it holds |
| TextAgent.Agent.Resume | modules/telephony/text-agent.py:408-413 | counter and freeze are cleared |
| TextAgent.Agent.Suppress | modules/telephony/text-agent.py:481-486 | the contact is on the suppression list, and nothing else changes |
| TextAgent.Agent.Unsuppress | modules/telephony/text-agent.py:488-496 | the contact is off the list; the answer says whether it was on it |
| TextAgent.Agent.CreateDraft | modules/telephony/text-agent.py:420-427 | the new draft is stored and every other pending draft of the contact is superseded |
| TextAgent.Agent.SweepExpiredDrafts | modules/telephony/text-agent.py:459-473 | exactly the pending drafts older than the cutoff become expired |
| TextAgent.Agent.SendDraft | modules/telephony/text-agent.py:1378-1419 | refused by the bridge: only the draft's time stamp changes; accepted: draft sent with text and reference, message recorded, and for an autonomous send the counter marked |
| TextAgent.Agent.GenerateDraft | modules/telephony/text-agent.py:1312-1344 | no draft without a key or a model reply; else a pending draft that supersedes the others |
| TextAgent.Agent.DraftAndMaybeSend | modules/telephony/text-agent.py:1355-1376 | a draft is made, and sent only when every gate is open and the confidence reaches the threshold |
| TextAgent.Agent.HandleInbound | modules/telephony/text-agent.py:1346-1438 | an opt-out suppresses and stops; a suppressed contact or mode off stops; else a draft and perhaps a send |
| TextAgent.Agent.HandleMissedCall | modules/telephony/text-agent.py:1440-1463 | the same gates for a missed call |
| TextAgent.Agent.OnReceived | modules/telephony/text-agent.py:2044-2076 | an inbound message: known ids are dropped, the message is recorded, escalation is checked before the answer |
| TextAgent.Agent.OnDelivery | modules/telephony/text-agent.py:2077-2120 | a delivery webhook: the guards, or a human outbound on record |
| TextAgent.Agent.ReviewAction | modules/telephony/text-agent.py:1847-1887 | approve, discard and the rest on a pending draft; a finished draft is left alone |
| TextAgent.Agent.SetMode | modules/telephony/text-agent.py:1181-1190 | only a known mode is accepted, and becomes mode and override |
| TextAgent.Agent.ResetMode | modules/telephony/text-agent.py:1192-1199 | the configured mode is back and the override gone |
| AgentSafety.RunInv | modules/telephony/text-agent.py:373-413 | every state a run of requests reaches keeps: counter and freeze against the trail of sends, suppression against the opt-outs, one pending draft a contact, sent drafts against deliveries |
| AgentSafety.KillSwitchBound | modules/telephony/text-agent.py:386-400 | between two re-armings (human outbound or resume) a contact gets at most max(1, max_auto) autonomous sends, over every sequential run |
| AgentSafety.OptOutIsKept | modules/telephony/text-agent.py:1346-1376 | between a contact's opt-out and the reset of its suppression no autonomous send reaches it |
| AgentSafety.EscalationIsKept | modules/telephony/text-agent.py:1485-1495 | between an escalation freeze and the next resume or human outbound no autonomous send reaches it |
| AgentSafety.DraftsOfARun | modules/telephony/text-agent.py:420-473 | at most one pending draft a contact; deliveries and drafts in status sent correspond one to one |
| AgentSafety.FinishedDraftsStay | modules/telephony/text-agent.py:1847-1887 | sent, discarded, expired and superseded drafts never change again, whatever the request |
| AgentDuties.NextAdds | modules/telephony/text-agent.py:1346-2120 | for every request, exactly which events it adds to the trail and in what order: the message heard, the escalation, the opt-out, the sends with their signed text, the re-armings |
| AgentDuties.OptOutIsObeyed | modules/telephony/text-agent.py:1346-1352 | from a received opt-out on: the contact is on the suppression list at once, nothing is drafted or sent for that message, and no autonomous send reaches the contact before its suppression is reset |
| AgentDuties.EscalationIsObeyed | modules/telephony/text-agent.py:1485-1495 | from a received request for a person on: the freeze comes before anything else the message leads to, and no autonomous send reaches the contact before a re-arming |
| AgentDuties.NextDrafts | modules/telephony/text-agent.py:1312-1376 | exactly which requests make a draft, with what text, confidence and status, and which drafts it replaces; no other draft changes |
| AgentDuties.ReviewDecides | modules/telephony/text-agent.py:1847-1887 | what a review does to a draft, action by action: text, status and reference; no other draft changes |
| AgentDuties.SweepExpires | modules/telephony/text-agent.py:459-473 | the sweep expires exactly the pending drafts last touched before the cutoff, and changes nothing else |
| AgentDuties.NextSettings | modules/telephony/text-agent.py:1181-1199 | mode, override and presence change by their own requests alone, and as those say |
| AgentRecord.RunRemembers | modules/telephony/text-agent.py:373-384 | in every state a run reaches, a conversation holds the last fifty of the messages the trail tells of, whole and in order |
| AgentRecord.DeliveredDraftKeepsReference | modules/telephony/text-agent.py:1378-1419 | contact, text and reference of every delivery are still those of its draft at the end of the run |
| AgentRecord.DeliveryIgnoredExactly | modules/telephony/text-agent.py:2077-2120 | a delivery webhook changes nothing if and only if one of its guards holds, and otherwise clears counter and freeze |
| AgentRecord.RecordedExactly | modules/telephony/text-agent.py:373-384 | in every state a run reaches, a reference is on record for a contact if and only if it is among the references of the last fifty messages of the trail |
| AgentRecord.OwnWebhookIsIgnored | modules/telephony/text-agent.py:2033-2120 | a webhook of a completed autonomous send with a reference changes nothing if and only if it is message.sent, or comes from elsewhere, or the reference is among the contact's last fifty |
| AgentRecord.OwnWebhooksAreHarmless | modules/telephony/text-agent.py:1378-2120 | after a completed autonomous send, through any further requests with fewer than fifty messages of that contact, the message is on record and all three webhooks change nothing |
| AgentSafety.UnrecognisedIsFull | modules/telephony/text-agent.py:1225-1249 | with a mode the gates do not know the answer is that of mode full, and open exactly without opt-out, freeze and VIP |
| AgentSafety.AfterHoursOnTheCircle | modules/telephony/text-agent.py:1215-1223 | after hours is being outside the working stretch on the day's circle, wrapped or not; an empty window is always after hours |
| SendRace.RaceBound | modules/telephony/text-agent.py:1355-1419 | with any interleaving of n sending threads and every other store operation the bound is max(1, max_auto) + n - 1, so one more than the sequential bound with the tailer and the event-socket listener |
| SendRace.BoundIsReached | modules/telephony/text-agent.py:2157-2164 | two threads do reach that bound, for every contact that is no VIP and every configured limit |
| SendRace.UndisturbedIsMaybeSend | modules/telephony/text-agent.py:1355-1419 | the steps of one thread with no other step between them come to the sequential send, refusals included |
| Reconciler.Engine.Apply | scripts/telnyx_reconcile.py:1392-1400 | the apply loop: the calls of the steps in order until one is refused, which leaves the state that the calls before it have made; report-only steps call nothing |
| Reconciler.RefusedExactly | scripts/telnyx_reconcile.py:1392-1400 | a run is refused if and only if, after some of its calls, the next one is |
| Reconciler.Engine.PlanRows | scripts/telnyx_reconcile.py:747-1206 | the row loops: a report for what does not resolve, one patch for a row whose record differs, nothing otherwise |
| PlanExecution.PlanRuns | scripts/telnyx_reconcile.py:413-1308 | executing a plan is running a list of server operations known from the plan and the minted ids |
| PlanExecution.JustRuns | scripts/telnyx_reconcile.py:421-443 | operations that never patch what is not there, nor attach a voice profile before the authentication method, are all accepted |
| PlanCore.ApplyIsNeverRefused | scripts/telnyx_reconcile.py:413-1400 | a run with --apply on any valid account, core connection or not, is never refused, and leaves a valid account |
| PlanGoalsMet.PlanCovered | scripts/telnyx_reconcile.py:413-1308 | whatever a plan patches, one of its goals (a record and fields it must have) wants |
| PlanGoalsMet.AllGoalsMet | scripts/telnyx_reconcile.py:413-1308 | with consistent goals one run meets all of them |
| PlanRowsMatch.AllRowsMatch | scripts/telnyx_reconcile.py:740-1308 | planned again after a run, the optional rows name the same records and want the same fields |
| PlanStable.CoreFound | scripts/telnyx_reconcile.py:275-376 | after a run discovery finds the same connection, number, profile and FQDN record, or the ones the run made |
| PlanQuiet.WholePlanQuiet | scripts/telnyx_reconcile.py:413-1308 | a plan is report-only exactly when its core sections are empty and no row's record differs |
| PlanConvergence.OneRunConverges | scripts/telnyx_reconcile.py:275-1400 | with the core connection in place: one run is not refused, and the plan made after it is report-only if and only if no two goals contradict each other |
| PlanTwoRuns.UniqueIsConsistent | scripts/telnyx_reconcile.py:740-1308 | a desired file with unique names and a core number row that agrees with the core makes no contradictory goals |
| PlanTwoRuns.UniqueConverges | scripts/telnyx_reconcile.py:275-1400 | for such a file one run converges when the core connection exists |
| PlanTwoRuns.FirstRun | scripts/telnyx_reconcile.py:445-508 | a run without the core connection makes it, and leaves an account the next run can work on |
| PlanTwoRuns.TwoRunsConverge | scripts/telnyx_reconcile.py:275-1400 | for such a file two runs converge when the core connection had to be made |
| PlanTwoRuns.TwoRunsExactly | scripts/telnyx_reconcile.py:275-1400 | for any file: the plan after the second run is report-only if and only if the goals after the first are consistent |
| PlanDesired.QuietIsDesired | scripts/telnyx_reconcile.py:275-1308 | a plan is report-only if and only if the account is as the desired file has it, field by field: connection, outbound settings, FQDN, number, profile, and every pinned record |
| PlanDesired.OneRunReachesExactly | scripts/telnyx_reconcile.py:275-1400 | with the core connection in place one run leaves the account as desired if and only if no two goals contradict each other |
| PlanDesired.OneRunReaches | scripts/telnyx_reconcile.py:275-1400 | it does for a file with unique names |
| PlanDesired.TwoRunsReach | scripts/telnyx_reconcile.py:275-1400 | and two runs do when the core connection had to be made |
| PlanNotices.PlanExists | scripts/telnyx_reconcile.py:310-1277 | there is a plan if and only if the core number exists and the recording pins have known fields with known values |
| PlanNotices.CreatesAsDesired | scripts/telnyx_reconcile.py:413-640 | every record a run creates has exactly the fields the desired file asks for |
| PlanNotices.ReportsExactly | scripts/telnyx_reconcile.py:740-1308 | exactly what a plan reports: pins whose record is missing, a WhatsApp number that is not enabled, retired profiles that are still there |
| PlanFrame.OthersUntouched | scripts/telnyx_reconcile.py:413-1308 | a run, the one that makes the core connection included, leaves every record that is no goal's exactly as it was |
| PlanFrame.UnlistedUntouched | scripts/telnyx_reconcile.py:740-1308 | of a family without rows in the desired file a run touches the core record at most |
| PlanFrame.AbsentFamiliesUntouched | scripts/telnyx_reconcile.py:740-1308 | the families that are neither listed nor of the core stay as they were, in contents and order |
| PlanFrame.OtherConnectionsUntouched | scripts/telnyx_reconcile.py:1102-1150 | without credential rows a run leaves every connection alone but the core one, found or made |
| PlanFrame.OtherNumbersUntouched | scripts/telnyx_reconcile.py:747-870 | without number rows a run leaves every number alone but the core one |
| PlanFrame.CoreKept | scripts/telnyx_reconcile.py:275-376 | after a run the core connection and number are the records that run was about |
| PlanFrame.TwoRunsLeaveAlone | scripts/telnyx_reconcile.py:275-1400 | the frame over two runs, the first of which may make the connection: absent families, and the other connections and numbers where those are not listed |
| PlanFrame.TwoRunsOthersUntouched | scripts/telnyx_reconcile.py:413-1308 | two runs leave every record alone that is no goal's of either |
| Pagination.GetList | scripts/telnyx_reconcile.py:219-246 | the page loop, against any server: rows of the pages in order up to the first that closes the list, or the error |
| Pagination.CompleteOrLoud | scripts/telnyx_reconcile.py:219-246 | against a server that pages honestly: the whole list in order for at most 5000 rows with a total, 4999 without; otherwise the error |
| Pagination.NeverTruncated | scripts/telnyx_reconcile.py:232-246 | against any server, a list that is returned was closed by its last page and not by the page limit |
| GrowingWav.Recording.ParseHeader | modules/telephony/voice-agent.py:682-698 | the chunk walk: first data chunk, with channels and bits of the last complete format chunk before it |
| GrowingWav.Recording.NewCallerSamples | modules/telephony/voice-agent.py:700-724 | one poll: the new whole 16-bit samples past the offset, every channels-th of them, and the new offset |
| WavGrowth.HeaderRoundTrip | modules/telephony/voice-agent.py:214-237 | parsing inverts wav_header whatever audio follows: 44 bytes, the channels and the bits it was given |
| WavGrowth.HeaderBytes | modules/telephony/voice-agent.py:214-237 | each field of the header is the number it should be, in little-endian bytes, at its place |
| WavGrowth.ChunksAreRead | modules/telephony/voice-agent.py:682-698 | behind any list of chunks, of odd length or not, the audio is found, with the channels and bits of the last format chunk |
| WavGrowth.ParseGrows | modules/telephony/voice-agent.py:682-698 | a header found stays the same in every longer file, and one not found yet can be parsed over without harm |
| WavGrowth.RunTakes | modules/telephony/voice-agent.py:700-724 | over any schedule of polls of a growing file the results are the samples at known places of the payload |
| WavGrowth.TakesCallerExactly | modules/telephony/voice-agent.py:715-724 | those places are exactly the caller's if and only if every poll that reads something starts on a whole frame |
| WavGrowth.IncrementalIsOneShot | modules/telephony/voice-agent.py:700-724 | then the concatenated results are the one-shot decoding of the caller's leg |
| WavGrowth.OneChannelIsOneShot | modules/telephony/voice-agent.py:700-724 | with one channel they always are |
| WavGrowth.RecordedIsHeard | modules/telephony/voice-agent.py:700-724 | 16-bit samples packed into a recording come back as they were, sign and all, every channels-th of them, over any schedule of polls that keeps to whole frames |
| TurnVad.Detector.Append | modules/telephony/voice-agent.py:751-757 | the counters after one more window are the speech seen, the quiet tail and the number of all windows so far |
| TurnVad.Detector.TurnComplete | modules/telephony/voice-agent.py:759-762 | the answer as a function of all windows so far |
| TurnVad.TurnIsOver | modules/telephony/voice-agent.py:759-762 | a turn is over exactly when somebody spoke and the last trailing windows were quiet, or nobody spoke for the initial ones |
| EslWaiters.Client.Register | modules/telephony/voice-agent.py:573-577 | the new waiter is the last of the list |
| EslWaiters.Client.Clear | modules/telephony/voice-agent.py:579-583 | that waiter is gone and the others keep their order |
| EslWaiters.Client.Resolve | modules/telephony/voice-agent.py:585-595 | the first waiter of the snapshot that claims the completion is signalled, or nobody |
| EslWaiters.Client.Receive | modules/telephony/voice-agent.py:515-531 | an event goes to the waiter that claims it, and otherwise into the queue |
| EslWaiters.MatchesExactly | modules/telephony/voice-agent.py:602-612 | the matcher claims a completion if and only if it is of the same call, of the same application ignoring case, and its data begins with the first word of the argument, if there is one |
| EslWaiters.RunKeeps | modules/telephony/voice-agent.py:573-633 | in every interleaving there is at most one waiter for each call, and it is its handler's own |
| EslWaiters.CompletionReachesItsWaiter | modules/telephony/voice-agent.py:515-633 | a completion of a sent execute that is not cleared before the reader's snapshot signals that waiter, no other, and never enters the dispatch queue, in every interleaving |
| EslWaiters.RunFromStart | modules/telephony/voice-agent.py:464-633 | that holds in every state the client reaches from its start |
| EslWaiters.CompletionOfARun | modules/telephony/voice-agent.py:515-633 | so is a completion after any run from the client's start |
| EslWaiters.EveryEventIsRouted | modules/telephony/voice-agent.py:515-531 | in every interleaving each event that arrives is with exactly one waiter it completes, or in the queue, which is emptied in order, or still in hand |
| EslWaiters.HandlersAre | modules/telephony/voice-agent.py:906-927 | a handler starts exactly for a parked call of the agent's that has none, and ends only by finishing |
| EslWaiters.OnlyOwnCall | modules/telephony/voice-agent.py:597-612 | whatever is signalled is signalled to a waiter of the event's own call and application |
| EslWaiters.LateCompletionSignalsNext | modules/telephony/voice-agent.py:597-633 | a completion that arrives after its execute was given up is taken for the next one of the same application on that call |
| CallHandler.RouteTransferOrEnd | modules/telephony/voice-agent.py:1067-1083 | with a destination the command is uuid_transfer and no other; without one never that, and uuid_kill unless an exception gets out; the end record, with the reason that fits, only after the command |
| CallHandler.FinishCall | modules/telephony/voice-agent.py:1085-1094 | without a key: the same, with the reasons of an agent that is not configured |
| CallHandler.Converse | modules/telephony/voice-agent.py:965-1052 | the turn loop: turn records alternate, the caller's are exactly the turns heard that are not blank and the agent's the chat's answers; only the last answer ends the talk; no turn begins after the deadline or the key; and the reason of the end, if no exception gets out, is decided by three blank turns, else the last answer, else the key, else the limit |
| CallHandler.HandleCall | modules/telephony/voice-agent.py:943-1065 | whatever operation fails: with both directories made there is one end record and it is the last, at most one of uuid_transfer and uuid_kill, a transfer only with a destination, and the reason fits; without them nothing is written |
| CallHandler.OneEndAndLast | modules/telephony/voice-agent.py:943-1065 | such a transcript has exactly one end record, its last |
| ChatSteps.Chat | modules/telephony/voice-agent.py:358-379 | the step list of chat: same-side turns merged, padded for the user's side |
| ChatSteps.StepsAlternate | modules/telephony/voice-agent.py:358-379 | the steps alternate, end with the user's, and are padded exactly when the user did not speak last |
| ChatSteps.MergeKeepsTurns | modules/telephony/voice-agent.py:358-371 | nothing of one-line turns is lost, reordered or given to the other side by the merge |
| Dialplan.ParseRanges | packages/telephony-operator/dialplan_sim.py:57-69 | the range list read part by part until one covers the value or cannot be read |
| Dialplan.RangesMean | packages/telephony-operator/dialplan_sim.py:57-69 | it covers the value (or raises) exactly when some part does and all parts before it neither cover nor raise |
| DialplanText.RangesAreRead | packages/telephony-operator/dialplan_sim.py:57-69 | a written list of values and ranges, with whitespace around the parts or not, covers exactly the values in one of them |
| DialplanText.TimeConditionMeans | packages/telephony-operator/dialplan_sim.py:87-101 | an attribute condition holds when each attribute that is given covers its own part of the time |
| DialplanText.FieldConditionMeans | packages/telephony-operator/dialplan_sim.py:74-85 | a field condition searches the dialled number, or the variable named; an unset one never matches |
| DialplanText.TransferIsRead | packages/telephony-operator/dialplan_sim.py:146-235 | where a transfer goes, by its words, and that one without words raises |
| DialplanText.SetIsRead | packages/telephony-operator/dialplan_sim.py:146-235 | which variable `set` sets, to what |
| DialplanText.EffectsAre | packages/telephony-operator/dialplan_sim.py:146-235 | which applications are passed, which end the call, and that others raise |
| Dialplan.MatchExtension | packages/telephony-operator/dialplan_sim.py:104-143 | the loop over the flattened conditions gives what a walk over the tree of nested conditions collects, with their break rules, the anti-actions and the exceptions |
| Dialplan.FlatIsTree | packages/telephony-operator/dialplan_sim.py:104-118 | the flat list reads like the tree: each condition, then those nested in it to any depth, then its siblings, until one stops the walk |
| Dialplan.MatchMeans | packages/telephony-operator/dialplan_sim.py:121-143 | the actions of what holds pile up until the first condition that decides, which keeps them, drops them or raises |
| Dialplan.ActionsMean | packages/telephony-operator/dialplan_sim.py:146-279 | the first action that is neither set nor silent settles what a list of actions does, with the variables that those before it have set |
| Dialplan.DoExtensions | packages/telephony-operator/dialplan_sim.py:253-279 | the extensions of one context: one whose actions neither end nor move the call is passed, with its variables set |
| Dialplan.ThroughMeans | packages/telephony-operator/dialplan_sim.py:253-279 | the first extension that is not passed settles what a context comes to, by its first action that is neither set nor silent, with the variables of all before it |
| Dialplan.Simulate | packages/telephony-operator/dialplan_sim.py:237-300 | the whole simulation against its recursive reading, at most eight transfers followed |
| Dialplan.BoundedRefinesUnbounded | packages/telephony-operator/dialplan_sim.py:237-300 | a chain that ends after at most eight transfers without a limit gives that outcome and matched list (or exception); exactly the others give the too-deep error, with the matched list of nine contexts |
| Markers.FindVerdict | scripts/markers_check.py:118-130 | a block has a verdict exactly when one of the lines before the next item, row or heading has a marker |
| Markers.UnmarkedItems | scripts/markers_check.py:83-115 | exactly the scoped items without a marker of their own or in their block, in order |
| Markers.UnmarkedMeans | scripts/markers_check.py:83-130 | a finding is an item under a heading whose section is checked, with no marker on its line or on the text behind it |
| Markers.SectionIs | scripts/markers_check.py:88-99 | the section before a line is what the last heading says, and none without a heading |
| Markers.ItemCounts | scripts/markers_check.py:340-374 | the counts of the second scanner |
| Markers.CountsAre | scripts/markers_check.py:340-374 | the count of a key is the number of markers on its items' lines and on the lines behind them up to the next item or heading |
| Markers.KeysAre | scripts/markers_check.py:340-374 | the keys counted are those of the items of checked sections, marked or not |
| Markers.ItemsWithinFile | scripts/markers_check.py:340-374 | the counts of any items together are at most the file's markers |
| Markers.ScannersAgree | scripts/markers_check.py:83-374 | where the sweep finds nothing every key has at least as many markers as items |
| Monotonicity.MonotonicityFindings | scripts/markers_check.py:304-324 | a finding if and only if the newest count is below the maximum; it names the maximum, the first revision at it, and exactly the revisions below the running peak |
| Monotonicity.ItemFinding | scripts/markers_check.py:389-408 | the same for the counts of one item |
| Monotonicity.ItemMonotonicityFindings | scripts/markers_check.py:377-409 | the items named are exactly those of the newest revision with such a loss, in strictly increasing order of their keys, each with its finding |
| Monotonicity.Sorted | scripts/markers_check.py:392 | the keys once each, in the order of strings by code point |
| Monotonicity.DropsAre | scripts/markers_check.py:309-314 | the drops named are the revisions below some earlier one, in order |
| LoginDamper.Damper.CheckExtensionAuth | packages/telephony-operator/api.py:181-204 | a live cached success passes, an expired one is dropped, a right password is cached |
| LoginDamper.Damper.AuthGate | packages/telephony-operator/api.py:206-230 | one attempt: lock first, then the check, then the books |
| LoginDamper.GateMeans | packages/telephony-operator/api.py:206-230 | one attempt in full, with the limits of five failures, ten minutes and fifteen minutes |
| LoginDamper.PassesExactly | packages/telephony-operator/api.py:181-204 | over any history an attempt that is not refused passes if and only if the password is right or was seen right in the last five minutes |
| LoginDamper.RateBound | packages/telephony-operator/api.py:206-230 | on one extension without success in between 5k + 1 failing checks take at least 600 k seconds, and n of them at least 150 (n - 5), over any history with attempts on other extensions in between |
| LoginDamper.BoundIsMet | packages/telephony-operator/api.py:222-230 | arbitrarily long histories with n failing checks |
| LoginDamper.SpanIsMet | packages/telephony-operator/api.py:222-230 | that take exactly 150 (n - 5) seconds, so that the bound cannot be raised |
| LoginDamper.LockHolds | packages/telephony-operator/api.py:214-217 | until a lock is over every attempt on the extension is refused without a check, whatever else happens |
| LoginDamper.LockWins | packages/telephony-operator/api.py:214-217 | a locked attempt changes nothing, even with a cached password, and the seconds it is told suffice |
| CdrPager.ReadRows | packages/telephony-operator/api.py:301-364 | one page: the matched rows from the offset on, at most limit of them, and whether there are more; and what a negative limit gives |
| CdrPager.PageMeans | packages/telephony-operator/api.py:301-364 | what a page is, row by row, and when there is more |
| CdrPager.PagesConcatenate | packages/telephony-operator/api.py:301-364 | asking on while there is more gives every matched row once, in order |
| OidcSession.MintedIdentity | modules/telephony/oidc_session.py:285-318 | a minted value, before it expires and with the same key, names its user if and only if the name has no dot |
| OidcSession.AcceptsExactly | modules/telephony/oidc_session.py:298-318 | identity accepts exactly five dot-free parts, the signature over the first four, not expired |
| OidcSession.Logins.LoginRedirect | modules/telephony/oidc_session.py:171-202 | the new state is pending, and of the older ones only those younger than ten minutes |
| OidcSession.Logins.HandleCallback | modules/telephony/oidc_session.py:206-217 | a state is taken out once and only with its cookie; the code, state and cookie checks |
| OidcSession.SingleUse | modules/telephony/oidc_session.py:171-217 | over any run a state is accepted at most as often as it was issued: once, or never |
| OidcSession.LoginPrunes | modules/telephony/oidc_session.py:178-187 | a login leaves only states younger than ten minutes |
| OidcSession.CallbackMeans | modules/telephony/oidc_session.py:206-217 | exactly which callbacks take a login out, and which |
| OidcSession.StoredExactly | modules/telephony/oidc_session.py:171-217 | over any run a pending login is stored exactly from the login that made it to the first step that takes it, replaces it or drops it for its age |
| OidcSession.NoLoginNoExpiry | modules/telephony/oidc_session.py:206-217 | a callback does not look at the age: a state stays good until the next login |

## Left out

- Request plumbing, authentication of the review API, the browser code and the network clients: thin logic around the parts above.
- Races on the review API and on the login damper: their requests are single steps; the races of the two sending threads are modelled.
- Failures of the store itself (a full disk, an unreadable file) and restarts of the tailer, of which only the last 500 identities survive.
- The log as bytes: it is a text, read atomically by each poll, with newline as the only line end; offsets are character positions.
- Prompt building, memory, preferences, briefings and translations of the text agent: text for people and models.
- SendRace.RaceBound: the micro steps of other requests rewrite drafts arbitrarily, so that draft guarantees are stated for sequential runs only.
- PlanConvergence.OneRunConverges: the account answers honestly and changes only by the run; desired values are of the kinds the desired file has, `mms_transcoding` a boolean, and none of them null.
- PlanTwoRuns.TwoRunsConverge: asks for unique names in the desired file and in the account, a condition to be read off before the first run; TwoRunsExactly has the exact one, which is to be read off after it.
- The reconciler's printed summaries, the texts of its notices and the DNS preflight: report text and network.
- Pagination.GetList: a total that is a boolean, which Python takes for an integer, is not a case of its own.
- GrowingWav.Recording.NewCallerSamples: a recording that shrinks to nothing while it is read leaves offset zero, where Python would go to minus one.
- GrowingWav reads samples as little-endian, as on the machines the agent runs on.
- EslWaiters: reconnecting, which makes a new client, and the frame parser; an argument of blanks only, which no caller passes and on which the matcher would raise.
- CallHandler: writing the transcript succeeds; prompts, spoken lines and the handling of temporary files.
- Dialplan: the notes of the trace and the breakdown of an outcome's data (bridge targets, voicemail box, conference room), which depend on that data alone.
- Markers: the regular expressions that classify lines and count markers; the history is given, git is not part of this model.
- CdrPager: the clean-up of fields and the filters, which are one predicate here; for a missing file the code returns a bare list where its callers unpack a pair.
- OidcSession: the exchange with the identity provider, the group gate and the parsing of the Cookie header, which breaks on names with a semicolon or a quote.
