# Verified model of the Summoners match record and its neighbours

This project models, in Dafny, how a Summoners match is recorded, read back, replayed and served, and a
few self-contained algorithms beside it, and proves what they keep.

The centre is the match transcript. Three pieces were written apart and have to agree: the fail-closed
recorder, the strict parser with its lifecycle phases, and the replayer that asks the engine again. The
engine is any deterministic function from a state and an action to a new state with events or to an
error; the digest is any function of the state projection. Over all of those, all runs and all points
where a write or a flush can fail, the model shows that

* the parser accepts exactly the streams that meet the written lifecycle contract, and undoes the flattener;
* the parser accepts what the recorder wrote exactly when the recorder wrote `match_completed`;
* replay succeeds exactly when the transcript is a true account of the engine;
* record, parse and replay close, over the real state projection, which is shown to be lossless;
* recording a verified transcript again gives the same records, up to header metadata;
* comparing two transcripts answers equal exactly when they are the same.

On top of it stands the two-seat session server, as an event loop over joins, submissions, lost
connections and interrupts, and below it the way a match is opened: Sets, library, Decks, shuffle, deal and
board. `ServedMatch.ServedMatchReplays` joins all of these: a match whose completion was written, and so
any match a client saw finished, parses and replays over any library assembled from the same Sets.

The remaining modules are independent of the match: the scanner that blanks comments and literals, the
round-robin merge of search results, the token bucket, the shutdown after the browser has gone, the
local artwork links and the thumbnail files.

Beside each acceptance stands what a refusal says: the `RefusalIsTrue` lemmas show that an error the parser,
the replayer, the scenario, the Deck or the link query answers with is a true statement about its input.

## How the model is laid out

| files | what they model |
|---|---|
| `wrappers`, `sequences`, `bytes`, `utf8_scalars` | options and results, element-wise conversion, bytes and UTF-8 |
| `entity_ids`, `domain`, `wire_state`, `state_projection`, `state_depiction`, `rebuild_refusals`, `state_round_trip` | identities, match state, its wire form, what it shows, and the round trips |
| `records`, `parser`, `parser_answers`, `contract` | transcript records, the lifecycle machine, its refusals and the contract it decides |
| `recorder`, `recorder_answers`, `recorder_runs` | the recorder in place, what it answers, and over every run |
| `replay`, `replay_answers`, `replay_soundness`, `closing`, `rerecording` | the replayer, its refusals, its exactness, the closed triangle and recording again |
| `ordered_values`, `record_values`, `compare`, `compare_answers` | semantic comparison and the differences it names |
| `session`, `session_runs`, `session_answers`, `served_match` | the session server, its runs, what gets through and who is told, and the whole way from Decks to replay |
| `card_library`, `set_conversion`, `decks`, `deck_answers`, `scenarios`, `setup` | Sets, library, Decks, boards and the opening deal |
| `lexer`, `lexer_tokens` | the structural scanner of the lint checks |
| `search`, `search_session`, `search_batches` | the merge of search results, the session around it and the pages it asks for |
| `rate_limit`, `browser_grace`, `form_codec`, `form_answers`, `artwork_ids`, `thumbnail` | token bucket, grace shutdown, link queries, thumbnail entries |

Code that changes state in place is modelled by classes and methods whose contracts equate the new state
with a function of the old one; the theorems are about those functions.

## What does not hold

* The comment above `EntityId::parse` promises at most two spellings of an identity. The code, which the
  model follows, accepts upper-case digits too. The promise holds exactly for the identities whose printed
  form has no letter among its 32 digits: `EntityIds.TwoSpellingsExactly`.
* A state whose broken rule has another name than the two the rebuild knows does not come back from its
  projection; `StateRoundTrip.ProjectionIsLossless` is an equivalence for that reason. The rules themselves
  break a game only under the name `destruction` (crates/core/src/engine/destruction/mod.rs:50-57), so a
  name the rebuild does not know reaches the projection only in a state put together from its public fields.
* The rate limiter reads the clock before it takes the lock, so readings can fall back in lock order. The plain
  bound on grants, capacity plus refill, holds for every policy and bucket exactly when they never do:
  `RateLimit.PlainBoundExactly`. `RateLimit.GrantsAreBounded` states the bound that always holds, whose
  surplus is nil exactly then (`RateLimit.NoRegress`).

## Model

| member | source | states |
|---|---|---|
| Recorder.RecordedMatch.StartRecording | crates/match-log/src/record.rs:51-77 | an active recording exists only after header, match creation and flush all succeeded; the writer's new contents at every failure |
| Recorder.RecordedMatch.AppendRecord | crates/match-log/src/record.rs:201-206 | one record is written and counted, or nothing is written and the recording stops |
| Recorder.RecordedMatch.AppendRecords | crates/match-log/src/record.rs:208-216 | records are written in order up to the first failure |
| Recorder.RecordedMatch.FlushRecords | crates/match-log/src/record.rs:218-220 | a failed flush stops the recording |
| Recorder.RecordedMatch.Complete | crates/match-log/src/record.rs:165-185 | the two closing records and a flush, after which the recording is completed |
| Recorder.RecordedMatch.RecordAccepted | crates/match-log/src/record.rs:113-149 | an accepted step's records, totals and terminal checks, in the source's order of effects |
| Recorder.RecordedMatch.RecordRejected | crates/match-log/src/record.rs:151-163 | a rejected step's record and flush |
| Recorder.RecordedMatch.Submit | crates/match-log/src/record.rs:95-111 | the action is written before the engine is asked, and the whole new state of the recording in every outcome |
| Recorder.CheckTerminalEvents | crates/match-log/src/record.rs:236-263 | an outcome is reported only for an ended status with exactly that one ending event; no outcome means a broken status, or play without an ending |
| RecorderRuns.StartEstablishesInvariant | crates/match-log/src/record.rs:51-77 | a started recording meets the invariant of runs |
| RecorderRuns.SubmitKeepsInvariant | crates/match-log/src/record.rs:95-226 | every submission, whatever the engine answers and whichever write or flush fails, keeps the invariant |
| RecorderRuns.RunKeepsInvariant | crates/match-log/src/record.rs:95-226 | the invariant holds after any run of submissions |
| RecorderRuns.ActiveCountersAgree | crates/match-log/src/record.rs:39-46 | record k carries sequence k; between submissions of an active recording the step and event counters are the numbers of action and event records and the state is the engine's |
| RecorderRuns.AcceptedExactlyWhenCompleted | crates/match-log/src/record.rs:165-226 | the parser accepts the written stream exactly when match_completed was written |
| RecorderRuns.FailedStartIsRejected | crates/match-log/src/record.rs:51-77 | what a failed start leaves behind is never accepted |
| RecorderRuns.CompletedStreamReadsBack | crates/match-log/src/record.rs:95-226 | a completed stream parses to the transcript of the submitted actions and the engine's answers |
| RecorderRuns.SubmitOnlyAppends | crates/match-log/src/record.rs:201-216 | a submission never removes or changes a written record |
| RecorderRuns.StoppedStaysStopped | crates/match-log/src/record.rs:187-226 | once stopped, nothing is written or called again |
| RecorderRuns.RefusalKeepsState | crates/match-log/src/record.rs:151-163 | a refused action leaves the recorder's state unchanged |
| RecorderAnswers.StartAnswers | crates/match-log/src/record.rs:51-77 | a start answers a recording over its two opening records, or names the ended or broken game or the failed call, and succeeds when nothing fails |
| RecorderAnswers.CheckpointAnswers | crates/match-log/src/record.rs:201-226 | a checkpoint succeeds exactly when every record is written and the flush succeeds, and otherwise names the first failure |
| RecorderAnswers.SubmitAnswers | crates/match-log/src/record.rs:95-185 | a submission answers the engine's own events or error, only once the whole step is durable; any error names the failed call or the reason and stops the recording |
| RecorderAnswers.WorkingSubmitAnswers | crates/match-log/src/record.rs:95-263 | when nothing around the recorder fails, the answer is the engine's unless the game broke or its ending events do not fit its status |
| Parser.TranscriptBuilder.AdvanceRecord | crates/match-log/src/parse.rs:328-470 | one record moves phase and builder as the lifecycle machine does, or gives its error |
| Parser.TranscriptBuilder.AdvancePending | crates/match-log/src/parse.rs:365-447 | events and step results of an open step |
| Parser.ParseRecords | crates/match-log/src/parse.rs:305-326 | the reading loop folds every record in order, numbering from zero, and then requires completion |
| Contract.ParserIsSound | crates/match-log/src/parse.rs:305-640 | a parsed transcript obeys every lifecycle rule, and flattening it gives back exactly the records read |
| Contract.ParserIsComplete | crates/match-log/src/parse.rs:305-640 | folding the records of any rule-abiding transcript gives back that transcript |
| Contract.ParserDecidesContract | crates/match-log/src/schema.rs:21-74 | the parser succeeds exactly on record streams that meet the written lifecycle contract |
| Contract.ProperPrefixIsIncomplete | crates/match-log/src/parse.rs:605-639 | every proper prefix of an accepted stream is rejected as incomplete |
| Contract.NothingAfterCompletion | crates/match-log/src/parse.rs:448-470 | no record is accepted after match_completed |
| Contract.CompletionIsLast | crates/match-log/src/parse.rs:448-470 | the last record of an accepted stream is its only match_completed |
| ParserAnswers.RefusalIsTrue | crates/match-log/src/parse.rs:305-640 | a refused stream ends early and is told what is missing, or the error points at the first record at fault and names the first thing wrong with it, by field, with the true expected and found numbers |
| Replay.CheckRequiredSets | crates/match-log/src/replay.rs:368-386 | the loop over required sets finds the first missing or mismatched revision |
| Replay.CheckAcceptedStep | crates/match-log/src/replay.rs:483-523 | event count, events in order and digest are compared, first divergence first |
| Replay.RunSteps | crates/match-log/src/replay.rs:417-481 | the stepping loop computes the position and totals of the specified replay, or its first error |
| Replay.VerifyTranscript | crates/match-log/src/replay.rs:332-347 | preparing, stepping and completion in order |
| ReplaySoundness.EventsVerifyExactly | crates/match-log/src/replay.rs:483-523 | the event comparison succeeds exactly when the recorded events are the engine's, in order |
| ReplaySoundness.AcceptedVerifiesExactly | crates/match-log/src/replay.rs:483-523 | an accepted step verifies exactly when its events and digest are true of the engine |
| ReplaySoundness.RejectedVerifiesExactly | crates/match-log/src/replay.rs:525-586 | a rejected step verifies exactly when error and unchanged digest are |
| ReplaySoundness.StepVerifiesExactly | crates/match-log/src/replay.rs:417-481 | one replayed step succeeds exactly when the record tells the engine's answer, and then moves to the engine's state |
| ReplaySoundness.RunVerifiesExactly | crates/match-log/src/replay.rs:417-481 | the same over all steps |
| ReplaySoundness.CompletionVerifiesExactly | crates/match-log/src/replay.rs:602-681 | final projection, digest, totals, winner and reason all agree exactly when completion verifies |
| ReplaySoundness.ReplayDecidesTruth | crates/match-log/src/replay.rs:332-681 | verification succeeds exactly when the transcript is a true account of the engine from the rebuilt initial state to the final projection |
| ReplayAnswers.EventsBlamed | crates/match-log/src/replay.rs:483-523 | a refused event comparison names the first index that disagrees and what stands there on both sides |
| ReplayAnswers.RunBlamed | crates/match-log/src/replay.rs:417-586 | a refused run names the first step that departs from the engine, all steps before it being true |
| ReplayAnswers.RefusalIsTrue | crates/match-log/src/replay.rs:332-681 | a transcript that does not verify departs from the engine's run just where and how the error says, and nothing looked at earlier is wrong |
| Closing.RunFollowsScript | crates/match-log/src/record.rs:79-111 | an active recorder always asks the engine about the state the engine last reached |
| Closing.RecordParseReplayCloses | crates/match-log/src/record.rs:51-226 | for every playing state and submissions carried to completion, the stream parses, gives back the submitted steps and verifies against any library with the same cards; over the very same pool with every engine, over a pool of its own with every engine that cannot tell the copies apart |
| Closing.ScriptRepooled | crates/cli/src/replay.rs:91-97 | an engine blind to the pool's pointer answers the same actions alike over either copy of the pool |
| Closing.StateCodecFits | crates/match-log/src/state.rs:49-98 | the real state projection meets the hypotheses of the closing theorem, and does not show which copy of a pool a state is over |
| Closing.PlayedMatchCloses | crates/match-log/src/replay.rs:332-681 | the closing theorem over the real projection, with only action, event and error bodies abstract: the replaying library may have been loaded on its own, as the replay command does |
| Rerecording.RerecordsExactlyWhenPlaying | crates/match-log/src/record.rs:95-263 | re-recording a verified transcript reproduces its records up to header metadata exactly when every state before the last is one a recording may continue from |
| Rerecording.GuardedPlaysToTheEnd | crates/core/src/engine/apply/mod.rs:37-42 | with an engine that refuses every action once the game is over, a transcript that tells its answers was in play before every step |
| Rerecording.VerifiedRerecordsExactly | crates/match-log/src/replay.rs:332-681 | with any engine at all, a verified transcript is written again exactly when it plays to its end |
| Rerecording.VerifiedTranscriptRerecords | crates/match-log/src/replay.rs:332-681 | with an engine that refuses every action once the game is over, every verified transcript is what the recorder writes again, up to header metadata |
| EntityIds.ParseUndoesDisplay | crates/core/src/domain/cards/entity.rs:49-110 | parsing the printed identity gives it back, and the printed form is canonical |
| EntityIds.DigitsOfByte | crates/core/src/domain/cards/entity.rs:88-110 | digits 2k and 2k+1 are the high and the low half of byte k |
| EntityIds.SpellingsOfOneIdentity | crates/core/src/domain/cards/entity.rs:49-86 | two accepted texts name one identity exactly when their digits agree up to case |
| EntityIds.TwoSpellingsExactly | crates/core/src/domain/cards/entity.rs:38-86 | every accepted spelling of an identity is one of the comment's two exactly when none of its 32 printed digits is a letter |
| StateRoundTrip.ProjectionIsLossless | crates/match-log/src/state.rs:49-98 | a state comes back whole from its projection exactly when a broken rule, if any, has a supported name |
| StateRoundTrip.ProjectionIsInjective | crates/match-log/src/state.rs:49-69 | different states over one card pool have different projections |
| StateRoundTrip.RebuildIsFaithful | crates/match-log/src/state.rs:71-98 | projecting a successful rebuild gives the projection back exactly when its identities are canonical |
| StateRoundTrip.PlayerStateRoundTrip | crates/match-log/src/state.rs:360-406 | one side's zones, chains and bench survive the wire |
| StateRoundTrip.StackItemRoundTrip | crates/match-log/src/state.rs:853-923 | every stack item survives the wire |
| StateRoundTrip.WorkRoundTrip | crates/match-log/src/state.rs:947-996 | every queued work item survives the wire |
| StateRoundTrip.StatusRoundTrip | crates/match-log/src/state.rs:624-667 | the status survives exactly when a broken rule has a supported name |
| StateDepiction.ProjectionDepicts | crates/match-log/src/state.rs:49-69 | a projection tells of its state every zone, chain, turn flag, stack item, work item, pending input and status, each under its own name |
| StateDepiction.RebuildsWhatIsDepicted | crates/match-log/src/state.rs:71-98 | a rebuild over a pool gives a state exactly when the projection depicts it and its indices and broken rule can be rebuilt |
| RebuildRefusals.RebuildRefusesFirstFault | crates/match-log/src/state.rs:71-98 | a rebuild is refused exactly when an identity, a chain, an index or the broken rule is wrong, and for the first that is, in the order the projection is written down |
| OrderedValues.FieldsBecomeMap | crates/match-log/src/compare.rs:306-322 | with distinct names an object's map is what lookup by name finds |
| OrderedValues.NoDifferenceIsSameJson | crates/match-log/src/compare.rs:420-467 | no difference is found exactly when the two values are the same JSON, mapping order apart |
| OrderedValues.DifferenceIsReal | crates/match-log/src/compare.rs:420-475 | the reported path leads in both values to what is reported there, and the two are different |
| OrderedValues.SearchIsSymmetric | crates/match-log/src/compare.rs:420-467 | finding a difference does not depend on which side is called expected |
| RecordValues.RecordValueIsMapping | crates/match-log/src/compare.rs:199-216 | dropping header metadata leaves exactly the other fields |
| RecordValues.RecordIsDistinct | crates/match-log/src/compare.rs:199-216 | no mapping inside a compared record value repeats a name |
| RecordValues.RecordsExact | crates/match-log/src/compare.rs:199-216 | two records compare equal exactly when they are the same record, header metadata apart when it is left out |
| Compare.PushStepRecords | crates/match-log/src/compare.rs:235-270 | one step's views: action, events in order and completion, or rejection |
| Compare.TranscriptRecords | crates/match-log/src/compare.rs:218-287 | the nested loops give one view per record of the flattened transcript, with that record's own numbers |
| Compare.CompareParsedTranscripts | crates/match-log/src/compare.rs:109-162 | the record-by-record loop computes the specified comparison |
| Compare.FlattenIsInjective | crates/match-log/src/compare.rs:218-287 | different transcripts flatten to different record streams |
| Compare.LengthsNeverDecide | crates/match-log/src/compare.rs:133-161 | streams of different length already differ at a record both have, so the length tail is unreachable |
| Compare.ComparisonIsExact | crates/match-log/src/compare.rs:109-162 | equal exactly for the same transcript, header metadata apart when left out; any other answer is explained by the first record that is not the same |
| Compare.EqualIsSymmetric | crates/match-log/src/compare.rs:109-162 | two transcripts are found equal whichever of them is called expected |
| Compare.ReportedSequenceIsPosition | crates/match-log/src/compare.rs:164-177 | under global numbering the reported sequence and step are those of the first differing record |
| CompareAnswers.PathsLeadToRecords | crates/match-log/src/compare.rs:218-287 | every compared record is found in its transcript at the path it is reported under |
| CompareAnswers.DecimalReadsBack | crates/match-log/src/compare.rs:235-270 | an index in a path is written in plain decimal digits that read back |
| CompareAnswers.FieldsAreNamed | crates/match-log/src/compare.rs:199-216 | every value of a record is serialized under its own name |
| Session.PostOffice.SendNews | crates/cli/src/server.rs:371-409 | both seats are tried; an ended status is sent as finished, any other as an update of the revision |
| Session.PostOffice.SendStop | crates/cli/src/server.rs:410-420 | every seated client is told, failures ignored |
| Session.SessionLoop.Join | crates/cli/src/server.rs:146-165 | admission, refusal and the first broadcast |
| Session.SessionLoop.Receive | crates/cli/src/server.rs:179-198 | the checks a submission meets, in order, and what each refusal leaves changed |
| Session.SessionLoop.Admit | crates/cli/src/server.rs:199-214 | recording, the next revision, the broadcast and the end of the match |
| Session.SessionLoop.HandleEvent | crates/cli/src/server.rs:134-216 | one event's whole effect on the session |
| Session.SessionLoop.ServeSession | crates/cli/src/server.rs:118-219 | the loop does what the events say one by one, until one ends the session |
| SessionRuns.RunKeeps | crates/cli/src/server.rs:118-219 | the session's rules hold after every interleaving of events |
| SessionRuns.RevisionCountsActions | crates/cli/src/server.rs:131-214 | whenever the loop waits, the recorder is active and the revision is the number of recorded actions |
| SessionRuns.ActionsMeetShownStates | crates/cli/src/server.rs:486-498 | an action other than a resignation reaches the recorder only in the very state announced under the revision it names, whose view its sender was sent |
| SessionRuns.RequestIdsIncrease | crates/cli/src/server.rs:181-185 | per seat the request ids that reach the recorder strictly increase, so none does twice |
| SessionRuns.UpdatesHaveNoGaps | crates/cli/src/server.rs:371-409 | each client is told exactly the revisions 0, 1, 2 and so on, with its own view of the states those announced, its own notices of the engine's own events, and replies and results for its own requests alone |
| SessionRuns.FinishedIsOnRecord | crates/cli/src/server.rs:199-213 | a client is told that the match is finished only when the whole transcript is on record |
| SessionAnswers.ExactlyTimelySubmissionsCount | crates/cli/src/server.rs:179-207 | a submission reaches the recorder exactly when both seats are taken, its id is new, its action converts and is the sender's own, and it is based on the newest revision or resigns; it then meets the newest state |
| SessionAnswers.RefusedAreTold | crates/cli/src/server.rs:179-198 | any other submission of a seated client is told the first thing wrong with it, alone and under its own id, and changes nothing but the last id used |
| SessionAnswers.TimelyMovesOn | crates/cli/src/server.rs:199-214 | a submission that reaches the recorder makes the next revision unless recording fails; the session ends exactly when it does, when either client cannot be told, or when the game has ended, and every seated client is told why |
| SessionAnswers.JoinTakesFreeSeat | crates/cli/src/server.rs:146-165 | a free seat is taken exactly when its player was told to wait; with both taken the match is shown to both, and a failed delivery ends the session with farewells |
| SessionAnswers.EndsAreTold | crates/cli/src/server.rs:134-171 | a lost connection and an interrupt end the session, and every seated client whom the farewell reaches is told why |
| SessionAnswers.ForeignVersionEnds | crates/cli/src/server.rs:172-178 | a foreign version is refused to its sender and ends the session with farewells, unless the refusal cannot be delivered |
| ServedMatch.RecordingIsEngineRun | crates/cli/src/server.rs:199-207 | the server's recording is one run of the engine over the admitted actions |
| ServedMatch.ServedMatchReplays | crates/cli/src/server.rs:64-92 | from resolved Decks through shuffle, serving and recording: a match whose completion was written parses and replays over any library assembled from the same Sets |
| ServedMatch.FinishedMatchReplays | crates/cli/src/server.rs:371-409 | in particular every match some client saw finished |
| Lexer.FindLiteralEnd | xtask/src/lint/mod.rs:385-401 | the character-literal scan, with the slice after the apostrophe at a character boundary |
| Lexer.TakeCodeStep | xtask/src/lint/mod.rs:353-416 | the scans of one step in code |
| Lexer.StructuralSource | xtask/src/lint/mod.rs:331-470 | the in-place loop stays in bounds, ends, and blanks exactly the bytes of comment and literal steps |
| Lexer.BlankingIsClean | xtask/src/lint/mod.rs:327-330 | no string quote or comment opener is left, line breaks keep their places, every other byte is the original or a space |
| Lexer.OutputIsUtf8 | xtask/src/lint/mod.rs:469-470 | characters are kept or blanked whole, so the output is UTF-8 again |
| Lexer.BlankingTwiceIsOnce | xtask/src/lint/mod.rs:331-470 | blanking is idempotent |
| Lexer.KeptRestarts | xtask/src/lint/mod.rs:351-416 | at every kept byte the scanner stands in code, as if it started there |
| Lexer.NeighboursShareFate | xtask/src/lint/mod.rs:340-344 | bytes of one longer character are kept or blanked together |
| LexerTokens.StringIsBlanked | xtask/src/lint/mod.rs:437-450 | a string is blanked exactly to its first quote behind an even run of backslashes |
| LexerTokens.RawStringIsBlanked | xtask/src/lint/mod.rs:364-380 | a raw string is blanked exactly to the first quote followed by as many hashes as it opened with |
| LexerTokens.CharacterIsBlanked | xtask/src/lint/mod.rs:385-412 | a character literal is blanked from quote to quote: one unescaped character of any length, or, behind a backslash, all to the first quote on the line that no backslash precedes |
| LexerTokens.LifetimeIsKept | xtask/src/lint/mod.rs:385-415 | an apostrophe that opens neither is kept and scanning goes on in code behind it |
| LexerTokens.PlainCodeIsKept | xtask/src/lint/mod.rs:351-416 | whatever begins no comment and no literal is kept |
| LexerTokens.LineCommentIsBlanked | xtask/src/lint/mod.rs:354-358 | a line comment is blanked exactly to the end of its line |
| LexerTokens.NestedCommentIsBlanked | xtask/src/lint/mod.rs:417-436 | a block comment is blanked exactly to its matching closer, however deep comments nest in it |
| LexerTokens.EndlessCommentIsBlanked | xtask/src/lint/mod.rs:417-436 | a block comment that nothing closes takes the rest of the text |
| LexerTokens.EndlessStringIsBlanked | xtask/src/lint/mod.rs:437-450 | so does a string that nothing ends |
| LexerTokens.EndlessRawStringIsBlanked | xtask/src/lint/mod.rs:451-468 | so does a raw string that nothing ends |
| Utf8Scalars.Utf8Exactly | xtask/src/lint/mod.rs:396-401 | the text the scanner reads is exactly the encodings of runs of Unicode scalar values |
| SearchSessions.ParseSources | crates/cceroby/src/core.rs:106-117 | a choice of sources is refused only when empty and is otherwise in registry order without repeats |
| SearchSessions.TakeUnseen | crates/cceroby/src/core.rs:497-504 | the inner loop skips what has been seen and takes the next artwork |
| SearchSessions.RoundRobinUnique | crates/cceroby/src/core.rs:484-510 | the merge loop ends with the specified rounds and, when pages carry their own source, their transpose |
| Search.MergeIsTranspose | crates/cceroby/src/core.rs:484-510 | the merge is the round-by-round transpose, in registry order, of each page's unseen first occurrences |
| Search.MergeIsFresh | crates/cceroby/src/core.rs:499-503 | what is added is distinct and new, and seen grows by exactly its keys |
| Search.MergeIsComplete | crates/cceroby/src/core.rs:484-510 | every artwork of every page ends up seen, and nothing else is added |
| SearchSessions.SearchSession.BeginSearch | crates/cceroby/src/core.rs:402-420 | a new search starts from nothing and says whether the query changed |
| SearchSessions.SearchSession.MergeBatch | crates/cceroby/src/core.rs:436-460 | the whole new session after a batch, and the artworks it added |
| SearchSessions.SearchSession.NextBatch | crates/cceroby/src/core.rs:424-433 | the cursors of the active sources in registry order |
| SearchSessions.MoreMeansBatch | crates/cceroby/src/core.rs:463-470 | there is more exactly when the next batch is not empty, and it asks exactly the active sources |
| SearchSessions.MergeKeeps | crates/cceroby/src/core.rs:436-460 | a batch appends new artworks only and only drops active sources |
| SearchSessions.RunIsConsistent | crates/cceroby/src/core.rs:364-471 | over every run the artworks are distinct, seen is their key set and active sources lie in the query |
| SearchSessions.FinishedStaysFinished | crates/cceroby/src/core.rs:436-456 | a source that finished or failed is not asked again before the next search |
| SearchSessions.BatchSettles | crates/cceroby/src/core.rs:436-456 | after a batch a source is active exactly when it was and no outcome exhausted it, and a notice stands exactly when it did or an outcome gives it |
| SearchBatches.BatchIsExact | crates/cceroby/src/core.rs:424-433 | the next batch asks each active source once, in registry order, with the cursor held for it |
| SearchBatches.NewSearchAsksFirstPages | crates/cceroby/src/core.rs:402-420 | a new search asks each chosen source for its first page |
| SearchBatches.ActiveIsAskedForNextPage | crates/cceroby/src/core.rs:424-456 | after a batch a source still active is asked for the page behind the last one it delivered, or for the same page when it delivered none |
| SearchBatches.DeliveredIsShown | crates/cceroby/src/core.rs:436-460 | every artwork of a source's last delivered page is on the page afterwards, and what is added comes from such a page |
| RateLimit.TokenBucket.DecideOnce | crates/cceroby/src/rate_limit.rs:70-93 | one decision under the lock: the new balance, or how long to wait |
| RateLimit.TokenBucket.Acquire | crates/cceroby/src/rate_limit.rs:67-99 | without a competitor at most one sleep is needed |
| RateLimit.DecisionKeepsBounds | crates/cceroby/src/rate_limit.rs:115-132 | the balance stays between zero and the capacity and a wait is positive |
| RateLimit.WaitingGrants | crates/cceroby/src/rate_limit.rs:122-131 | after the answered wait the next decision grants |
| RateLimit.ShorterWaitsAgain | crates/cceroby/src/rate_limit.rs:122-131 | after any shorter wait it does not |
| RateLimit.BurstsGetWhatAccrued | crates/cceroby/src/rate_limit.rs:115-132 | callers at one moment are all granted exactly when there are no more of them than the capacity and the tokens accrued |
| RateLimit.GrantsAreBounded | crates/cceroby/src/rate_limit.rs:67-99 | grants plus balance never exceed the capacity plus the refill over the run's span, whatever the readings |
| RateLimit.NoRegress | crates/cceroby/src/rate_limit.rs:70-72 | the span has no surplus exactly when readings never fall back |
| RateLimit.WindowBound | crates/cceroby/src/rate_limit.rs:67-99 | with readings that never fall back, every window grants at most the capacity plus its refill |
| RateLimit.WindowCounts | crates/cceroby/src/rate_limit.rs:67-99 | a window's grants are what its decisions add to the run |
| RateLimit.FallingBackBreaksBound | crates/cceroby/src/rate_limit.rs:70-71 | readings that fall back anywhere let a full bucket of one grant more than its capacity plus the refill |
| RateLimit.PlainBoundExactly | crates/cceroby/src/rate_limit.rs:67-99 | every policy and bucket keeps to capacity plus refill over a run of readings exactly when the readings never fall back |
| BrowserGrace.LiveConnections.NewGuard | crates/cceroby/src/server.rs:131-142 | a new guard counts one connection |
| BrowserGrace.LiveConnections.DropGuard | crates/cceroby/src/server.rs:145-151 | a dropped guard uncounts one |
| BrowserGrace.GraceWatch.PollOnce | crates/cceroby/src/search.rs:372-395 | one turn of the watching loop, whichever ready branch is taken |
| BrowserGrace.ActiveCountsGuards | crates/cceroby/src/server.rs:131-152 | in every interleaving active is the number of live guards |
| BrowserGrace.ReturnsOnlyWhenGone | crates/cceroby/src/search.rs:372-395 | the watcher returns only after somebody had connected, and at the end of a full ten seconds without a connection, a connect or a disconnect, with no connection live at the return |
| BrowserGrace.GoneBrowserIsNoticed | crates/cceroby/src/search.rs:372-395 | after any past, once nobody is left or comes back, two polls, the grace time and one more poll make the watcher return, whatever is interleaved |
| FormCodec.DecodeComponent | crates/cceroby/src/server.rs:424-455 | the decoding loop computes the specified decoding or rejects the query |
| FormCodec.ParseQuery | crates/cceroby/src/server.rs:397-422 | the loop over fields fills each slot once and reports the source's error otherwise |
| FormCodec.DecodeUndoesEncode | crates/cceroby/src/server.rs:424-455 | decoding undoes the serializer for every byte string |
| FormCodec.FieldsArePairs | crates/cceroby/src/server.rs:403-407 | splitting a serialized query gives back its pairs, whatever bytes they hold |
| FormCodec.KeyKeepsParts | crates/cceroby/src/artwork.rs:41-105 | a key keeps the very texts it was read from |
| FormCodec.LinkReadsBack | crates/cceroby/src/render.rs:275-281 | reading the link written for any valid key gives back that key |
| FormCodec.AcceptedQueries | crates/cceroby/src/server.rs:397-422 | a query read as a key has exactly two fields, and the key's own link is read the same |
| FormCodec.ReadsExactly | crates/cceroby/src/server.rs:397-422 | a query is read as a key exactly when it has one source field and one id field, in either order, that make it |
| FormAnswers.DecodesExactly | crates/cceroby/src/server.rs:424-455 | bytes decode exactly when they are a run of plus signs, two-digit escapes and other bytes, to what those mean |
| ArtworkIds.KeysReadExactly | crates/cceroby/src/artwork.rs:41-105 | behind a source's name a text is an identity exactly when it has one to 240 bytes, no control or separating characters, and is a positive 64-bit number, a museum file name or anything, as the source demands; the key keeps it |
| FormAnswers.UnknownSourceExactly | crates/cceroby/src/artwork.rs:65-70 | a source is unknown exactly when no source has that name |
| FormAnswers.RefusalIsTrue | crates/cceroby/src/server.rs:397-422 | a refused query is empty, or its first field at fault is named for what is wrong with it, or a field is missing, or the parts are no key |
| Thumbnail.EncodeEntry | crates/cceroby/src/cache.rs:339-367 | the written bytes, and that only an empty image or a time before the epoch is refused |
| Thumbnail.NumberSurvives | crates/cceroby/src/cache.rs:347-351 | a number that fits survives its big-endian bytes |
| Thumbnail.BytesSurvive | crates/cceroby/src/cache.rs:388-388 | big-endian bytes survive their number |
| Thumbnail.FirstByteCountsMost | crates/cceroby/src/cache.rs:347-351 | the first byte of a number counts most |
| Thumbnail.EncodedLayout | crates/cceroby/src/cache.rs:339-367 | a file is marker, nanoseconds, media code, checksum and image at bytes 0, 8, 24, 25 and 57 |
| Thumbnail.DecodeUndoesEncode | crates/cceroby/src/cache.rs:339-394 | an encoded entry decodes to the same media type, image and nanosecond time |
| Thumbnail.DecodedIsCanonical | crates/cceroby/src/cache.rs:369-394 | whatever is accepted re-encodes to the identical bytes |
| Thumbnail.OneFilePerEntry | crates/cceroby/src/cache.rs:369-394 | two accepted files hold the same entry exactly when they are the same bytes |
| CardLibraries.ConvertedIsComplete | crates/cards/src/v1/convert.rs:30-68 | a converted Set defines exactly the cards it indexes |
| SetConversion.ConvertsExactly | crates/cards/src/v1/convert.rs:30-68 | a Set converts exactly when its parts mint different identities, to its definitions in order and indices of its cards and abilities; an error names the first identity asked for twice |
| SetConversion.NamesAreDifferent | crates/cards/src/identity.rs:12-41 | different parts of a Set are minted from different names |
| SetConversion.AuthoredCardIsFound | crates/cards/src/library.rs:50-92 | each card of an authored Set is found in the library under its Set's and its own code, and the pool defines it as authored |
| SetConversion.LibraryKnowsNoMore | crates/cards/src/library.rs:57-92 | a library knows exactly the keys of its Sets' cards, and of a Set code the revision of the last Set that has it |
| CardLibraries.QualifiedCards | crates/cards/src/library.rs:95-112 | an index of exactly the qualified keys, unless a key repeats, which the error then names with both Sets |
| CardLibraries.RejectDuplicateIds | crates/cards/src/library.rs:114-141 | success exactly when no identity is claimed twice by Sets, cards and abilities; an error names the identity and both who hold it |
| CardLibraries.FromSets | crates/cards/src/library.rs:50-74 | a library exactly when keys and identities are unique, with index, revisions and pool of all Sets |
| CardLibraries.KeysAreKnown | crates/cards/src/library.rs:88-92 | every key of a library of converted Sets names a card of its pool |
| CardLibraries.KeysAreInjective | crates/cards/src/library.rs:114-141 | different keys name different cards |
| Decks.ResolveRequirements | crates/cards/src/deck.rs:308-351 | the loop over required Sets, with its first error |
| Decks.ResolveBody | crates/cards/src/deck.rs:353-404 | the loop over card quantities, with its first error |
| Decks.ResolveDeck | crates/cards/src/deck.rs:271-306 | the checks in the source's order |
| Decks.ResolvedIsLegal | crates/cards/src/deck.rs:271-404 | a resolved Deck has 20 known cards, at most two per definition, and a known Base starter that is not among them |
| Decks.ResolvesExactly | crates/cards/src/deck.rs:271-404 | a Deck document resolves exactly when its key, name, requirements, starter and cards each meet their conditions |
| DeckAnswers.ReferencesExactly | crates/cards/src/deck.rs:406-421 | a text is read as a card reference exactly when it is two keys with one slash between |
| DeckAnswers.ResolvedKeepsDocument | crates/cards/src/deck.rs:271-404 | a resolved Deck keeps the document's identity, name and starter, and its body lists each item's card as often as asked, in order |
| DeckAnswers.ListedAsAsked | crates/cards/src/deck.rs:353-404 | a card is in the body as often as its key is asked for in all |
| DeckAnswers.RefusalIsTrue | crates/cards/src/deck.rs:271-404 | a refusal names the first thing wrong with the document, where it stands and the true numbers |
| Scenarios.CheckNoDuplicateInstances | crates/core/src/scenario.rs:78-86 | the first instance met twice is reported |
| Scenarios.CheckEveryDefKnown | crates/core/src/scenario.rs:89-96 | the first unknown card is reported |
| Scenarios.BuildUpgradeChain | crates/core/src/scenario.rs:132-152 | the climbing loop over a chain |
| Scenarios.ParseScenario | crates/core/src/scenario.rs:230-260 | the checks and the built state, in order |
| Scenarios.AcceptsRepresentable | crates/core/src/scenario.rs:5-12 | a board is accepted exactly when instances are distinct, cards known, chains climb and each side has a Summon |
| Scenarios.ParsedKeepsBoard | crates/core/src/scenario.rs:156-260 | an accepted board is kept card for card and opens an untouched Main phase of its active player, and only an empty Main pauses it, on the first such side |
| Scenarios.ChainMeansClimbs | crates/core/src/scenario.rs:132-152 | a chain is built exactly when it is not empty and each Form is above the one before, and it keeps its cards |
| Scenarios.EveryCardIsChecked | crates/core/src/scenario.rs:55-76 | the checks see every card of the board, each as often as it is there |
| Scenarios.RefusalIsTrue | crates/core/src/scenario.rs:78-260 | a refused board has the very fault the error names, and none that is looked for earlier |
| Setup.Deal | crates/cli/src/setup.rs:37-65 | one side's starter, hand, prizes and deck with consecutive instances |
| Setup.OpenMatch | crates/cli/src/setup.rs:20-35 | both sides dealt from one counter and parsed |
| Setup.OpeningNeverFails | crates/cli/src/setup.rs:20-77 | for any two resolved Decks and any shuffle the opening state exists: zones of 5, 2 and 13 in shuffled order, a lone undamaged exhausted starter, 42 instances numbered apart, no Mana, the coin on the table and an untouched turn of player One |

## Left out

- Recorder.RecordedMatch.AppendRecord: a write adds one whole record or nothing; a line cut off half way by the device is not modelled.
- Parser.ParseRecords: starts from decoded records; line reading, JSON decoding, the check of the header's format and of the spelling of identities and digests inside records, and the errors of those are not modelled.
- Closing.PlayedMatchCloses: the bodies of ordinary actions, events and errors are abstract, and their wire conversions are assumed to lose nothing.
- Closing.RecordParseReplayCloses: that the rules engine reads a pool's cards and never its pointer (`BlindToHandle`) is a hypothesis, here and in the theorems built on it, needed only when the replaying library holds another pool.
- Rerecording.VerifiedTranscriptRerecords: that the rules engine refuses every action once the game is over (`Guarded`), which the first lines of `apply` do, is a hypothesis, as the engine itself is not modelled.
- Compare.ComparisonIsExact: how states, actions, events, errors, players, reasons and metadata serialize is abstract, and assumed to have distinct mapping names and to tell different values apart.
- CardLibraries.FromSets: a map's entries are taken in any order, so when several keys or identities repeat, which of them an error names is not fixed.
- CardLibraries.ConvertedIsComplete: of a card only code, printed Form and ability codes are modelled; the identity of a name is any function of it.
- Setup.OpenMatch: the random generator is any pair of reorderings.
- Session.SessionLoop.ServeSession: sockets, frames, handshakes, queue limits and deadlines are not modelled; a delivery reaches its client whole or fails, and the model of a client is what it was sent.
- SessionRuns.UpdatesHaveNoGaps: views and notices are any functions of state and events.
- Lexer.StructuralSource: agreement with the Rust lexical grammar is not claimed; the scan of escaped characters is the source's heuristic.
- RateLimit.WindowBound: exact reals stand for floating point numbers and durations.
- BrowserGrace.ActiveCountsGuards: the counters are followed for as many connects and disconnects as a 64-bit counter can hold.
- Thumbnail.DecodedIsCanonical: the checksum is any function with 32 bytes of result.
- Counters of 64 bits (sequence, step, index, counts, revision, request id) are natural numbers; their overflow is not modelled.
- The rules engine itself, card text and effects, and every check of authored fields before a Set is converted.
- TOML and JSON documents, SHA-256, and file names.
- The scan for allowed lints over the blanked source (`scan_file_for_too_many_args`) and the other lint checks.
- Providers, HTTP, HTML rendering, the metadata cache and the file system.
- `select_shutdown`, which only waits for the first of three events.
