# Therapist portal front end: a Dafny model of its client-side logic

The portal is a React single-page application in which a therapist records
a session with a client, uploads it, reads and edits the transcript, key
issues and notes the back end produces, and browses earlier sessions. Most
of it is markup, `fetch` calls and browser media objects. This project
models the logic that sits between those: the recorder control of the
recording screen, the data handling and audio player of the session view,
the shaping and filtering of the session list on the home page, the client
picker of the start-session dialog, the notes preview on a session card,
and the construction of authenticated requests and of the sessions query.

Each component is a state record with one pure step function per event
(a handler, an effect, a callback of the browser), and each helper is a
plain string or sequence function. Everything the code reads from the
outside world is a parameter: the stored token, the base URL, the response
of each request (its `ok` flag, status text and parsed body, or the
network failure), the text content the browser extracts from HTML, the
locale date rendering, and whether `confirm` was accepted. The calls the
handlers make on the outside (start, pause or stop the recorder, release
the microphone, clear the timer, close the audio context, `alert`,
`onCancel`, `onComplete`, play or pause the audio element, create a client)
are effects in the step's result, in call order. The recorder's timer
effect, which clears and re-creates the one-second interval whenever the
recording or pause flag changes, is the exception: its `setInterval` and
`clearInterval` calls are not effects, and its firings are `Tick` events.

JavaScript semantics the code depends on are written out in `js.dfy`:
truthiness, `a || b`, `String(v)` (as template literals and
`URLSearchParams.append` apply it), `===` (objects and arrays compare by
identity, so never equal in the model), `Number(v)`, `parseInt`, and the
object spread `{...a, ...b}`. `text.dfy` gives `trim` with the ECMAScript
whitespace set, `includes`/`indexOf`, `toLowerCase` on ASCII letters,
integer `toString` and `padStart`.

Files and modules:

| file | module | models |
|---|---|---|
| wrappers.dfy | Wrappers | `Option` and `Result` |
| js.dfy | Js | JavaScript values and the coercions above |
| text.dfy | Text | the string built-ins above |
| clock.dfy | Clock | the `m:ss` rendering shared by three components, and a parser for it |
| recorder.dfy | Recorder | src/components/RecordingSession.jsx |
| player.dfy | Player | the audio player handlers of src/pages/SessionDetail.jsx |
| session_detail.dfy | SessionView | transcript selection, header strip, add issue and save in src/pages/SessionDetail.jsx |
| search.dfy | Search | the case-insensitive name filter of Home.jsx and StartSessionModal.jsx |
| session_list.dfy | SessionList | src/pages/Home.jsx |
| client_picker.dfy | ClientPicker | src/components/StartSessionModal.jsx |
| notes_preview.dfy | NotesPreview | `getPlainTextPreview` of src/components/SessionCard.jsx |
| api.dfy | Api | src/services/api.js |
| session_service.dfy | SessionService | `fetchSessions` and `getSessionById` of src/services/sessionService.js |

Resource handling and failure paths, as the code has them:

- `cleanup` releases the timer, the microphone tracks and the audio
  context but never resets its refs, so after a completed stop the unmount
  teardown closes the audio context a second time
  (`Recorder.TeardownReleasesTwice`).
- A start that fails after the microphone was granted (the audio context,
  the analyser or the recorder throws) releases nothing, so the stream
  stays held until the unmount teardown (`Recorder.OnStartFail`).
- A failed upload keeps the recording screen, but the recorded blob is kept
  nowhere the page could retry with (`SessionList.CompleteRecording` keeps
  only the client and the session number).

Behaviour of the code that the model keeps as written:

- The card record spreads the raw session last, so the raw `duration`
  number overrides the formatted `m:ss` text (`SessionList.RawDurationWins`).
- A rejected upload alerts with the prefix `Failed to save recording: `
  twice, once from the thrown error and once from the alert.
- The session service sends `Authorization: Bearer null` when no token is
  stored, whereas the shared request builder omits the header
  (`SessionService.ServiceSendsBearerWithoutToken`).
- A falsy but defined `limit` or `offset` (`0`, `null`) is sent as it is;
  the defaults 10 and 0 apply only to missing options.
- A notes payload that is a non-empty string is taken as an existing note,
  and its first character has no `note_id`, so the PUT goes to
  `/notes/undefined`.
- A card whose client name is not a string makes the list's filter throw
  during rendering (`SessionList.Screen` yields `RenderFailed`).

## Model

| member | source | states |
|---|---|---|
| Recorder.Cleanup | src/components/RecordingSession.jsx:45-55 | cleanup releases exactly the resources whose refs are set (timer, tracks, context), one effect each, and nothing else |
| Recorder.OnStartOk | src/components/RecordingSession.jsx:57-85 | a successful start holds stream, context and recorder, starts the recorder and sets isRecording, leaving pause flag, duration and chunks alone |
| Recorder.OnStartFail | src/components/RecordingSession.jsx:57-90 | a failed start alerts then calls onCancel and releases nothing: a denied microphone changes nothing, a failing audio context leaves the stream held, a failing analyser or recorder constructor the stream and the context, a failing recorder start all three |
| Recorder.Step | src/components/RecordingSession.jsx:17-135 | only a completed start sets isRecording and only the stop button clears it; only a firing while ticking adds a second; only a non-empty chunk changes the chunk list, at its end; cancel only calls onCancel; unmounting only runs cleanup |
| Recorder.OnTick | src/components/RecordingSession.jsx:25-36 | a tick adds exactly one second while recording and not paused and changes nothing otherwise |
| Recorder.OnPauseToggle | src/components/RecordingSession.jsx:112-121 | pause is a no-op unless a recorder exists and isRecording holds; then it flips isPaused and resumes or pauses the recorder accordingly, keeping duration and chunks |
| Recorder.OnDataAvailable | src/components/RecordingSession.jsx:76-80 | a chunk with bytes is appended at the end, an empty one is dropped, nothing else changes |
| Recorder.OnStop | src/components/RecordingSession.jsx:123-135 | stop first stops the recorder, clears isRecording and arms onstop with the duration at that moment; without a recorder nothing happens |
| Recorder.OnStopComplete | src/components/RecordingSession.jsx:129-133 | onstop emits only releases and then, last, onComplete with the audio/webm blob of the concatenated chunks and the duration captured at stop |
| Recorder.FormatTime | src/components/RecordingSession.jsx:137-141 | the m:ss text reads back as minutes n / 60 and two-digit seconds n % 60, so 60*m + s = n with s in 0..59 |
| Recorder.ChunksInArrivalOrder | src/components/RecordingSession.jsx:76-80 | over any run of events the chunk list is the old one followed by the non-empty delivered chunks in arrival order |
| Recorder.ConcatAppend | src/components/RecordingSession.jsx:130 | the blob bytes of chunks appended later are the earlier bytes followed by the new ones |
| Recorder.DurationCountsUnpausedTicks | src/components/RecordingSession.jsx:25-43 | while recording, a run of ticks and pause toggles adds exactly the ticks that fire while not paused, counted independently |
| Recorder.PausedAfterToggles | src/components/RecordingSession.jsx:112-121 | while recording, the pause flag after a run of timer events is flipped once per toggle |
| Recorder.PauseResumeNeutral | src/components/RecordingSession.jsx:25-43 | interval firings, pause, firings, resume, firings add exactly the firings before the pause and after the resume and leave the recording ticking |
| Recorder.ToggleTwiceRestores | src/components/RecordingSession.jsx:112-121 | two pause toggles restore the state, up to the timer ref having been set |
| Recorder.StoppedStaysFrozen | src/components/RecordingSession.jsx:112-127 | once isRecording is false and no new start comes, ticks never count and pause toggles change nothing |
| Recorder.OnStopKeepsHandler | src/components/RecordingSession.jsx:129-133 | events other than start and stop leave the armed onstop handler and its captured duration alone |
| Recorder.StopThenComplete | src/components/RecordingSession.jsx:123-133 | after stop, whatever arrives before onstop, onComplete gets the in-order bytes of all chunks and the duration as of stop, after the releases |
| Recorder.TeardownReleasesTwice | src/components/RecordingSession.jsx:17-22 | after onstop has run cleanup, the unmount teardown closes the audio context again, because the refs are never reset |
| Recorder.RunAppend | src/components/RecordingSession.jsx:17-135 | a run of events split in two is the second part run from the state the first part leaves, with the effects concatenated |
| Clock.ClockRoundTrip | src/components/RecordingSession.jsx:137-141 | the m:ss rendering of n parses back as (n / 60, n % 60) with exactly two second digits |
| Clock.JsRem | src/pages/Home.jsx:110 | JavaScript's % is what the quotient rounded toward zero leaves, a = trunc(a / b) * b + r: the mathematical remainder on non-negative numbers, between -b and 0 on negative ones |
| Clock.FormatSeconds | src/pages/Home.jsx:109-111 | for a non-negative whole number of seconds the JavaScript arithmetic gives the m:ss clock |
| Player.FormatTime | src/pages/SessionDetail.jsx:244-249 | a NaN time shows 0:00 and an infinite one Infinity:NaN; a finite one shows minutes, a colon and seconds |
| Player.FormatTimeWholeSeconds | src/pages/SessionDetail.jsx:244-249 | a non-negative media time shows the m:ss clock of its whole seconds, which parses back as floor(s) / 60 and floor(s) % 60 |
| Player.WholeParts | src/pages/SessionDetail.jsx:246-247 | for a non-negative time, floor(s / 60) and floor(s % 60) equal the whole-second quotient and remainder |
| Player.PlayPause | src/pages/SessionDetail.jsx:198-207 | with an audio element the click flips isPlaying and pauses a playing element or plays a paused one; without one nothing happens |
| Player.PlayPauseTwice | src/pages/SessionDetail.jsx:198-207 | two clicks restore the state having played and paused the element once each |
| Player.TimeUpdate | src/pages/SessionDetail.jsx:209-213 | the shown time catches up with the element's position and nothing else changes |
| Player.LoadedMetadata | src/pages/SessionDetail.jsx:215-219 | the duration state takes the element's duration and nothing else changes |
| Player.SeekClick | src/pages/SessionDetail.jsx:221-230 | a click at a fraction of the bar seeks to that fraction of a finite duration and shows it; a NaN duration makes the assignment throw and changes nothing |
| Player.SeekWithinBounds | src/pages/SessionDetail.jsx:221-230 | a click inside the bar seeks inside the recording |
| Player.SkipForward | src/pages/SessionDetail.jsx:232-236 | skip forward moves to min(t + 10, duration), never past a finite duration; a NaN duration throws |
| Player.SkipBackward | src/pages/SessionDetail.jsx:238-242 | skip back moves to max(t - 10, 0), never below 0 |
| Player.SkipForwardNearEnd | src/pages/SessionDetail.jsx:232-236 | from five seconds before the end, skip forward lands exactly on the end |
| Player.SkipWithinBounds | src/pages/SessionDetail.jsx:232-242 | from a position inside the recording both skips stay inside it |
| SessionView.Coalesce | src/pages/SessionDetail.jsx:69 | a chain of `||` yields the first truthy operand, or the last when none is truthy |
| SessionView.SelectTranscript | src/pages/SessionDetail.jsx:69-71 | the transcript is the first truthy of transcript_text, file_content and content, else '', and only a string is usable |
| SessionView.SecondPart | src/pages/SessionDetail.jsx:75-76 | the second part of a split on the marker runs from the end of the first marker to the next marker or the end, and contains no marker |
| SessionView.TrimKeepsAbsence | src/pages/SessionDetail.jsx:76 | trimming a text without the marker cannot create one |
| SessionView.StripHeader | src/pages/SessionDetail.jsx:73-77 | without the marker the text is unchanged; with it, a non-empty second part is shown trimmed and marker-free, an empty one keeps the text, marker included |
| SessionView.SecondPartShape | src/pages/SessionDetail.jsx:75-76 | in header, marker, body, then the end or another marker, the second part of the split is exactly the body |
| SessionView.StripHeaderShape | src/pages/SessionDetail.jsx:73-77 | a header, the marker and a non-blank body followed by the end or another marker shows exactly the trimmed body |
| SessionView.StripHeaderIdempotent | src/pages/SessionDetail.jsx:73-77 | stripping the header of an already stripped transcript changes nothing |
| SessionView.FetchTranscript | src/pages/SessionDetail.jsx:51-89 | an ok response with a string transcript sets the stripped transcript; a failed request, a non-ok response or a non-string value keeps the current one |
| SessionView.PlainTranscriptShownAsIs | src/pages/SessionDetail.jsx:69-80 | a non-empty transcript_text without the marker is shown exactly as received |
| SessionView.AddIssue | src/pages/SessionDetail.jsx:155-178 | a blank input sends nothing; otherwise the trimmed text is posted, and only a successful post clears the input and refetches the issues |
| SessionView.PostedIssueIsTrimmed | src/pages/SessionDetail.jsx:156-168 | the posted issue text has no surrounding whitespace and is no longer than the input |
| SessionView.SaveChanges | src/pages/SessionDetail.jsx:264-327 | the transcript PUT comes first, then the notes GET, then exactly one note write: PUT to the first note when notes exist, POST otherwise; any failure alerts and shows no toast; the return to the list is scheduled exactly when the toast is shown |
| SessionView.AtMostOneNoteWrite | src/pages/SessionDetail.jsx:290-314 | a save writes the notes at most once, and exactly once when the PUT succeeded and the notes body was readable |
| SessionList.FormatDuration | src/pages/Home.jsx:107-112 | a falsy duration shows 0:00, a positive number its m:ss clock that parses back, and a non-numeric value NaN:NaN |
| SessionList.ClockOf | src/pages/Home.jsx:109-111 | a non-negative number of seconds shows the m:ss clock that parses back as minutes and seconds; NaN shows NaN:NaN |
| SessionList.NumericStringDuration | src/pages/Home.jsx:107-112 | a duration sent as a decimal string shows the same clock as the number |
| SessionList.FollowUpReadsBack | src/pages/Home.jsx:58-63 | the follow-up text begins with the count, which parseInt reads back, followed by the noun and the responder |
| SessionList.UpdateMessage | src/pages/Home.jsx:56-64 | the follow-up line is present iff parseInt of the count is positive and a responder name is truthy, and then reads count, noun, by, name |
| SessionList.NoMessageWithoutCount | src/pages/Home.jsx:58-60 | a count parseInt cannot read shows no follow-up line |
| SessionList.KeyIssueTexts | src/pages/Home.jsx:75 | the key issues are the issue_text of each issue in order, [] for a falsy list, and the map throws on a non-array or a null element |
| SessionList.FormatDate | src/pages/Home.jsx:94-104 | a falsy date shows '', any other the locale rendering |
| SessionList.MapSession | src/pages/Home.jsx:66-79 | a card exists iff the key issues can be built; it has the raw session's keys plus the eleven card fields; every raw field is kept as is; each card field the session lacks is computed: id from session_id, the formatted date and duration, Session, client_name or Unknown Client, whether audio_file_path is truthy, whether status is completed, has_notes or false, the issue texts, notes_preview or '', the follow-up line or null |
| SessionList.CardDefaults | src/pages/Home.jsx:71-75 | without clashing raw fields, clientName defaults to Unknown Client, hasRecording iff audio_file_path is truthy, hasTranscript iff status is completed, keyIssues the issue texts |
| SessionList.RawDurationWins | src/pages/Home.jsx:70-78 | a raw non-string duration overrides the formatted one on the card |
| SessionList.AttachIssues | src/pages/Home.jsx:31-51 | the issues request adds keyIssuesData (the body or [], [] on failure) and keeps every other field |
| SessionList.MapOrThrow | src/pages/Home.jsx:55 | a map whose callback may throw gives every result in order, or fails exactly when some element throws |
| SessionList.MapAll | src/pages/Home.jsx:31-80 | the cards correspond one to one, in order, to the fetched sessions with their issues, or the load fails when one mapping throws |
| SessionList.FilteredSessions | src/pages/Home.jsx:115-117 | the shown cards are exactly those whose lower-cased client name contains the lower-cased search text, in their original order |
| SessionList.NextSessionNumber | src/pages/Home.jsx:149-150 | the next session number lies between 1 and one more than the number of loaded sessions |
| SessionList.NextNumberCountsOwnSessions | src/pages/Home.jsx:149-150 | loading one more session of the client raises the next number by one, one of another client leaves it alone |
| SessionList.LoadSessions | src/pages/Home.jsx:24-91 | loading ends not loading, with the mapped cards and no error on success, or no cards and the fixed error text on any failure, nothing else changed |
| SessionList.StartSession | src/pages/Home.jsx:138-163 | starting records for the picked or newly created client with the next session number and closes the dialog; a failed client creation only alerts |
| SessionList.CancelRecording | src/pages/Home.jsx:165-169 | the recording is dropped exactly when the confirm dialog is accepted |
| SessionList.CompleteRecording | src/pages/Home.jsx:171-215 | a successful upload reloads the list, drops the recording and opens the new session flagged as new; a failure only alerts and keeps the recording |
| SessionList.Screen | src/pages/Home.jsx:222-279 | the viewed session wins over the recording, which wins over the list; the list shows loading, then the error, then the empty text, then the filtered cards; a non-string name fails the render |
| SessionList.MappedNameIsText | src/pages/Home.jsx:71 | a card built from a string or falsy client_name has a string client name, so the filter can run |
| SessionList.FailedUploadStaysRecording | src/pages/Home.jsx:210-214 | after a failed upload the page still shows the recording screen |
| SessionList.UploadOpensNewSession | src/pages/Home.jsx:204-209 | after a successful upload the page shows the new session flagged as new, whatever the reload returned |
| SessionList.BackShowsList | src/pages/Home.jsx:222-241 | going back from a session shows the list when nothing is being recorded |
| ClientPicker.Step | src/components/StartSessionModal.jsx:13-81 | close resets all four fields; select, type and add-new set the fields as their handlers do; every handler but focus leaves selection and new-client flag exclusive |
| ClientPicker.RunKeepsExclusive | src/components/StartSessionModal.jsx:57-81 | from an exclusive state, no sequence of handlers sets a selected client and the new-client flag together |
| ClientPicker.Submit | src/components/StartSessionModal.jsx:47-55 | submit calls onStart exactly when the button is enabled; the new-client branch wins with the trimmed non-blank name, otherwise the selected client |
| ClientPicker.SelectThenSubmit | src/components/StartSessionModal.jsx:47-62 | after picking a client from the dropdown, submit starts a session for exactly that client |
| ClientPicker.TypeThenAddNew | src/components/StartSessionModal.jsx:47-81 | typing then add-new submits the typed name trimmed, or nothing when it is blank |
| ClientPicker.TypingDisablesSubmit | src/components/StartSessionModal.jsx:64-70 | right after typing the button is disabled and submit calls nothing |
| ClientPicker.FilteredClients | src/components/StartSessionModal.jsx:72-74 | the dropdown lists exactly the clients whose name contains the search text ignoring case, in their order |
| ClientPicker.CloseShowsAll | src/components/StartSessionModal.jsx:14-18 | after closing, the emptied search text lists every client |
| Search.FilterByName | src/pages/Home.jsx:115-117 | the filter keeps exactly the matching elements and nothing else |
| Search.FilterIsSubsequence | src/pages/Home.jsx:115-117 | the filter keeps the order of what it keeps |
| Search.FilterAppend | src/pages/Home.jsx:115-117 | filtering a concatenation filters each part |
| Search.FilterEmptyTerm | src/pages/Home.jsx:115-117 | an empty search text keeps every element |
| Search.MatchesIgnoresCase | src/components/StartSessionModal.jsx:72-74 | lower-casing either side beforehand does not change the match |
| NotesPreview.TrimTruncate | src/components/SessionCard.jsx:16-21 | the preview is the trimmed text when at most 150 long, else its first 150 characters and ..., so never longer than 153 |
| NotesPreview.PreviewUnique | src/components/SessionCard.jsx:19-21 | the preview shape determines the preview: only one text is a preview of a given trimmed text |
| NotesPreview.TrimTruncateIdempotent | src/components/SessionCard.jsx:16-21 | applying the trim and truncate step to its own output changes nothing |
| NotesPreview.Preview | src/components/SessionCard.jsx:5-24 | falsy content gives ''; other content gives the preview of its trimmed text |
| Api.IndexProperties | src/services/api.js:34 | spreading a string or array copies one property per index, named by its decimal index, and no other property |
| Api.DefaultHeaders | src/services/api.js:21-27 | the default headers are the JSON content type, plus Bearer token exactly when a non-empty token is stored, and nothing else |
| Api.ApiRequest | src/services/api.js:18-40 | the caller's options are kept except credentials, forced to include, and headers, the defaults overridden key by key by the caller's; an http endpoint is the URL as is, any other is appended to the base URL |
| Api.PlainRequestHeaders | src/services/api.js:21-36 | without caller headers the request sends exactly the default headers, with Authorization iff a token is stored |
| Api.CallerAuthorizationWins | src/services/api.js:32-35 | a caller's Authorization header replaces the stored token's while the content type stays |
| Api.MethodOptions | src/services/api.js:45-74 | the verb helpers pass the method and a body exactly when one is given |
| Api.ApiGet | src/services/api.js:45-47 | GET carries the default headers, credentials include, the method and no body |
| Api.ApiPost | src/services/api.js:52-57 | POST carries the default headers, credentials include, the method and the serialised body |
| Api.ApiPut | src/services/api.js:62-67 | PUT carries the default headers, credentials include, the method and the serialised body |
| Api.ApiDelete | src/services/api.js:72-74 | DELETE carries the default headers, credentials include, the method and no body |
| Api.UrlResolution | src/services/api.js:38 | an endpoint starting with http is used verbatim, a relative one is prefixed with the base URL |
| SessionService.WithDefault | src/services/sessionService.js:21 | a destructuring default applies only to an undefined option |
| SessionService.Optional | src/services/sessionService.js:24-25 | an option is appended as one parameter iff it is truthy |
| SessionService.QueryParams | src/services/sessionService.js:21-27 | the query holds two to four parameters among client_id, status, limit, offset in that fixed order, each at most once, ending with limit and offset |
| SessionService.QueryParamsLookup | src/services/sessionService.js:21-27 | client_id and status are sent iff the option is truthy; limit and offset always, defaulting to 10 and 0 only when missing |
| SessionService.HomeListQuery | src/pages/Home.jsx:27 | the home page's request asks for limit 50 and offset 0 with no filter |
| SessionService.FalsyLimitIsSent | src/services/sessionService.js:21-26 | a limit of 0 or null is sent as it is, not replaced by the default |
| SessionService.Bearer | src/services/sessionService.js:34 | the Authorization value is Bearer followed by the token, or by null when none is stored |
| SessionService.ServiceHeaders | src/services/sessionService.js:32-35 | the service sends exactly the JSON content type and the bearer header |
| SessionService.ServiceSendsBearerWithoutToken | src/services/sessionService.js:29-36 | without a token the service still sends Bearer null, where the shared builder sends no Authorization |
| SessionService.SessionsRequest | src/services/sessionService.js:29-36 | fetchSessions sends a GET to /sessions with the built query and the service headers |
| SessionService.SessionRequest | src/services/sessionService.js:57-64 | getSessionById sends a GET to /sessions/ and the rendered id, no query, the service headers |
| SessionService.Outcome | src/services/sessionService.js:38-47 | a read succeeds iff the response is ok and its body parses, returning the body; a non-ok response fails with the prefix and the status text; a network failure passes its error through |
| SessionService.FetchSessions | src/services/sessionService.js:38-47 | fetchSessions returns the parsed body iff the response is ok and parses; a non-ok response fails with Failed to fetch sessions and the status text, an unparsable body with the parse error, a network failure with its own error |
| SessionService.GetSessionById | src/services/sessionService.js:66-75 | getSessionById returns the parsed body iff the response is ok and parses; a non-ok response fails with Failed to fetch session and the status text, an unparsable body with the parse error, a network failure with its own error |
| SessionService.NotOkYieldsNoSessions | src/services/sessionService.js:38-40 | a response that is not ok never yields sessions, whatever its body, and the error names its status text |
| Js.Truthy | src/pages/Home.jsx:71-74 | a value is falsy exactly when it is undefined, null, false, 0 or the empty string |
| Js.ToText | src/services/sessionService.js:24-26 | String() keeps a string, writes undefined and null by name and a boolean as true or false |
| Js.NumberTextRoundTrip | src/services/sessionService.js:26 | Number() reads back the text String() gives an integer |
| Js.ToInteger | src/pages/Home.jsx:108-110 | Number() keeps a number, reads a string as Number() of its text, gives NaN for undefined and 0 for every other falsy value |
| Js.ParseInt | src/pages/Home.jsx:58 | parseInt yields a number only when, after leading whitespace, a digit or a sign and a digit come first; a negative one only after a minus; a leading digit not starting 0x always yields a non-negative number |
| Js.Spread | src/services/api.js:29-36 | an object spread has the keys of both objects, the later one's value winning on a clash |
| Js.StringToInteger | src/pages/Home.jsx:108-110 | Number() of a blank string is 0 and of a digit string its decimal value, surrounding whitespace ignored |
| Js.ParseIntOfDecimal | src/pages/Home.jsx:58 | parseInt reads back a positive integer's rendering whatever non-digit text follows |
| Text.Trim | src/components/SessionCard.jsx:16 | trim yields a slice with no whitespace at either end and only whitespace outside it |
| Text.TrimUnique | src/components/SessionCard.jsx:16 | no other slice of the text has those two properties |
| Text.TrimIdempotent | src/components/SessionCard.jsx:16 | trimming twice is trimming once |
| Text.TrimEmptyIff | src/pages/SessionDetail.jsx:156 | a trimmed text is empty exactly when the text is all whitespace |
| Text.IndexOf | src/pages/SessionDetail.jsx:74 | indexOf gives the first place the pattern occurs, or none when it occurs nowhere |
| Text.ToLowerIdempotent | src/pages/Home.jsx:116 | lower-casing twice is lower-casing once |
| Text.DecimalRoundTrip | src/pages/Home.jsx:111 | reading back the decimal rendering of a number gives the number |
| Text.PadStart | src/pages/Home.jsx:111 | padStart leaves a long enough text alone and otherwise fills it on the left to the width |

## Left out

- Network, `fetch`, `localStorage`, `alert`, `confirm` and `console`: responses, the token, the base URL and the confirm answer are parameters; alerts and callbacks are effects.
- Browser media objects (`getUserMedia`, `MediaRecorder`, `AudioContext`, the analyser): only whether each ref is set and the calls made on them are modelled; the level meter (`visualize`, `requestAnimationFrame`) and the random waveform are left out as floating-point display work.
- Real time: the one-second interval is a `Tick` event, and the 1.5 s delay of the save toast's `setTimeout` (which hides the toast and calls `onBack`) is not modelled; `SessionView.SaveChanges` only says that the return to the list is scheduled, exactly when the toast is shown.
- JSON: `JSON.stringify` of request bodies and `response.json()` are taken as given strings and parsed values.
- The HTML-to-text extraction of the notes preview: the text content is an input.
- Locale date rendering (`toLocaleDateString`): a parameter of the session mapping.
- Progress-bar percentages, and the clamping the media element applies to an assigned `currentTime`: floating-point display work.
- `fetchNotes`, `fetchIssues`, the notes editor, export, formatting and delete-issue handlers of the session view, and `fetchClients` of the dialog: plain request and display code outside the modelled core.
- `createSession`, `updateSession` and `deleteSession`: they call `getCustomerId`, which the service neither defines nor imports, so they cannot run.
- `Login.jsx`, `App.jsx`, `Toast.jsx` and `clientService.js`: authentication, routing, a timer and pass-through requests.
- URL encoding: the query is the list of appended name and value pairs; `URLSearchParams` percent-encoding and serialisation are not modelled.
- Js numbers are integers: NaN, fractions, -0 and numbers from 1e21 on (which `String()` writes in exponent form) are not modelled; `Number()` of a string accepts decimal and hexadecimal integers only.
- `toLowerCase` is modelled on ASCII letters only.
- Header names are compared exactly, as object keys are; the case-insensitive merging `fetch` does afterwards is not modelled.
- `fetchSessions` is modelled with an object for its options; a `null` argument, which throws on destructuring, is not.
- SessionView.SaveChanges: a notes array's elements are taken to be objects, and any non-array, non-string body to have no `length`; an array starting with `null` or an object with a positive numeric `length` field, which would throw in the code, are not modelled.
- SessionList.LoadSessions: `loading` is set true before the requests; the model gives only the state after they settle.
- Recorder.OnStop: `clearInterval` is emitted only when the timer ref is set, as clearing a null timer has no effect.
- Recorder.PauseResumeNeutral: it counts interval firings, not elapsed time. Each change of the pause flag re-creates the one-second interval, so a partial second before a pause or a resume is never counted, and the model does not say how many firings a stretch of real time produces.
- NotesPreview.TrimTruncate: the 150 limit counts Unicode scalar values, whereas `length` and `substring` count UTF-16 code units, so a text with characters outside the Basic Multilingual Plane is cut at a different place.
- NotesPreview.Preview: the same counting as `NotesPreview.TrimTruncate`.
- Player.FormatTime: media times are exact reals rather than IEEE doubles, so the rounding of `s / 60` and `s % 60` is not modelled; the same holds for the positions of `Player.SeekClick`, `Player.SkipForward` and `Player.SkipBackward`.
