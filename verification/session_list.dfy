/**
 * The home page (Home.jsx): the shaping of fetched sessions into cards, the
 * duration and follow-up texts on a card, the client-name filter, the
 * session numbering of a new recording, the outcome of an upload, and which
 * of the three screens the page shows.
 */
module SessionList {
  import opened Wrappers
  import opened Text
  import opened Js
  import opened Clock
  import opened Search
  import ClientPicker

  // ---------------------------------------------------------------------------
  // card texts
  // ---------------------------------------------------------------------------

  /**
   * `formatDuration`: `0:00` for a falsy value, otherwise `Math.floor(s / 60)`
   * and the padded `s % 60` of the value's number, which shows as
   * `NaN:NaN` when the value is not a number.
   */
  function FormatDuration(v: Value): (r: string)
    ensures !Truthy(v) ==> r == "0:00"
    ensures v.Num? && v.n > 0 ==> r == FormatClock(v.n) && ParseClock(r) == Some((v.n / 60, v.n % 60))
    ensures Truthy(v) && ToInteger(v).None? ==> r == "NaN:NaN"
  {
    if !Truthy(v) then "0:00" else ClockOf(ToInteger(v))
  }

  /** The clock of a truthy duration, given its number (`None` for NaN). */
  function ClockOf(secs: Option<int>): (r: string)
    ensures secs.Some? && secs.value >= 0 ==>
              r == FormatClock(secs.value) && ParseClock(r) == Some((secs.value / 60, secs.value % 60))
    ensures secs.None? ==> r == "NaN:NaN"
  {
    match secs
    case Some(n) =>
      if n >= 0 then
        ClockRoundTrip(n);
        FormatSeconds(n)
      else FormatSeconds(n)
    case None =>
      assert PadStart("NaN", 2, '0') == "NaN";
      Render("NaN", "NaN")
  }

  /** A numeric string shows the same clock as the number it holds. */
  lemma NumericStringDuration(n: nat)
    requires 0 < n
    ensures FormatDuration(Str(NatToDecimal(n))) == FormatDuration(Num(n))
  {
    var d := NatToDecimal(n);
    assert IsTrimmed(d) by {
      assert IsDigit(d[0]) && IsDigit(d[|d| - 1]);
    }
    TrimOfTrimmed(d);
    DecimalRoundTrip(n);
    assert StringToInteger(d) == Some(n);
    assert ToInteger(Str(d)) == Some(n);
    assert Truthy(Str(d)) && Truthy(Num(n));
  }

  /** `parseInt(session.followup_response_count) || 0`. */
  function ResponseCount(v: Value): int {
    match ParseInt(ToText(v))
    case None => 0
    case Some(c) => c
  }

  function Noun(count: int): string {
    if count == 1 then "response" else "responses"
  }

  /** ` ${responsePlural} by ${name}`: what follows the count in the follow-up text. */
  function CountSuffix(count: int, name: string): (r: string)
    ensures |r| > 0 && r[0] == ' '
  {
    " " + Noun(count) + " by " + name
  }

  /** `${responseCount} ${responsePlural} by ${name}`. */
  function FollowUp(count: nat, name: string): string {
    NatToDecimal(count) + CountSuffix(count, name)
  }

  /**
   * The follow-up text starts with the count, which `parseInt` reads back,
   * followed by the noun and the name.
   */
  lemma FollowUpReadsBack(count: nat, name: string)
    requires count > 0
    ensures ParseInt(FollowUp(count, name)) == Some(count)
    ensures FollowUp(count, name)[|NatToDecimal(count)|..] == CountSuffix(count, name)
  {
    var digits := NatToDecimal(count);
    var rest := CountSuffix(count, name);
    assert !IsDigit(rest[0]);
    ParseIntOfDecimal(count, rest);
    assert (digits + rest)[|digits|..] == rest;
  }

  /**
   * The follow-up line of a card: present exactly when the count is positive
   * and a responder name is there.
   */
  function UpdateMessage(session: Object): (r: Option<string>)
    ensures var count := ResponseCount(Get(session, "followup_response_count"));
            var name := Get(session, "latest_response_client_name");
            && (r.Some? <==> count > 0 && Truthy(name))
            && (r.Some? ==> r.value == FollowUp(count, ToText(name)))
  {
    var count := ResponseCount(Get(session, "followup_response_count"));
    var name := Get(session, "latest_response_client_name");
    if count > 0 && Truthy(name) then Some(FollowUp(count, ToText(name))) else None
  }

  /** A count that `parseInt` cannot read, or reads as zero or less, shows no follow-up line. */
  lemma NoMessageWithoutCount(session: Object)
    requires ParseInt(ToText(Get(session, "followup_response_count"))).None?
    ensures UpdateMessage(session).None?
  {
  }

  // ---------------------------------------------------------------------------
  // the card record
  // ---------------------------------------------------------------------------

  const UnknownClient: string := "Unknown Client"

  /**
   * `(session.keyIssuesData || []).map(issue => issue.issue_text)`: `None`
   * when the list is not an array or holds null or undefined (the call
   * throws).
   */
  function KeyIssueTexts(v: Value): (r: Option<seq<Value>>)
    ensures !Truthy(v) ==> r == Some([])
    ensures r.Some? ==> Or(v, Arr([])).Arr? && |r.value| == |Or(v, Arr([])).items|
    ensures r.Some? ==> forall i :: 0 <= i < |r.value| && Or(v, Arr([])).items[i].Obj? ==>
              r.value[i] == Get(Or(v, Arr([])).items[i].fields, "issue_text")
    ensures Or(v, Arr([])).Arr? && (forall x :: x in Or(v, Arr([])).items ==> x.Obj?) ==> r.Some?
  {
    var list := Or(v, Arr([]));
    if !list.Arr? || exists x :: x in list.items && (x.Undefined? || x.Null?) then None
    else
      var texts := seq(|list.items|, i requires 0 <= i < |list.items| =>
                         if list.items[i].Obj? then Get(list.items[i].fields, "issue_text") else Undefined);
      assert !Truthy(v) ==> texts == [];
      Some(texts)
  }

  /** `formatDate`: empty for a falsy value, otherwise the locale rendering, taken as a parameter. */
  function FormatDate(v: Value, locale: Value -> string): (r: string)
    ensures !Truthy(v) ==> r == []
    ensures Truthy(v) ==> r == locale(v)
  {
    if !Truthy(v) then "" else locale(v)
  }

  /** The names of the fields `loadSessions` computes for a card. */
  const CardFields: set<string> :=
    {"id", "date", "sessionNumber", "duration", "clientName", "hasRecording", "hasTranscript",
     "hasNotes", "keyIssues", "notesPreview", "updates"}

  /** An object holding exactly the computed card fields, each under its own name. */
  function CardRecord(id: Value, date: Value, sessionNumber: Value, duration: Value, hasNotes: Value,
                      notesPreview: Value, updates: Value, keyIssues: Value, hasTranscript: Value,
                      hasRecording: Value, clientName: Value): (r: Object)
    ensures r.Keys == CardFields
    ensures r["id"] == id && r["date"] == date && r["sessionNumber"] == sessionNumber
    ensures r["duration"] == duration && r["hasNotes"] == hasNotes && r["notesPreview"] == notesPreview
    ensures r["updates"] == updates && r["keyIssues"] == keyIssues && r["hasTranscript"] == hasTranscript
    ensures r["hasRecording"] == hasRecording && r["clientName"] == clientName
  {
    map[
      "id" := id, "date" := date, "sessionNumber" := sessionNumber, "duration" := duration,
      "hasNotes" := hasNotes, "notesPreview" := notesPreview, "updates" := updates,
      "keyIssues" := keyIssues, "hasTranscript" := hasTranscript, "hasRecording" := hasRecording,
      "clientName" := clientName
    ]
  }

  /** The fields `loadSessions` computes for a card, before the session itself is spread over them. */
  function Computed(session: Object, issues: seq<Value>, date: string): Object {
    CardRecord(
      Get(session, "session_id"),
      Str(date),
      Str("Session"),
      Str(FormatDuration(Get(session, "duration"))),
      Or(Get(session, "has_notes"), Bool(false)),
      Or(Get(session, "notes_preview"), Str("")),
      match UpdateMessage(session) case Some(m) => Str(m) case None => Null,
      Arr(issues),
      Bool(StrictEquals(Get(session, "status"), Str("completed"))),
      Bool(Truthy(Get(session, "audio_file_path"))),
      Or(Get(session, "client_name"), Str(UnknownClient)))
  }

  /** Where the session lacks a card field, the spread keeps the computed value. */
  lemma SpreadComputed(session: Object, issues: seq<Value>, date: string)
    ensures forall k :: k in Spread(Computed(session, issues, date), session) <==> k in session || k in CardFields
    ensures "id" !in session ==> Get(Spread(Computed(session, issues, date), session), "id") == Get(session, "session_id")
    ensures "date" !in session ==> Get(Spread(Computed(session, issues, date), session), "date") == Str(date)
    ensures "sessionNumber" !in session ==> Get(Spread(Computed(session, issues, date), session), "sessionNumber") == Str("Session")
    ensures "duration" !in session ==> Get(Spread(Computed(session, issues, date), session), "duration") == Str(FormatDuration(Get(session, "duration")))
    ensures "clientName" !in session ==> Get(Spread(Computed(session, issues, date), session), "clientName") == Or(Get(session, "client_name"), Str(UnknownClient))
    ensures "hasRecording" !in session ==> Get(Spread(Computed(session, issues, date), session), "hasRecording") == Bool(Truthy(Get(session, "audio_file_path")))
    ensures "hasTranscript" !in session ==> Get(Spread(Computed(session, issues, date), session), "hasTranscript") == Bool(StrictEquals(Get(session, "status"), Str("completed")))
    ensures "hasNotes" !in session ==> Get(Spread(Computed(session, issues, date), session), "hasNotes") == Or(Get(session, "has_notes"), Bool(false))
    ensures "keyIssues" !in session ==> Get(Spread(Computed(session, issues, date), session), "keyIssues") == Arr(issues)
    ensures "notesPreview" !in session ==> Get(Spread(Computed(session, issues, date), session), "notesPreview") == Or(Get(session, "notes_preview"), Str(""))
    ensures "updates" !in session ==> Get(Spread(Computed(session, issues, date), session), "updates") == (if UpdateMessage(session).Some? then Str(UpdateMessage(session).value) else Null)
  {
  }

  /**
   * One card of `loadSessions`: the computed fields, then `...session`, so
   * that every field the session has overrides the computed one of the same
   * name. `None` when building the key issues throws.
   */
  function MapSession(session: Object, locale: Value -> string): (r: Option<Object>)
    ensures r.Some? <==> KeyIssueTexts(Get(session, "keyIssuesData")).Some?
    ensures r.Some? ==> forall k :: k in r.value <==> k in session || k in CardFields
    ensures r.Some? ==> forall k :: k in session ==> r.value[k] == session[k]
    ensures r.Some? && "id" !in session ==>
              Get(r.value, "id") == Get(session, "session_id")
    ensures r.Some? && "date" !in session ==>
              Get(r.value, "date") == Str(FormatDate(Get(session, "session_date"), locale))
    ensures r.Some? && "sessionNumber" !in session ==>
              Get(r.value, "sessionNumber") == Str("Session")
    ensures r.Some? && "duration" !in session ==>
              Get(r.value, "duration") == Str(FormatDuration(Get(session, "duration")))
    ensures r.Some? && "clientName" !in session ==>
              Get(r.value, "clientName") == Or(Get(session, "client_name"), Str(UnknownClient))
    ensures r.Some? && "hasRecording" !in session ==>
              Get(r.value, "hasRecording") == Bool(Truthy(Get(session, "audio_file_path")))
    ensures r.Some? && "hasTranscript" !in session ==>
              Get(r.value, "hasTranscript") == Bool(StrictEquals(Get(session, "status"), Str("completed")))
    ensures r.Some? && "hasNotes" !in session ==>
              Get(r.value, "hasNotes") == Or(Get(session, "has_notes"), Bool(false))
    ensures r.Some? && "keyIssues" !in session ==>
              Get(r.value, "keyIssues") == Arr(KeyIssueTexts(Get(session, "keyIssuesData")).value)
    ensures r.Some? && "notesPreview" !in session ==>
              Get(r.value, "notesPreview") == Or(Get(session, "notes_preview"), Str(""))
    ensures r.Some? && "updates" !in session ==>
              Get(r.value, "updates") == (if UpdateMessage(session).Some? then Str(UpdateMessage(session).value) else Null)
  {
    match KeyIssueTexts(Get(session, "keyIssuesData"))
    case None => None
    case Some(issues) =>
      var c := Computed(session, issues, FormatDate(Get(session, "session_date"), locale));
      SpreadComputed(session, issues, FormatDate(Get(session, "session_date"), locale));
      Some(Spread(c, session))
  }

  /**
   * The computed defaults as they reach a card whose session does not carry
   * the card's own field names.
   */
  lemma CardDefaults(session: Object, locale: Value -> string)
    requires KeyIssueTexts(Get(session, "keyIssuesData")).Some?
    requires "clientName" !in session && "hasRecording" !in session
    requires "hasTranscript" !in session && "keyIssues" !in session
    ensures var card := MapSession(session, locale).value;
            && Get(card, "clientName") == (if Truthy(Get(session, "client_name")) then Get(session, "client_name") else Str(UnknownClient))
            && (Get(card, "hasRecording") == Bool(true) <==> Truthy(Get(session, "audio_file_path")))
            && (Get(card, "hasTranscript") == Bool(true) <==> Get(session, "status") == Str("completed"))
            && Get(card, "keyIssues") == Arr(KeyIssueTexts(Get(session, "keyIssuesData")).value)
  {
    var card := MapSession(session, locale).value;
    assert "clientName" in card && "hasRecording" in card && "hasTranscript" in card && "keyIssues" in card;
  }

  /**
   * The spread-order quirk: a session that carries `duration` (as every
   * fetched one does) shows that raw value, not the formatted `m:ss` text,
   * whenever the raw value is not itself a string.
   */
  lemma RawDurationWins(session: Object, locale: Value -> string)
    requires KeyIssueTexts(Get(session, "keyIssuesData")).Some?
    requires "duration" in session && !session["duration"].Str?
    ensures Get(MapSession(session, locale).value, "duration") == session["duration"]
    ensures Get(MapSession(session, locale).value, "duration") != Str(FormatDuration(session["duration"]))
  {
    var card := MapSession(session, locale).value;
    assert card["duration"] == session["duration"];
  }

  /** How the issues request of one session ended in `loadSessions`. */
  datatype IssuesOutcome = IssuesOk(data: Value) | IssuesFailed

  /** `{...session, keyIssuesData: issuesData || []}`, or `[]` when the request failed. */
  function AttachIssues(session: Object, outcome: IssuesOutcome): (r: Object)
    ensures forall k :: k in session && k != "keyIssuesData" ==> k in r && r[k] == session[k]
    ensures Get(r, "keyIssuesData") == (if outcome.IssuesOk? then Or(outcome.data, Arr([])) else Arr([]))
  {
    session["keyIssuesData" := if outcome.IssuesOk? then Or(outcome.data, Arr([])) else Arr([])]
  }

  /** `xs.map(f)` for an `f` that may throw: every result, or `None` at the first throw. */
  function MapOrThrow<A, B>(xs: seq<A>, f: A -> Option<B>): (r: Option<seq<B>>)
    ensures r.Some? ==> |r.value| == |xs| && forall i :: 0 <= i < |xs| ==> f(xs[i]) == Some(r.value[i])
    ensures r.None? ==> exists i :: 0 <= i < |xs| && f(xs[i]).None?
  {
    if xs == [] then Some([])
    else match f(xs[0])
      case None => None
      case Some(y) =>
        match MapOrThrow(xs[1..], f)
        case None =>
          assert forall j :: 0 <= j < |xs| - 1 ==> xs[1..][j] == xs[j + 1];
          None
        case Some(rest) =>
          assert forall j :: 1 <= j < |xs| ==> xs[j] == xs[1..][j - 1];
          Some([y] + rest)
  }

  /** The cards of all sessions, or `None` when one of them throws. */
  function MapAll(fetched: seq<(Object, IssuesOutcome)>, locale: Value -> string): (r: Option<seq<Object>>)
    ensures r.Some? ==> |r.value| == |fetched|
    ensures r.Some? ==> forall i :: 0 <= i < |fetched| ==>
              MapSession(AttachIssues(fetched[i].0, fetched[i].1), locale) == Some(r.value[i])
    ensures r.None? ==> exists i :: 0 <= i < |fetched| && MapSession(AttachIssues(fetched[i].0, fetched[i].1), locale).None?
  {
    MapOrThrow(fetched, (x: (Object, IssuesOutcome)) => MapSession(AttachIssues(x.0, x.1), locale))
  }

  // ---------------------------------------------------------------------------
  // filter and numbering
  // ---------------------------------------------------------------------------

  /** `session.clientName`, read as text. */
  function ClientNameOf(card: Object): string {
    var v := Get(card, "clientName");
    if v.Str? then v.s else ""
  }

  /** `toLowerCase` can be called on every card's client name. */
  predicate NamesAreText(cards: seq<Object>) {
    forall i :: 0 <= i < |cards| ==> Get(cards[i], "clientName").Str?
  }

  /** `filteredSessions`: the cards whose client name contains the search text, ignoring case, in order. */
  function FilteredSessions(cards: seq<Object>, term: string): (r: seq<Object>)
    requires NamesAreText(cards)
    ensures forall c :: c in r <==> c in cards && Matches(Get(c, "clientName").s, term)
    ensures IsSubsequence(r, cards)
  {
    FilterIsSubsequence(cards, ClientNameOf, term);
    FilterByName(cards, ClientNameOf, term)
  }

  /** The number of loaded cards whose `client_id` is `=== id`. */
  function SessionsOf(cards: seq<Object>, id: Value): (n: nat)
    ensures n <= |cards|
  {
    if cards == [] then 0
    else (if StrictEquals(Get(cards[0], "client_id"), id) then 1 else 0) + SessionsOf(cards[1..], id)
  }

  lemma {:induction false} SessionsOfAppend(a: seq<Object>, b: seq<Object>, id: Value)
    ensures SessionsOf(a + b, id) == SessionsOf(a, id) + SessionsOf(b, id)
  {
    if a == [] {
      assert a + b == b;
    } else {
      assert (a + b)[0] == a[0];
      assert (a + b)[1..] == a[1..] + b;
      SessionsOfAppend(a[1..], b, id);
    }
  }

  /** The session number of a new recording: one more than the client's loaded sessions. */
  function NextSessionNumber(cards: seq<Object>, id: Value): (n: nat)
    ensures 1 <= n <= |cards| + 1
  {
    SessionsOf(cards, id) + 1
  }

  /**
   * Loading one more session of the client raises the next number by one;
   * one of another client leaves it alone.
   */
  lemma NextNumberCountsOwnSessions(cards: seq<Object>, card: Object, id: Value)
    ensures NextSessionNumber(cards + [card], id) ==
              NextSessionNumber(cards, id) + (if StrictEquals(Get(card, "client_id"), id) then 1 else 0)
  {
    SessionsOfAppend(cards, [card], id);
    assert [card][1..] == [];
  }

  // ---------------------------------------------------------------------------
  // the page state
  // ---------------------------------------------------------------------------

  /** `recordingSession`: the client object and the session number shown while recording. */
  datatype Recording = Recording(client: Object, sessionNumber: nat)

  /** `viewingSession`. */
  datatype Viewing = Viewing(sessionId: Value, isNew: bool)

  datatype Home = Home(
    cards: seq<Object>,       // sessions
    loading: bool,
    error: Option<string>,
    term: string,             // searchTerm
    modalOpen: bool,          // isStartModalOpen
    recording: Option<Recording>,
    viewing: Option<Viewing>)

  const Initial: Home := Home([], true, None, "", false, None, None)

  const LoadError: string := "Failed to load sessions. Please try again."

  /** What `fetchSessions` and the per-session issue requests returned. */
  datatype LoadOutcome = FetchFailed | Fetched(sessions: seq<(Object, IssuesOutcome)>)

  /** `loadSessions`: the cards on success; no cards and the error text when anything throws. */
  function LoadSessions(h: Home, outcome: LoadOutcome, locale: Value -> string): (r: Home)
    ensures !r.loading
    ensures r.error.None? ==> outcome.Fetched? && MapAll(outcome.sessions, locale) == Some(r.cards)
    ensures r.error.Some? ==> r.error == Some(LoadError) && r.cards == []
    ensures r.(cards := h.cards, loading := h.loading, error := h.error) == h
  {
    match outcome
    case FetchFailed => h.(cards := [], error := Some(LoadError), loading := false)
    case Fetched(sessions) =>
      match MapAll(sessions, locale)
      case None => h.(cards := [], error := Some(LoadError), loading := false)
      case Some(cards) => h.(cards := cards, error := None, loading := false)
  }

  datatype Effect =
    | CreateClient(name: string)   // createClient({name})
    | Alert(text: string)

  datatype Transition = Transition(next: Home, effects: seq<Effect>)

  /** The client object the page works with for a picked existing client. */
  function ClientObject(c: ClientPicker.Client): Object {
    map["client_id" := c.clientId, "name" := Str(c.name)]
  }

  const StartError: string := "Failed to start session. Please try again."

  /**
   * `handleStartSession`: a new client is created first (`created` is what
   * `createClient` resolved to, `None` when it threw); the recording then
   * starts with the next session number of that client and the dialog closes.
   */
  function StartSession(h: Home, req: ClientPicker.StartRequest, created: Option<Object>): (t: Transition)
    ensures req.ExistingClient? ==>
              t.next == h.(recording := Some(Recording(ClientObject(req.client), NextSessionNumber(h.cards, req.client.clientId))),
                           modalOpen := false)
    ensures req.NewClient? && created.Some? ==>
              t.next.recording == Some(Recording(created.value, NextSessionNumber(h.cards, Get(created.value, "client_id"))))
    ensures req.NewClient? && created.None? ==> t.next == h && t.effects == [CreateClient(req.name), Alert(StartError)]
    ensures req.ExistingClient? || created.Some? ==>
              t.next.recording.Some? && !t.next.modalOpen && t.next.viewing == h.viewing && t.next.cards == h.cards
  {
    var prefix := if req.NewClient? then [CreateClient(req.name)] else [];
    var client := if req.NewClient? then created else Some(ClientObject(req.client));
    match client
    case None =>
      assert req.NewClient? ==> prefix + [Alert(StartError)] == [CreateClient(req.name), Alert(StartError)];
      Transition(h, prefix + [Alert(StartError)])
    case Some(c) =>
      var number := NextSessionNumber(h.cards, Get(c, "client_id"));
      Transition(h.(recording := Some(Recording(c, number)), modalOpen := false), prefix)
  }

  /** `handleCancelRecording`: the recording is dropped only when the confirm dialog is accepted. */
  function CancelRecording(h: Home, confirmed: bool): (r: Home)
    ensures confirmed ==> r == h.(recording := None)
    ensures !confirmed ==> r == h
  {
    if confirmed then h.(recording := None) else h
  }

  /** How the upload request of `handleCompleteRecording` ended. */
  datatype UploadOutcome =
    | Uploaded(result: Object)               // ok, and the JSON body
    | Rejected(status: int, body: string)    // not ok: the status and the response text
    | Threw(message: string)                 // the request or the body parse threw

  const SavePrefix: string := "Failed to save recording: "

  /**
   * `handleCompleteRecording`: on success the list reloads, the recording is
   * dropped and the new session opens with its toast; on failure only the
   * alert is shown and the recording stays. A rejected upload's message has
   * the prefix twice: once from the thrown error, once from the alert.
   */
  function CompleteRecording(h: Home, outcome: UploadOutcome, reload: LoadOutcome, locale: Value -> string): (t: Transition)
    ensures outcome.Uploaded? ==>
              && t.next.recording.None?
              && t.next.viewing == Some(Viewing(Get(outcome.result, "session_id"), true))
              && t.next.cards == LoadSessions(h, reload, locale).cards
              && t.effects == []
    ensures !outcome.Uploaded? ==> t.next == h && |t.effects| == 1 && t.effects[0].Alert?
    ensures outcome.Rejected? ==>
              t.effects == [Alert(SavePrefix + SavePrefix + IntToDecimal(outcome.status) + " - " + outcome.body)]
    ensures outcome.Threw? ==> t.effects == [Alert(SavePrefix + outcome.message)]
  {
    match outcome
    case Uploaded(result) =>
      var loaded := LoadSessions(h, reload, locale);
      Transition(loaded.(recording := None, viewing := Some(Viewing(Get(result, "session_id"), true))), [])
    case Rejected(status, body) =>
      var message := SavePrefix + IntToDecimal(status) + " - " + body;   // the thrown Error's message
      assert SavePrefix + message == SavePrefix + SavePrefix + IntToDecimal(status) + " - " + body;
      Transition(h, [Alert(SavePrefix + message)])
    case Threw(message) =>
      Transition(h, [Alert(SavePrefix + message)])
  }

  // ---------------------------------------------------------------------------
  // the screen
  // ---------------------------------------------------------------------------

  datatype ListBody =
    | LoadingMessage
    | ErrorMessage(text: string)
    | EmptyMessage(text: string)
    | Cards(cards: seq<Object>)

  datatype View =
    | DetailScreen(sessionId: Value, isNew: bool)
    | RecordingScreen(client: Object, sessionNumber: nat)
    | ListScreen(body: ListBody)
    | RenderFailed   // `clientName.toLowerCase` threw while filtering, before any screen is chosen

  const NoMatchText: string := "No sessions found matching your search."
  const NoSessionsText: string := "No sessions yet. Start by creating a new session."

  /**
   * What the page renders. The filter runs on every render, so a card whose
   * client name is not a string fails the render; otherwise the viewed
   * session wins over the recording, which wins over the list, and the list
   * shows loading, then the error, then the empty text, then the cards.
   */
  function Screen(h: Home): (s: View)
    ensures s.RenderFailed? <==> !NamesAreText(h.cards)
    ensures NamesAreText(h.cards) && h.viewing.Some? ==>
              s == DetailScreen(h.viewing.value.sessionId, h.viewing.value.isNew)
    ensures NamesAreText(h.cards) && h.viewing.None? && h.recording.Some? ==>
              s == RecordingScreen(h.recording.value.client, h.recording.value.sessionNumber)
    ensures s.ListScreen? <==> NamesAreText(h.cards) && h.viewing.None? && h.recording.None?
    ensures s.ListScreen? && s.body.Cards? ==>
              && !h.loading && (h.error.None? || h.error.value == [])
              && s.body.cards == FilteredSessions(h.cards, h.term) && s.body.cards != []
    ensures s.ListScreen? ==> (s.body.LoadingMessage? <==> h.loading)
    ensures s.ListScreen? && !h.loading ==> (s.body.ErrorMessage? <==> h.error.Some? && h.error.value != [])
    ensures s.ListScreen? && s.body.ErrorMessage? ==> s.body.text == h.error.value
    ensures s.ListScreen? && s.body.EmptyMessage? ==>
              && !h.loading && (h.error.None? || h.error.value == []) && FilteredSessions(h.cards, h.term) == []
              && s.body.text == (if h.term != [] then NoMatchText else NoSessionsText)
    ensures s.ListScreen? && !h.loading && (h.error.None? || h.error.value == []) ==>
              (s.body.Cards? <==> FilteredSessions(h.cards, h.term) != [])
  {
    if !NamesAreText(h.cards) then RenderFailed
    else if h.viewing.Some? then DetailScreen(h.viewing.value.sessionId, h.viewing.value.isNew)
    else if h.recording.Some? then RecordingScreen(h.recording.value.client, h.recording.value.sessionNumber)
    else
      var shown := FilteredSessions(h.cards, h.term);
      if h.loading then ListScreen(LoadingMessage)
      else if h.error.Some? && h.error.value != [] then ListScreen(ErrorMessage(h.error.value))
      else if shown == [] then ListScreen(EmptyMessage(if h.term != [] then NoMatchText else NoSessionsText))
      else ListScreen(Cards(shown))
  }

  /** Every card `loadSessions` builds from a session without a `clientName` field and with a text or falsy `client_name` has a text client name. */
  lemma MappedNameIsText(session: Object, locale: Value -> string)
    requires KeyIssueTexts(Get(session, "keyIssuesData")).Some?
    requires "clientName" !in session
    requires Get(session, "client_name").Str? || !Truthy(Get(session, "client_name"))
    ensures MapSession(session, locale).Some? && Get(MapSession(session, locale).value, "clientName").Str?
  {
    assert "clientName" in MapSession(session, locale).value;
  }

  /** A failed upload keeps the recording screen, so the user stays on it. */
  lemma FailedUploadStaysRecording(h: Home, outcome: UploadOutcome, reload: LoadOutcome, locale: Value -> string)
    requires NamesAreText(h.cards) && h.viewing.None? && h.recording.Some?
    requires !outcome.Uploaded?
    ensures Screen(CompleteRecording(h, outcome, reload, locale).next) == Screen(h)
    ensures Screen(h).RecordingScreen?
  {
  }

  /** A successful upload opens the new session, flagged as new, whatever the reload returned. */
  lemma UploadOpensNewSession(h: Home, result: Object, reload: LoadOutcome, locale: Value -> string)
    requires NamesAreText(LoadSessions(h, reload, locale).cards)
    ensures Screen(CompleteRecording(h, Uploaded(result), reload, locale).next) == DetailScreen(Get(result, "session_id"), true)
  {
  }

  /** Going back from a session shows the list again once nothing is being recorded. */
  lemma BackShowsList(h: Home)
    requires NamesAreText(h.cards) && h.recording.None?
    ensures Screen(h.(viewing := None)).ListScreen?
  {
  }
}
