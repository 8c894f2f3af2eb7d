/**
 * The data handling of the session view (SessionDetail.jsx) apart from the
 * player: which field of the transcript response becomes the transcript, the
 * removal of the `=== TRANSCRIPT ===` metadata header, the blank-input guard
 * when adding an issue, and the requests the save button issues.
 */
module SessionView {
  import opened Wrappers
  import opened Text
  import opened Js

  // ---------------------------------------------------------------------------
  // transcript text selection
  // ---------------------------------------------------------------------------

  /** `vals[0] || vals[1] || … || last`. */
  function Coalesce(vals: seq<Value>, last: Value): (r: Value)
    ensures (forall i :: 0 <= i < |vals| ==> !Truthy(vals[i])) ==> r == last
    ensures forall i :: 0 <= i < |vals| && Truthy(vals[i]) && (forall j :: 0 <= j < i ==> !Truthy(vals[j])) ==> r == vals[i]
  {
    if |vals| == 0 then last else Or(vals[0], Coalesce(vals[1..], last))
  }

  /**
   * The string a value yields as `transcriptText`: the next statement calls
   * `transcriptText.substring(…)`, which throws for anything but a string,
   * and the handler's catch then leaves the transcript as it was (`None`).
   */
  function AsText(v: Value): Option<string> {
    if v.Str? then Some(v.s) else None
  }

  /** `data.transcript_text || data.file_content || data.content || ''`, then checked to be a string. */
  function SelectTranscript(data: Object): (r: Option<string>)
    ensures Truthy(Get(data, "transcript_text")) ==> r == AsText(Get(data, "transcript_text"))
    ensures !Truthy(Get(data, "transcript_text")) && Truthy(Get(data, "file_content")) ==>
              r == AsText(Get(data, "file_content"))
    ensures !Truthy(Get(data, "transcript_text")) && !Truthy(Get(data, "file_content")) && Truthy(Get(data, "content")) ==>
              r == AsText(Get(data, "content"))
    ensures !Truthy(Get(data, "transcript_text")) && !Truthy(Get(data, "file_content")) && !Truthy(Get(data, "content")) ==>
              r == Some("")
  {
    var vals := [Get(data, "transcript_text"), Get(data, "file_content"), Get(data, "content")];
    assert vals[0] == Get(data, "transcript_text") && vals[1] == Get(data, "file_content") && vals[2] == Get(data, "content");
    AsText(Coalesce(vals, Str("")))
  }

  // ---------------------------------------------------------------------------
  // header removal
  // ---------------------------------------------------------------------------

  const Marker: string := "=== TRANSCRIPT ==="

  /** No occurrence of `p` in `s` starts in `[a, b)`. */
  predicate NoneStartsIn(s: string, p: string, a: int, b: int) {
    forall k :: a <= k < b ==> !OccursAt(s, p, k)
  }

  /** A slice of `s` in which no occurrence of `p` starts contains no `p`. */
  lemma {:induction false} NoOccurrenceInSlice(s: string, a: nat, b: nat, p: string)
    requires a <= b <= |s| && |p| > 0
    requires NoneStartsIn(s, p, a, b)
    ensures !Contains(s[a..b], p)
  {
    if Contains(s[a..b], p) {
      var k := IndexOf(s[a..b], p).value;
      OccursInSlice(s, a, b, p, k);
      assert false;
    }
  }

  /**
   * `text.split(m)[1]` when `text` contains `m`: the text from the end of the
   * first occurrence up to the next occurrence (searched from there on), or
   * to the end when there is none.
   */
  function SecondPart(text: string, m: string): (seg: string)
    requires |m| > 0 && Contains(text, m)
    ensures var start := IndexOf(text, m).value + |m|;
            && start + |seg| <= |text|
            && seg == text[start..start + |seg|]
            && NoneStartsIn(text, m, start, start + |seg|)
            && (start + |seg| == |text| || OccursAt(text, m, start + |seg|))
    ensures !Contains(seg, m)
  {
    var start := IndexOf(text, m).value + |m|;
    match IndexFrom(text, m, start)
    case None =>
      NoOccurrenceInSlice(text, start, |text|, m);
      text[start..]
    case Some(j) =>
      NoOccurrenceInSlice(text, start, j, m);
      text[start..j]
  }

  /** The trimmed form of a string without `p` contains no `p` either. */
  lemma TrimKeepsAbsence(seg: string, p: string)
    requires |p| > 0 && !Contains(seg, p)
    ensures !Contains(Trim(seg), p)
  {
    var r := Trim(seg);
    var a := LeadingSpaces(seg);
    if Contains(r, p) {
      var k := IndexOf(r, p).value;
      OccursInSlice(seg, a, a + |r|, p, k);
      assert false;
    }
  }

  /**
   * The header strip in `fetchTranscript`: when the marker occurs, the
   * trimmed second part of the split replaces the text, unless that part is
   * empty, in which case the text stays as it is, marker included.
   */
  function StripHeader(text: string): (r: string)
    ensures !Contains(text, Marker) ==> r == text
    ensures Contains(text, Marker) && SecondPart(text, Marker) != [] ==>
              r == Trim(SecondPart(text, Marker)) && IsTrimmed(r) && !Contains(r, Marker)
    ensures Contains(text, Marker) && SecondPart(text, Marker) == [] ==> r == text && Contains(r, Marker)
  {
    if Contains(text, Marker) then
      var seg := SecondPart(text, Marker);
      if seg != [] then
        TrimKeepsAbsence(seg, Marker);
        Trim(seg)
      else text
    else text
  }

  /** When no `p` starts in `u` nor straddles its end, the first `p` of `u + p + v` is the one after `u`. */
  lemma {:induction false} FirstOccurrenceAfter(u: string, p: string, v: string)
    requires |p| > 0 && !Contains(u + p[..|p| - 1], p)
    ensures IndexOf(u + p + v, p) == Some(|u|)
  {
    var text := u + p + v;
    var w := u + p[..|p| - 1];
    assert text[..|w|] == w;
    forall k | 0 <= k < |u| ensures !OccursAt(text, p, k) {
      if OccursAt(text, p, k) {
        assert text[k..k + |p|] == w[k..k + |p|];
        assert OccursAt(w, p, k);
        assert false;
      }
    }
    OccursAfterPrefix(u, p, v);
  }

  /**
   * No `p` starts inside `body` of `x + body + post` when none starts in
   * `body` followed by a partial `p`, and `post` is empty or begins with `p`.
   */
  lemma {:induction false} NoneStartsInBody(x: string, body: string, post: string, p: string)
    requires |p| > 0 && !Contains(body + p[..|p| - 1], p)
    requires post == [] || (|post| >= |p| && post[..|p|] == p)
    ensures NoneStartsIn(x + body + post, p, |x|, |x| + |body|)
  {
    var text := x + body + post;
    var start := |x|;
    var w := body + p[..|p| - 1];
    forall k | start <= k < start + |body| ensures !OccursAt(text, p, k) {
      if OccursAt(text, p, k) {
        forall i | k <= i < k + |p| ensures text[i] == w[i - start] {
          if i >= start + |body| {
            assert text[i] == post[i - start - |body|];
          }
        }
        assert text[k..k + |p|] == w[k - start..k - start + |p|];
        assert OccursAt(w, p, k - start);
        assert false;
      }
    }
  }

  /**
   * The second part of the split of `pre + p + body + post` is `body`, when
   * no `p` starts in `pre` or `body` nor straddles their ends, and `post` is
   * empty or begins with `p`.
   */
  lemma {:induction false} SecondPartShape(p: string, pre: string, body: string, post: string)
    requires |p| > 0
    requires !Contains(pre + p[..|p| - 1], p)
    requires !Contains(body + p[..|p| - 1], p)
    requires post == [] || (|post| >= |p| && post[..|p|] == p)
    ensures Contains(pre + p + body + post, p)
    ensures SecondPart(pre + p + body + post, p) == body
  {
    var text := pre + p + body + post;
    var start := |pre| + |p|;
    var f := start + |body|;
    assert IndexOf(text, p) == Some(|pre|) by {
      FirstOccurrenceAfter(pre, p, body + post);
      assert pre + p + (body + post) == text;
    }
    assert NoneStartsIn(text, p, start, f) by {
      NoneStartsInBody(pre + p, body, post, p);
      assert (pre + p) + body + post == text;
    }
    assert text[start..f] == body;
    assert f == |text| || OccursAt(text, p, f) by {
      if post != [] {
        assert text[f..f + |p|] == post[..|p|];
      }
    }
    SecondPartAt(text, p, |pre|, f);
  }

  /**
   * The second part of a split is the text from the end of the first `p` up
   * to any place that is the end of the text or the start of a `p` with no
   * `p` starting before it.
   */
  lemma SecondPartAt(text: string, p: string, first: nat, f: nat)
    requires |p| > 0 && IndexOf(text, p) == Some(first)
    requires first + |p| <= f <= |text| && NoneStartsIn(text, p, first + |p|, f)
    requires f == |text| || OccursAt(text, p, f)
    ensures Contains(text, p) && SecondPart(text, p) == text[first + |p|..f]
  {
    var start := first + |p|;
    var seg := SecondPart(text, p);
    BoundaryUnique(text, p, start, start + |seg|, f);
  }

  /**
   * Two places past `start` that are each the end of the text or the start
   * of a `p`, with no `p` starting between `start` and them, are the same.
   */
  lemma BoundaryUnique(text: string, p: string, start: nat, e: nat, f: nat)
    requires start <= e <= |text| && start <= f <= |text|
    requires NoneStartsIn(text, p, start, e) && NoneStartsIn(text, p, start, f)
    requires e == |text| || OccursAt(text, p, e)
    requires f == |text| || OccursAt(text, p, f)
    ensures e == f
  {
  }

  /**
   * When the header is followed by text, the shown transcript is exactly
   * what stands between the first marker and the next one (or the end),
   * without surrounding whitespace.
   */
  lemma StripHeaderShape(pre: string, body: string, post: string)
    requires !Contains(pre + Marker[..|Marker| - 1], Marker)
    requires !Contains(body + Marker[..|Marker| - 1], Marker)
    requires !AllSpace(body)
    requires post == [] || (|post| >= |Marker| && post[..|Marker|] == Marker)
    ensures StripHeader(pre + Marker + body + post) == Trim(body)
  {
    SecondPartShape(Marker, pre, body, post);
    TrimEmptyIff(body);
  }

  /** Stripping the header twice is stripping it once. */
  lemma StripHeaderIdempotent(text: string)
    ensures StripHeader(StripHeader(text)) == StripHeader(text)
  {
  }

  /** What `fetchTranscript` leaves in the transcript state. */
  datatype TranscriptResponse = TranscriptOk(data: Object) | TranscriptNotOk | TranscriptUnreachable

  function FetchTranscript(current: string, resp: TranscriptResponse): (r: string)
    ensures resp.TranscriptOk? && SelectTranscript(resp.data).Some? ==>
              r == StripHeader(SelectTranscript(resp.data).value)
    ensures !resp.TranscriptOk? || SelectTranscript(resp.data).None? ==> r == current
  {
    match resp
    case TranscriptOk(data) =>
      (match SelectTranscript(data)
       case Some(t) => StripHeader(t)
       case None => current)
    case _ => current
  }

  /** A plain transcript string without a header is shown exactly as received. */
  lemma PlainTranscriptShownAsIs(current: string, data: Object, t: string)
    requires Get(data, "transcript_text") == Str(t) && t != []
    requires !Contains(t, Marker)
    ensures FetchTranscript(current, TranscriptOk(data)) == t
  {
  }

  // ---------------------------------------------------------------------------
  // adding an issue
  // ---------------------------------------------------------------------------

  /** How the POST of a new issue ended. */
  datatype PostOutcome = PostOk | PostNotOk | PostThrew

  datatype IssueRequest = PostIssue(issueText: string) | RefetchIssues

  /** The requests `handleAddIssue` makes and the input field afterwards. */
  datatype AddIssueResult = AddIssueResult(requests: seq<IssueRequest>, input: string)

  /**
   * `handleAddIssue`: a blank input sends nothing; otherwise the trimmed text
   * is posted, and only a successful post clears the field and re-fetches.
   */
  function AddIssue(newIssue: string, outcome: PostOutcome): (r: AddIssueResult)
    ensures r.requests == [] <==> AllSpace(newIssue)
    ensures r.requests != [] ==>
              r.requests[0] == PostIssue(Trim(newIssue)) && IsTrimmed(Trim(newIssue)) && Trim(newIssue) != []
    ensures |r.requests| <= 2 && (|r.requests| == 2 <==> !AllSpace(newIssue) && outcome.PostOk?)
    ensures r.input == (if !AllSpace(newIssue) && outcome.PostOk? then "" else newIssue)
  {
    TrimEmptyIff(newIssue);
    var text := Trim(newIssue);
    if text == [] then AddIssueResult([], newIssue)
    else if outcome.PostOk? then AddIssueResult([PostIssue(text), RefetchIssues], "")
    else AddIssueResult([PostIssue(text)], newIssue)
  }

  /** The posted text is the input without surrounding whitespace: re-trimming changes nothing. */
  lemma PostedIssueIsTrimmed(newIssue: string, outcome: PostOutcome)
    requires AddIssue(newIssue, outcome).requests != []
    ensures var t := AddIssue(newIssue, outcome).requests[0].issueText;
            Trim(t) == t && |t| <= |newIssue|
  {
    TrimIdempotent(newIssue);
  }

  // ---------------------------------------------------------------------------
  // saving
  // ---------------------------------------------------------------------------

  /**
   * The parsed body of the notes GET in `handleSaveChanges`. JSON cannot
   * hold `undefined`; `NotesOther` is any number, boolean or object, for which
   * `.length` is `undefined`. An array's elements are objects.
   */
  datatype NotesPayload =
    | NotesNull
    | NotesArray(notes: seq<Object>)
    | NotesString(text: string)
    | NotesOther
    | NotesUnparseable   // `notesResponse.json()` rejected

  datatype SaveRequest =
    | PutTranscript(content: string)
    | GetNotes
    | PutNote(noteId: string, content: string)
    | PostNote(content: string)

  predicate IsNoteWrite(q: SaveRequest) {
    q.PutNote? || q.PostNote?
  }

  /**
   * The requests made, whether the toast or the failure alert is shown, and
   * whether the toast's timer later hides it and calls `onBack`.
   */
  datatype SaveResult = SaveResult(requests: seq<SaveRequest>, toast: bool, alerted: bool, back: bool)

  /** `existingNotes && existingNotes.length > 0`. */
  predicate HasExistingNote(p: NotesPayload) {
    (p.NotesArray? && |p.notes| > 0) || (p.NotesString? && |p.text| > 0)
  }

  /** `existingNotes[0].note_id` rendered into the URL; a character of a string has no `note_id`. */
  function FirstNoteId(p: NotesPayload): string
    requires HasExistingNote(p)
  {
    if p.NotesArray? then ToText(Get(p.notes[0], "note_id")) else ToText(Undefined)
  }

  /**
   * `handleSaveChanges`: PUT the transcript, GET the notes, then write the
   * notes with PUT to the first note or POST a new one. A request that
   * rejects (network failure) or an unparseable notes body ends the handler
   * in its catch: the alert, no toast and no further request. After the
   * toast, a 1.5 s timer hides it and returns to the list.
   */
  function SaveChanges(transcript: string, notes: string, putFails: bool, payload: NotesPayload, writeFails: bool): (r: SaveResult)
    ensures |r.requests| >= 1 && r.requests[0] == PutTranscript(transcript)
    ensures r.toast <==> !r.alerted
    ensures r.toast <==> !putFails && !payload.NotesUnparseable? && !writeFails
    ensures r.back <==> r.toast
    ensures !putFails ==> |r.requests| >= 2 && r.requests[1] == GetNotes
    ensures !putFails && !payload.NotesUnparseable? ==>
              |r.requests| == 3 && IsNoteWrite(r.requests[2]) && r.requests[2].content == notes
    ensures !putFails && !payload.NotesUnparseable? ==>
              (r.requests[2].PutNote? <==> HasExistingNote(payload))
    ensures !putFails && HasExistingNote(payload) ==> r.requests[2] == PutNote(FirstNoteId(payload), notes)
    ensures putFails || payload.NotesUnparseable? ==> forall q :: q in r.requests ==> !IsNoteWrite(q)
  {
    if putFails then SaveResult([PutTranscript(transcript)], false, true, false)
    else if payload.NotesUnparseable? then SaveResult([PutTranscript(transcript), GetNotes], false, true, false)
    else
      var write := if HasExistingNote(payload) then PutNote(FirstNoteId(payload), notes) else PostNote(notes);
      SaveResult([PutTranscript(transcript), GetNotes, write], !writeFails, writeFails, !writeFails)
  }

  /** The number of note writes among some requests. */
  function NoteWrites(qs: seq<SaveRequest>): nat {
    if qs == [] then 0 else (if IsNoteWrite(qs[0]) then 1 else 0) + NoteWrites(qs[1..])
  }

  /** Saving never writes the notes twice, and writes them exactly once when the GET was readable. */
  lemma {:induction false} AtMostOneNoteWrite(transcript: string, notes: string, putFails: bool, payload: NotesPayload, writeFails: bool)
    ensures var r := SaveChanges(transcript, notes, putFails, payload, writeFails);
            && NoteWrites(r.requests) <= 1
            && (NoteWrites(r.requests) == 1 <==> !putFails && !payload.NotesUnparseable?)
  {
    var r := SaveChanges(transcript, notes, putFails, payload, writeFails);
    var qs := r.requests;
    if |qs| == 3 {
      assert qs[1..][1..] == qs[2..];
      assert qs[2..][1..] == [];
      assert NoteWrites(qs[2..]) == 1;
      assert NoteWrites(qs[1..]) == NoteWrites(qs[1..][1..]);
    } else if |qs| == 2 {
      assert qs[1..][1..] == [];
      assert NoteWrites(qs[1..]) == 0;
    } else {
      assert qs[1..] == [];
    }
  }
}
