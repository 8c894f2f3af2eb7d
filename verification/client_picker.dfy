/**
 * The client picker of the start-session dialog (StartSessionModal.jsx): the
 * selected client, the new-client flag, the search text and the dropdown,
 * with one pure step per handler, the submit decision and the button's
 * enabled predicate.
 */
module ClientPicker {
  import opened Wrappers
  import opened Text
  import opened Js
  import opened Search

  /** A client as the client list returns it. */
  datatype Client = Client(clientId: Value, name: string)

  datatype Picker = Picker(
    selected: Option<Client>,  // selectedClient (null as None)
    isNew: bool,               // isNewClient
    term: string,              // searchTerm
    dropdown: bool)            // showDropdown

  /** The state after the close effect, which is also the state first rendered. */
  const Reset: Picker := Picker(None, false, "", false)

  datatype Event =
    | Close                     // the `open` prop turns false
    | SelectClient(c: Client)   // a click on a client of the dropdown
    | Input(value: string)      // typing in the search field
    | AddNew                    // the "Add New Client" button
    | Focus                     // focusing the search field

  /** Never both a selected client and the new-client flag. */
  predicate Exclusive(p: Picker) {
    !(p.selected.Some? && p.isNew)
  }

  /**
   * One handler. Every handler other than focus sets one of the selection and
   * the flag to empty, so the result is exclusive whatever the state before.
   */
  function Step(p: Picker, e: Event): (r: Picker)
    ensures e.Focus? ==> r == p.(dropdown := true)
    ensures !e.Focus? ==> Exclusive(r)
    ensures Exclusive(p) ==> Exclusive(r)
    ensures e.Close? ==> r == Reset
    ensures e.SelectClient? ==> r.selected == Some(e.c) && r.term == e.c.name && !r.dropdown && !r.isNew
    ensures e.Input? ==> r.selected.None? && r.term == e.value && r.dropdown && !r.isNew
    ensures e.AddNew? ==> r.isNew && r.selected.None? && !r.dropdown && r.term == p.term
  {
    match e
    case Close => Reset
    case SelectClient(c) => p.(selected := Some(c), term := c.name, dropdown := false, isNew := false)
    case Input(v) => p.(term := v, selected := None, isNew := false, dropdown := true)
    case AddNew => p.(isNew := true, selected := None, dropdown := false)
    case Focus => p.(dropdown := true)
  }

  function Run(p: Picker, evs: seq<Event>): Picker
    decreases |evs|
  {
    if evs == [] then p else Run(Step(p, evs[0]), evs[1..])
  }

  /** The exclusion holds in every state reachable from the reset state. */
  lemma {:induction false} RunKeepsExclusive(p: Picker, evs: seq<Event>)
    requires Exclusive(p)
    ensures Exclusive(Run(p, evs))
    decreases |evs|
  {
    if evs != [] {
      RunKeepsExclusive(Step(p, evs[0]), evs[1..]);
    }
  }

  /** What `handleSubmit` passes to `onStart`. */
  datatype StartRequest = NewClient(name: string) | ExistingClient(client: Client)

  /** `!selectedClient && !(isNewClient && searchTerm.trim())` negated: the submit button is enabled. */
  predicate Enabled(p: Picker) {
    p.selected.Some? || (p.isNew && !AllSpace(p.term))
  }

  /**
   * `handleSubmit`: the new-client branch wins and passes the trimmed search
   * text; otherwise the selected client; otherwise nothing is called. The
   * button is enabled exactly when something is passed.
   */
  function Submit(p: Picker): (r: Option<StartRequest>)
    ensures r.Some? <==> Enabled(p)
    ensures r.Some? && r.value.NewClient? ==> p.isNew && r.value.name == Trim(p.term) && r.value.name != [] && IsTrimmed(r.value.name)
    ensures r.Some? && r.value.ExistingClient? ==> p.selected == Some(r.value.client)
    ensures Exclusive(p) && p.selected.Some? ==> r == Some(ExistingClient(p.selected.value))
  {
    TrimEmptyIff(p.term);
    var name := Trim(p.term);
    if p.isNew && name != [] then Some(NewClient(name))
    else if p.selected.Some? then Some(ExistingClient(p.selected.value))
    else None
  }

  /** Picking a client from the dropdown, after any history, starts a session for exactly that client. */
  lemma SelectThenSubmit(p: Picker, c: Client)
    ensures Submit(Step(p, SelectClient(c))) == Some(ExistingClient(c))
  {
  }

  /** Typing, then asking for a new client, submits the typed name trimmed, or nothing when it is blank. */
  lemma {:induction false} TypeThenAddNew(p: Picker, v: string, evs: seq<Event>)
    requires evs == [Input(v), AddNew]
    ensures var q := Run(p, evs);
            && q.selected.None? && q.isNew && q.term == v
            && Submit(q) == (if AllSpace(v) then None else Some(NewClient(Trim(v))))
  {
    var q1 := Step(p, Input(v));
    assert evs[1..] == [AddNew] && [AddNew][1..] == [];
    assert Run(p, evs) == Run(q1, [AddNew]) == Step(q1, AddNew);
    TrimEmptyIff(v);
  }

  /** After typing, the dialog cannot be submitted until a client is picked or added. */
  lemma TypingDisablesSubmit(p: Picker, v: string)
    ensures !Enabled(Step(p, Input(v))) && Submit(Step(p, Input(v))).None?
  {
  }

  /** `filteredClients`: the clients whose name contains the search text, ignoring case. */
  function FilteredClients(clients: seq<Client>, p: Picker): (r: seq<Client>)
    ensures forall c :: c in r <==> c in clients && Matches(c.name, p.term)
    ensures IsSubsequence(r, clients)
  {
    FilterIsSubsequence(clients, (c: Client) => c.name, p.term);
    FilterByName(clients, (c: Client) => c.name, p.term)
  }

  /** Closing the dialog shows every client again. */
  lemma {:induction false} CloseShowsAll(clients: seq<Client>, p: Picker)
    ensures FilteredClients(clients, Step(p, Close)) == clients
  {
    FilterEmptyTerm(clients, (c: Client) => c.name);
  }
}
