/**
 * The React client: reading the editor's selection and the `callAI`
 * handler that posts it to the backend, inserts the answer and keeps the
 * `loading` flag that disables the action buttons.
 *
 * The editor, the alert channel and the network are outside the model.
 * What the handler does to them is recorded, in order, as a log of events;
 * the network exchange enters as an input value.
 */
module Client {
  import opened Wrappers

  /** The editor selection's `from` and `to` positions. */
  datatype Selection = Selection(from: nat, to: nat)

  /** Joins the text of adjacent blocks in a multi-block selection. */
  const BlockSeparator: string := " "

  const SelectTextNotice: string := "Please select text first."
  const NoResultNotice: string := "No result from AI"
  const BackendErrorNotice: string := "Error calling backend"

  /** `getSelectedText`: no text for an empty selection, otherwise exactly
      what the document's `textBetween(from, to, " ")` gives, which is a
      parameter here. */
  function GetSelectedText(selection: Selection, textBetween: (nat, nat, string) -> string): (text: Option<string>)
    ensures text.None? <==> selection.from == selection.to
    ensures text.Some? ==> text.value == textBetween(selection.from, selection.to, BlockSeparator)
  {
    if selection.from == selection.to then None
    else Some(textBetween(selection.from, selection.to, BlockSeparator))
  }

  /** JavaScript truthiness of a value that is null/undefined or a string. */
  predicate Truthy(value: Option<string>)
    ensures Truthy(value) <==> value.Some? && |value.value| > 0
  {
    value.Some? && value.value != ""
  }

  /** The JSON body posted to the backend. */
  datatype Request = Request(action: string, text: string)

  /** How the exchange ended: a parsed JSON body whose `result` field is
      absent or null (None) or a string, whatever the HTTP status was; or an
      exception from `fetch`, from `res.json()` or from reading `result` of
      a null body. */
  datatype Outcome = Replied(result: Option<string>) | Thrown

  /** One observable effect of the handler. */
  datatype Event =
    | Notice(message: string)      // alert(message)
    | LoadingSet(on: bool)         // setLoading(on)
    | Posted(request: Request)     // the POST to the backend
    | Inserted(content: string)    // insertContent(content) into the editor

  /** Everything one call of `callAI(action)` does, in order, given the
      selected text and the outcome of the exchange. */
  function CallEffects(action: string, text: Option<string>, outcome: Outcome): (events: seq<Event>)
    ensures !Truthy(text) ==> events == [Notice(SelectTextNotice)]
    ensures Truthy(text) ==>
      && |events| == 4
      && events[0] == LoadingSet(true)
      && events[1] == Posted(Request(action, text.value))
      && (events[2].Inserted? || events[2].Notice?)
      && events[3] == LoadingSet(false)
  {
    if !Truthy(text) then
      [Notice(SelectTextNotice)]
    else
      [LoadingSet(true), Posted(Request(action, text.value))] + Reaction(outcome) + [LoadingSet(false)]
  }

  /** The `try`/`catch` branches after the request was sent. */
  function Reaction(outcome: Outcome): (events: seq<Event>)
    ensures |events| == 1
    ensures events[0].Inserted? <==> outcome.Replied? && Truthy(outcome.result)
    ensures events[0].Notice? <==> !(outcome.Replied? && Truthy(outcome.result))
  {
    match outcome
    case Replied(result) =>
      if Truthy(result) then [Inserted(result.value)] else [Notice(NoResultNotice)]
    case Thrown =>
      [Notice(BackendErrorNotice)]
  }

  /** The texts inserted into the editor, in order. */
  function Insertions(events: seq<Event>): seq<string> {
    if events == [] then []
    else (if events[0].Inserted? then [events[0].content] else []) + Insertions(events[1..])
  }

  /** The alerts shown, in order. */
  function Notices(events: seq<Event>): seq<string> {
    if events == [] then []
    else (if events[0].Notice? then [events[0].message] else []) + Notices(events[1..])
  }

  /** The requests sent, in order. */
  function Requests(events: seq<Event>): seq<Request> {
    if events == [] then []
    else (if events[0].Posted? then [events[0].request] else []) + Requests(events[1..])
  }

  /** The `loading` flag after the events, starting from `initial`. */
  function LoadingAfter(initial: bool, events: seq<Event>): bool
    decreases |events|
  {
    if events == [] then initial
    else LoadingAfter(if events[0].LoadingSet? then events[0].on else initial, events[1..])
  }

  /** The `loading` flag at the moment each request was sent. */
  function LoadingAtRequests(initial: bool, events: seq<Event>): seq<bool>
    decreases |events|
  {
    if events == [] then []
    else
      var now := if events[0].LoadingSet? then events[0].on else initial;
      (if events[0].Posted? then [now] else []) + LoadingAtRequests(now, events[1..])
  }

  lemma {:induction false} InsertionsAppend(a: seq<Event>, b: seq<Event>)
    ensures Insertions(a + b) == Insertions(a) + Insertions(b)
  {
    if a != [] {
      assert (a + b)[1..] == a[1..] + b;
      InsertionsAppend(a[1..], b);
    } else {
      assert a + b == b;
    }
  }

  lemma {:induction false} NoticesAppend(a: seq<Event>, b: seq<Event>)
    ensures Notices(a + b) == Notices(a) + Notices(b)
  {
    if a != [] {
      assert (a + b)[1..] == a[1..] + b;
      NoticesAppend(a[1..], b);
    } else {
      assert a + b == b;
    }
  }

  lemma {:induction false} RequestsAppend(a: seq<Event>, b: seq<Event>)
    ensures Requests(a + b) == Requests(a) + Requests(b)
  {
    if a != [] {
      assert (a + b)[1..] == a[1..] + b;
      RequestsAppend(a[1..], b);
    } else {
      assert a + b == b;
    }
  }

  lemma {:induction false} LoadingAfterAppend(initial: bool, a: seq<Event>, b: seq<Event>)
    ensures LoadingAfter(initial, a + b) == LoadingAfter(LoadingAfter(initial, a), b)
    decreases |a|
  {
    if a != [] {
      assert (a + b)[1..] == a[1..] + b;
      LoadingAfterAppend(if a[0].LoadingSet? then a[0].on else initial, a[1..], b);
    } else {
      assert a + b == b;
    }
  }

  lemma {:induction false} LoadingAtRequestsAppend(initial: bool, a: seq<Event>, b: seq<Event>)
    ensures LoadingAtRequests(initial, a + b)
         == LoadingAtRequests(initial, a) + LoadingAtRequests(LoadingAfter(initial, a), b)
    decreases |a|
  {
    if a != [] {
      assert (a + b)[1..] == a[1..] + b;
      LoadingAtRequestsAppend(if a[0].LoadingSet? then a[0].on else initial, a[1..], b);
    } else {
      assert a + b == b;
    }
  }

  /** Without a selected text (none, or an empty one) the handler only
      alerts: no request, no insertion, `loading` untouched. */
  lemma NothingSentWithoutText(action: string, text: Option<string>, outcome: Outcome, initial: bool)
    requires !Truthy(text)
    ensures var events := CallEffects(action, text, outcome);
            && Requests(events) == []
            && Insertions(events) == []
            && Notices(events) == [SelectTextNotice]
            && LoadingAfter(initial, events) == initial
  {
  }

  /** With a selected text, exactly one request is sent and it carries the
      invoked action and the selected text unchanged. */
  lemma OneRequestWithSelection(action: string, text: Option<string>, outcome: Outcome)
    requires Truthy(text)
    ensures Requests(CallEffects(action, text, outcome)) == [Request(action, text.value)]
  {
    var head := [LoadingSet(true), Posted(Request(action, text.value))];
    RequestsAppend(head + Reaction(outcome), [LoadingSet(false)]);
    RequestsAppend(head, Reaction(outcome));
  }

  /** The editor receives one insertion, equal to the returned `result`,
      exactly when a text was selected and the answer has a non-empty
      `result`; otherwise it receives nothing. */
  lemma InsertsOnlyTruthyResult(action: string, text: Option<string>, outcome: Outcome)
    ensures Insertions(CallEffects(action, text, outcome))
         == if Truthy(text) && outcome.Replied? && Truthy(outcome.result) then [outcome.result.value] else []
  {
    if Truthy(text) {
      var head := [LoadingSet(true), Posted(Request(action, text.value))];
      InsertionsAppend(head + Reaction(outcome), [LoadingSet(false)]);
      InsertionsAppend(head, Reaction(outcome));
    }
  }

  /** After a request the user is alerted "No result from AI" when the
      answer lacks a non-empty `result`, "Error calling backend" when the
      exchange threw, and not at all on success. */
  lemma NoticesAfterRequest(action: string, text: Option<string>, outcome: Outcome)
    requires Truthy(text)
    ensures Notices(CallEffects(action, text, outcome))
         == match outcome
            case Replied(result) => if Truthy(result) then [] else [NoResultNotice]
            case Thrown => [BackendErrorNotice]
  {
    var head := [LoadingSet(true), Posted(Request(action, text.value))];
    NoticesAppend(head + Reaction(outcome), [LoadingSet(false)]);
    NoticesAppend(head, Reaction(outcome));
  }

  /** Whatever the outcome, `loading` is true while the request is out and
      false once the handler is done, from any starting value. */
  lemma LoadingBracketsRequest(action: string, text: Option<string>, outcome: Outcome, initial: bool)
    requires Truthy(text)
    ensures LoadingAtRequests(initial, CallEffects(action, text, outcome)) == [true]
    ensures !LoadingAfter(initial, CallEffects(action, text, outcome))
  {
    var head := [LoadingSet(true), Posted(Request(action, text.value))];
    LoadingAtRequestsAppend(initial, head + Reaction(outcome), [LoadingSet(false)]);
    LoadingAtRequestsAppend(initial, head, Reaction(outcome));
    var post := [Posted(Request(action, text.value))];
    assert head[1..] == post && post[1..] == [];
    assert LoadingAtRequests(true, post) == [true];
    assert LoadingAtRequests(initial, head) == [true];
    assert LoadingAfter(initial, head);
    LoadingAfterAppend(initial, head + Reaction(outcome), [LoadingSet(false)]);
    assert !LoadingAfter(initial, CallEffects(action, text, outcome));
  }

  /** The `App` component's state: the `loading` flag and the log of what
      its handler has done so far. */
  class App {
    var loading: bool
    /** The effects on the editor, the alert channel and the network. */
    ghost var events: seq<Event>

    /** The flag is what the log says, starting from `useState(false)`. */
    ghost predicate Valid()
      reads this
    {
      loading == LoadingAfter(false, events)
    }

    constructor ()
      ensures Valid() && !loading && events == []
    {
      loading := false;
      events := [];
    }

    /** `setLoading(on)`. The recorded change is the last one in the log, so
        the flag agrees with the log afterwards whatever it was before. */
    method SetLoading(on: bool)
      modifies this
      ensures loading == on && events == old(events) + [LoadingSet(on)]
      ensures Valid()
    {
      loading := on;
      events := events + [LoadingSet(on)];
      LoadingAfterAppend(false, old(events), [LoadingSet(on)]);
    }

    /** `callAI(action)`, with the selection, the document's text slicing and
        the outcome of the exchange as parameters. It does not look at
        `loading`: only the disabled buttons keep calls from overlapping. */
    method CallAI(action: string, selection: Selection, textBetween: (nat, nat, string) -> string,
                  outcome: Outcome)
      requires Valid()
      modifies this
      ensures Valid()
      ensures events == old(events) + CallEffects(action, GetSelectedText(selection, textBetween), outcome)
      ensures loading == LoadingAfter(old(loading), CallEffects(action, GetSelectedText(selection, textBetween), outcome))
      ensures !old(loading) ==> !loading
    {
      var text := GetSelectedText(selection, textBetween);
      ghost var effects := CallEffects(action, text, outcome);
      if !Truthy(text) {
        events := events + [Notice(SelectTextNotice)];
      } else {
        SetLoading(true);
        events := events + [Posted(Request(action, text.value))];
        match outcome {
          case Replied(result) =>
            if Truthy(result) {
              events := events + [Inserted(result.value)];
            } else {
              events := events + [Notice(NoResultNotice)];
            }
          case Thrown =>
            events := events + [Notice(BackendErrorNotice)];
        }
        SetLoading(false);
        LoadingBracketsRequest(action, text, outcome, old(loading));
      }
      assert events == old(events) + effects;
      LoadingAfterAppend(false, old(events), effects);
    }
  }

  /** What a caller can conclude from CallAI's contract alone: a grammar fix
      answered with a corrected sentence inserts that sentence once, and an
      empty selection afterwards only alerts. */
  method FixGrammarExample() {
    var app := new App();
    var doc := (from: nat, to: nat, separator: string) => "teh cat sat";
    app.CallAI("grammar", Selection(1, 12), doc, Replied(Some("The cat sat.")));
    assert GetSelectedText(Selection(1, 12), doc) == Some("teh cat sat");
    assert app.events == CallEffects("grammar", Some("teh cat sat"), Replied(Some("The cat sat.")));
    InsertsOnlyTruthyResult("grammar", Some("teh cat sat"), Replied(Some("The cat sat.")));
    OneRequestWithSelection("grammar", Some("teh cat sat"), Replied(Some("The cat sat.")));
    assert Insertions(app.events) == ["The cat sat."];
    assert Requests(app.events) == [Request("grammar", "teh cat sat")];
    assert !app.loading;

    ghost var before := app.events;
    app.CallAI("rewrite", Selection(5, 5), doc, Thrown);
    assert app.events == before + [Notice(SelectTextNotice)];
    assert !app.loading;
  }
}
