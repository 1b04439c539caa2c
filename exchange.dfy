/**
 * The HTTP exchange between the client and the backend: the body the
 * client posts as the server reads it, the server's answer as the client
 * parses it, and what the user sees for a whole round trip.
 */
module Exchange {
  import opened Wrappers
  import opened PyString
  import Server
  import Client

  /** The posted body `{action, text}` as the server reads it: it has no
      `model` field, so the default model applies. */
  function ServerRequest(request: Client.Request): (body: Server.AIRequest)
    ensures body.action == request.action && body.text == request.text
    ensures body.model == Some(Server.DefaultModel)
  {
    Server.AIRequest(request.action, request.text, Some(Server.DefaultModel))
  }

  /** The server's answer as `res.json()` and `data.result` see it: the
      success body `{"result": r}` carries r; an error body `{"detail": ...}`
      has no `result`, and `fetch` does not throw on an error status. */
  function ClientOutcome(response: Server.Response): (outcome: Client.Outcome)
    ensures outcome.Replied?
    ensures outcome.result.Some? <==> response.Ok?
    ensures response.Ok? ==> outcome.result.value == response.result
  {
    match response
    case Ok(result) => Client.Replied(Some(result))
    case HttpError(_, _) => Client.Replied(None)
  }

  /** The client's effects when the request it sends is answered by the
      backend with the language model `generate`. */
  function RoundTrip(action: string, text: string, generate: (Option<string>, string) -> Server.ModelReply): (events: seq<Client.Event>)
    ensures text == "" ==> events == [Client.Notice(Client.SelectTextNotice)]
    ensures text != "" ==> |events| == 4 && events[1] == Client.Posted(Client.Request(action, text))
    ensures text != "" && AllSpace(text) ==> events[2] == Client.Notice(Client.NoResultNotice)
  {
    var response := Server.AiEdit(ServerRequest(Client.Request(action, text)), generate);
    Client.CallEffects(action, Some(text), ClientOutcome(response))
  }

  /** Over a whole round trip the editor receives the model's output,
      stripped, exactly when the selection has a non-whitespace character
      and the model answers with one; otherwise nothing. */
  lemma RoundTripInsertion(action: string, text: string, generate: (Option<string>, string) -> Server.ModelReply)
    requires text != ""
    ensures var reply := generate(Some(Server.DefaultModel), Server.BuildPrompt(action, Strip(text)));
            (Client.Insertions(RoundTrip(action, text, generate))
             == if !AllSpace(text) && reply.Generated? && !AllSpace(reply.text) then [Strip(reply.text)] else [])
  {
    var request := ServerRequest(Client.Request(action, text));
    var response := Server.AiEdit(request, generate);
    Client.InsertsOnlyTruthyResult(action, Some(text), ClientOutcome(response));
    if !AllSpace(text) {
      Server.AiEditAnswers(request, generate);
      var reply := generate(Some(Server.DefaultModel), Server.BuildPrompt(action, Strip(text)));
      if reply.Generated? {
        StripEmptyIff(reply.text);
      }
    }
  }

  /** A selection made only of whitespace passes the client's check and is
      sent, but the backend refuses it with status 400, so the user is told
      "No result from AI" and nothing is inserted. */
  lemma BlankSelectionRefusedByServer(action: string, text: string,
                                      generate: (Option<string>, string) -> Server.ModelReply)
    requires text != "" && AllSpace(text)
    ensures Server.AiEdit(ServerRequest(Client.Request(action, text)), generate)
         == Server.HttpError(400, Server.EmptyTextDetail)
    ensures Client.Requests(RoundTrip(action, text, generate)) == [Client.Request(action, text)]
    ensures Client.Notices(RoundTrip(action, text, generate)) == [Client.NoResultNotice]
    ensures Client.Insertions(RoundTrip(action, text, generate)) == []
  {
    var outcome := ClientOutcome(Server.AiEdit(ServerRequest(Client.Request(action, text)), generate));
    Client.OneRequestWithSelection(action, Some(text), outcome);
    Client.NoticesAfterRequest(action, Some(text), outcome);
    Client.InsertsOnlyTruthyResult(action, Some(text), outcome);
  }

  /** Every error status from the backend (400 or 500) reaches the user as
      "No result from AI", never as "Error calling backend". */
  lemma ServerErrorsShowAsNoResult(action: string, text: string, response: Server.Response)
    requires text != "" && response.HttpError?
    ensures Client.Notices(Client.CallEffects(action, Some(text), ClientOutcome(response))) == [Client.NoResultNotice]
    ensures Client.Insertions(Client.CallEffects(action, Some(text), ClientOutcome(response))) == []
  {
    Client.NoticesAfterRequest(action, Some(text), ClientOutcome(response));
    Client.InsertsOnlyTruthyResult(action, Some(text), ClientOutcome(response));
  }
}
