/**
 * The `StreamChat` handler of grpc_server/servicer.py: forwards the request to
 * the chat generator and turns each generated item into one response record.
 * The transport and the asynchronous delivery are not part of the model.
 */
module Servicer {
  import LlmService

  /** A chat request: prompt, prior turns and model identifier. */
  datatype ChatRequest = ChatRequest(prompt: string, history: seq<string>, model: string)

  /** A streamed response record. */
  datatype ChatResponse = ChatResponse(token: string, finalText: string)

  /**
   * One item to one record: a non-empty final text makes a terminal record and
   * drops the item's token; otherwise the token is sent with an empty final text.
   */
  function ToResponse(item: LlmService.Item): (r: ChatResponse)
    ensures r.finalText == item.1
    ensures item.1 != "" ==> r.token == ""
    ensures item.1 == "" ==> r.token == item.0
  {
    if item.1 != "" then ChatResponse("", item.1) else ChatResponse(item.0, "")
  }

  /** One response per item, in order. */
  function Respond(items: seq<LlmService.Item>): (r: seq<ChatResponse>)
    ensures |r| == |items|
    ensures forall i :: 0 <= i < |r| ==> r[i] == ToResponse(items[i])
  {
    if |items| == 0 then [] else [ToResponse(items[0])] + Respond(items[1..])
  }

  /** The request's fields, forwarded unchanged to the generator. */
  function StreamChat(req: ChatRequest): (r: seq<ChatResponse>)
    ensures |r| == |req.prompt| + 7
    ensures r[|r| - 1] == ChatResponse("", "Echo: " + req.prompt)
  {
    Respond(LlmService.StreamChat(req.prompt, req.history, req.model))
  }

  /** A generator stream whose only non-empty final text is on its last item. */
  predicate TerminatedStream(items: seq<LlmService.Item>) {
    |items| >= 1 && forall i :: 0 <= i < |items| ==> (items[i].1 != "" <==> i == |items| - 1)
  }

  /** A response stream with exactly one terminal record, the last one. */
  predicate OneTerminalLast(rs: seq<ChatResponse>) {
    |rs| >= 1 && forall i :: 0 <= i < |rs| ==> (rs[i].finalText != "" <==> i == |rs| - 1)
  }

  /** The handler keeps a terminated stream terminated: one terminal record, last, with an empty token. */
  lemma RespondKeepsTermination(items: seq<LlmService.Item>)
    requires TerminatedStream(items)
    ensures OneTerminalLast(Respond(items))
    ensures Respond(items)[|items| - 1] == ChatResponse("", items[|items| - 1].1)
  {
    var rs := Respond(items);
    forall i | 0 <= i < |rs|
      ensures rs[i].finalText != "" <==> i == |rs| - 1
    {
      assert rs[i].finalText == items[i].1;
    }
  }

  /**
   * Composed with the stub: every record but the last carries one character of
   * "Echo: " + prompt and no final text; the last carries the whole of it.
   */
  lemma EchoStreamShape(req: ChatRequest)
    ensures var rs := StreamChat(req); var resp := "Echo: " + req.prompt;
            && |rs| == |resp| + 1
            && OneTerminalLast(rs)
            && rs[|rs| - 1] == ChatResponse("", resp)
            && forall i :: 0 <= i < |rs| - 1 ==> rs[i] == ChatResponse([resp[i]], "")
  {
    var items := LlmService.StreamChat(req.prompt, req.history, req.model);
    RespondKeepsTermination(items);
  }

  /** The tokens of the non-terminal records spell the terminal record's final text. */
  lemma EchoStreamSpellsFinal(req: ChatRequest)
    ensures var rs := StreamChat(req);
            Concat(rs[..|rs| - 1]) == rs[|rs| - 1].finalText
  {
    var items := LlmService.StreamChat(req.prompt, req.history, req.model);
    var rs := StreamChat(req);
    TokensAgree(items[..|items| - 1]);
    assert Respond(items[..|items| - 1]) == rs[..|rs| - 1];
    LlmService.StreamSpellsFinalText(req.prompt, req.history, req.model);
  }

  /** The concatenation of the records' tokens. */
  function Concat(rs: seq<ChatResponse>): string {
    if |rs| == 0 then "" else rs[0].token + Concat(rs[1..])
  }

  /** Records made from items without final text carry exactly the items' tokens. */
  lemma {:induction false} TokensAgree(items: seq<LlmService.Item>)
    requires forall i :: 0 <= i < |items| ==> items[i].1 == ""
    ensures Concat(Respond(items)) == LlmService.Tokens(items)
  {
    if |items| > 0 {
      assert Respond(items)[1..] == Respond(items[1..]);
      TokensAgree(items[1..]);
    }
  }
}
