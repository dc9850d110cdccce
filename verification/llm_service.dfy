/**
 * The stub chat generator of services/llm_service.py, as the finite sequence
 * of `(token, final_text)` items it yields. The delays between items and the
 * asynchronous delivery are not part of the model.
 */
module LlmService {

  /** One generator item: a streamed token and the final text ("" until the last item). */
  type Item = (string, string)

  /** The stub's answer to `prompt`. */
  function EchoResponse(prompt: string): (r: string)
    ensures |r| == |prompt| + 6 && r[..6] == "Echo: " && r[6..] == prompt
  {
    "Echo: " + prompt
  }

  /** One single-character token item per character of `s`, in order. */
  function TokenItems(s: string): (r: seq<Item>)
    ensures |r| == |s|
    ensures forall i :: 0 <= i < |s| ==> r[i] == ([s[i]], "")
  {
    if |s| == 0 then [] else [([s[0]], "")] + TokenItems(s[1..])
  }

  /**
   * `stream_chat`: the response's characters as tokens, then the whole
   * response once as the final text. History and model name are unused.
   */
  function StreamChat(prompt: string, history: seq<string>, modelName: string): (r: seq<Item>)
    ensures |r| == |EchoResponse(prompt)| + 1
    ensures forall i :: 0 <= i < |r| - 1 ==> r[i] == ([EchoResponse(prompt)[i]], "")
    ensures r[|r| - 1] == ("", EchoResponse(prompt))
    ensures forall i :: 0 <= i < |r| ==> (r[i].1 != "" <==> i == |r| - 1)
  {
    TokenItems(EchoResponse(prompt)) + [("", EchoResponse(prompt))]
  }

  /** The concatenation of the items' tokens. */
  function Tokens(items: seq<Item>): string {
    if |items| == 0 then "" else items[0].0 + Tokens(items[1..])
  }

  /** Concatenating the tokens of a string's token items spells the string. */
  lemma {:induction false} TokensSpell(s: string)
    ensures Tokens(TokenItems(s)) == s
  {
    if |s| > 0 {
      var items := TokenItems(s);
      assert items[1..] == TokenItems(s[1..]);
      TokensSpell(s[1..]);
      assert s == [s[0]] + s[1..];
    }
  }

  /** The tokens streamed before the final item spell the final text. */
  lemma StreamSpellsFinalText(prompt: string, history: seq<string>, modelName: string)
    ensures var r := StreamChat(prompt, history, modelName);
            Tokens(r[..|r| - 1]) == r[|r| - 1].1
  {
    var r := StreamChat(prompt, history, modelName);
    assert r[..|r| - 1] == TokenItems(EchoResponse(prompt));
    TokensSpell(EchoResponse(prompt));
  }

  /** The output depends on the prompt alone. */
  lemma OnlyPromptMatters(prompt: string, h1: seq<string>, m1: string, h2: seq<string>, m2: string)
    ensures StreamChat(prompt, h1, m1) == StreamChat(prompt, h2, m2)
  {
  }
}
