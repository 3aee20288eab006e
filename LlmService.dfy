/**
 * The pure parts of the browser client's `LlmService` (client/src/app/llm.service.ts):
 * the fixed list of backends offered to the user, and the request body
 * `callLlm` posts to the proxy. The HTTP post itself is not modelled.
 */
module LlmService {
  import opened Wrappers
  import opened Json

  /** An option shown to the user; the endpoint is for display only. */
  datatype LlmConfig = LlmConfig(name: string, endpoint: string)

  /** The service's `llms` list, never changed after construction. */
  const LocalEndpoint: string := "http://127.0.0.1:8000/v1/chat/completions"

  /** The same text as the literal 'Local LLM (http://127.0.0.1:8000/v1/chat/completions)'. */
  const LocalName: string := "Local LLM (" + LocalEndpoint + ")"

  const Llms: seq<LlmConfig> := [LlmConfig(LocalName, LocalEndpoint)]


  const Model: string := "gpt-3.5-turbo"

  const PromptPrefix: string := "Please analyse the following file and return a nicely formatted HTML report:\n\n"

  /** `getAvailableLlms()`: the one configured option. */
  function GetAvailableLlms(): (r: seq<LlmConfig>)
    ensures |r| == 1
    ensures r[0].endpoint == "http://127.0.0.1:8000/v1/chat/completions"
    ensures r[0].name == "Local LLM (" + r[0].endpoint + ")"
  {
    Llms
  }

  /** The single chat message of a request: the user's prompt. */
  function UserMessage(content: string): Json
  {
    JObject(map["role" := JString("user"), "content" := JString(content)])
  }

  /**
   * The payload `callLlm(selectedLlmName, fileContent)` posts: the fixed
   * model, one user message whose content is the fixed prompt followed by
   * the file, and the selected backend's name as the routing field.
   */
  function CallLlmPayload(selectedLlmName: string, fileContent: string): (p: map<string, Json>)
    ensures p.Keys == {"model", "messages", "llmName"}
    ensures p["model"] == JString(Model)
    ensures p["llmName"] == JString(selectedLlmName)
    ensures p["messages"].JArray? && |p["messages"].items| == 1
    ensures p["messages"].items[0].JObject? && p["messages"].items[0].fields.Keys == {"role", "content"}
    ensures p["messages"].items[0].fields["role"] == JString("user")
  {
    map[
      "model" := JString(Model),
      "messages" := JArray([UserMessage(PromptPrefix + fileContent)]),
      "llmName" := JString(selectedLlmName)
    ]
  }

  /**
   * The file content a payload carries: the prompt of its single user
   * message with the fixed prefix taken off, if it has that shape.
   */
  function FileContentOf(payload: map<string, Json>): Option<string>
  {
    if "messages" in payload && payload["messages"].JArray? && |payload["messages"].items| == 1 then
      match payload["messages"].items[0]
      case JObject(fields) =>
        if "content" in fields && fields["content"].JString?
           && PromptPrefix <= fields["content"].s
        then Some(fields["content"].s[|PromptPrefix|..])
        else None
      case _ => None
    else None
  }

  /**
   * The message content is the prefix followed by the file verbatim, so the
   * file can be read back out of the payload unchanged, and it is a suffix of
   * the prompt.
   */
  lemma FileContentRoundTrip(selectedLlmName: string, fileContent: string)
    ensures FileContentOf(CallLlmPayload(selectedLlmName, fileContent)) == Some(fileContent)
    ensures var prompt := CallLlmPayload(selectedLlmName, fileContent)["messages"].items[0].fields["content"].s;
      && prompt == PromptPrefix + fileContent
      && prompt[|prompt| - |fileContent|..] == fileContent
  {
  }
}
