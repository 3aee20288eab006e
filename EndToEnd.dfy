/**
 * Properties that span the browser client and the proxy: the client's only
 * option names the server's built-in registry entry, so a request built by
 * `callLlm` for it always resolves when the server falls back to that
 * registry, and what reaches the backend is the client's payload without
 * the routing field.
 */
module EndToEnd {
  import opened Wrappers
  import opened Json
  import Registry
  import Proxy
  import LlmService

  /** The client's one option is the server's default registry entry. */
  lemma ClientOptionIsServerDefault()
    ensures |LlmService.GetAvailableLlms()| == |Registry.DefaultRegistry| == 1
    ensures JString(LlmService.GetAvailableLlms()[0].name) == Registry.DefaultRegistry[0].fields["name"]
    ensures JString(LlmService.GetAvailableLlms()[0].endpoint) == Registry.DefaultRegistry[0].fields["endpoint"]
  {
  }

  /** After the proxy strips `llmName`, a client payload holds exactly `model` and `messages`, unchanged. */
  lemma ForwardedClientBody(selectedLlmName: string, fileContent: string)
    ensures var payload := LlmService.CallLlmPayload(selectedLlmName, fileContent);
      Proxy.ForwardPayload(payload) == map["model" := payload["model"], "messages" := payload["messages"]]
  {
  }

  /**
   * With the built-in registry (the file is missing, not JSON, or not an
   * array), a request for the client's default option is never answered 404:
   * it is forwarded to the default endpoint with the client's payload minus
   * the routing field, and the answer is the upstream reply or 502.
   */
  lemma DefaultOptionResolves(fileContent: string, source: Registry.Source, transport: Proxy.Transport)
    requires !(source.Parsed? && source.value.JArray?)
    ensures var payload := LlmService.CallLlmPayload(LlmService.GetAvailableLlms()[0].name, fileContent);
      var h := Proxy.Handle(payload, source, transport);
      && h.forwarded == Some(Proxy.ForwardRequest(
           Some(JString(Registry.DefaultEndpoint)), "POST", Proxy.JsonHeaders,
           map["model" := payload["model"], "messages" := payload["messages"]]))
      && !Proxy.EndsAs(h, transport, Proxy.UnknownName)
      && (Proxy.EndsAs(h, transport, Proxy.Relayed) || Proxy.EndsAs(h, transport, Proxy.BadGateway))
  {
    var name := LlmService.GetAvailableLlms()[0].name;
    var payload := LlmService.CallLlmPayload(name, fileContent);
    ClientOptionIsServerDefault();
    assert Proxy.Matches(Registry.DefaultEntry, JString(name));
    assert Proxy.Find(Registry.LoadRegistry(source), JString(name)) == Proxy.Found(0, Registry.DefaultEntry);
    ForwardedClientBody(name, fileContent);
  }
}
