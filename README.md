# mcp-client proxy core in Dafny

This project models the decision logic of a small chat-completion proxy and of the browser client that calls it.

- **The proxy** serves `POST /mcp/chat/completions`. It:
  - takes the routing field `llmName` out of the request body;
  - rejects a missing or falsy name with 400;
  - resolves the name in a registry of `{name, endpoint}` entries, first exact match first, and answers 404 for an unknown name;
  - forwards the rest of the body as a JSON `POST` to the matched endpoint;
  - relays the upstream status and JSON body unchanged, or answers a fixed 502 when the call fails.
- **The registry loader** re-reads one file on every lookup. It returns the parsed JSON array as it is. It falls back to a built-in one-entry registry when the file is unreadable, is not JSON, or does not hold an array.
- **The browser client** offers one fixed backend. It builds the request body: a fixed model, one user message made of a fixed prompt and the file text, and the routing field.

Everything is pure. The effects become inputs to the functions:

- **Registry file.** The read and `JSON.parse` of the file are one input, `Registry.Source`.
- **Outbound call.** The `fetch` plus `.json()` is one input, `Proxy.Transport`. It is either the upstream status and body, or a failure with its reason.
- **Handler result.** `Proxy.Handle` returns what response is sent and which request, if any, is forwarded.

JSON values are the datatype `Json.Json`, with integers for numbers. The module `Json` also holds the JavaScript semantics that the handler relies on:

- **Truthiness.** `!x` is true for `undefined`, `null`, `false`, `0` and `""`.
- **Strict equality.** `===` compares values that come from two different `JSON.parse` calls. Primitives compare by value. Objects and arrays are never identical.
- **String conversion.** A template literal converts the value it interpolates to a string. For an integer this gives its decimal digits.

The handler can end in a fifth way besides 400, 404, relay and 502: a TypeError escapes before any response is written. The code shows two ways this happens:

- `registry.find((e) => e.name === name)` reads `.name` of a `null` element that comes before any match. The loader does not validate entries, so a registry file can contain `null`.
- The 404 message interpolates an unknown name that is an object with its own `toString` key. Such an object cannot be converted to a primitive.

This outcome is `Proxy.Crashed`. `Proxy.NeverCrashes` shows it cannot happen for a registry without `null` elements and a string name. Under those conditions the handler ends in one of the four documented ways. What the web framework does with the rejected handler is not part of this model.

The source writes both the server's default name and the client's option name as one literal, `'Local LLM (http://127.0.0.1:8000/v1/chat/completions)'`. The model writes each as `"Local LLM (" + endpoint + ")"`, which is the same string.

`LoadRegistry` is a Dafny function of its `Source`, so equal sources always give equal registries. No state is kept between loads.

## Model

| member | source | states |
|---|---|---|
| `Json.Truthy` | server/index.ts:36 | `!llmName` holds exactly for a missing key, `null`, `false`, `0` and `""`; arrays and objects, even empty, are truthy |
| `Json.StrictEquals` | server/index.ts:27 | `===` on separately parsed values: true only for equal primitives, never for an array or object |
| `Json.ToText` | server/index.ts:42 | the template literal's string conversion fails exactly when `CoercionThrows`; strings are kept verbatim, integers print as their decimal text |
| `Json.JoinItems` | server/index.ts:42 | converting an array (`join`) fails exactly when one of its elements fails; an empty array gives "" |
| `Json.NatToDecimal` | server/index.ts:42 | the decimal text of a natural number is non-empty, all digits, with no leading zero |
| `Json.DecimalRoundTrip` | server/index.ts:42 | reading back the decimal text of `n` gives `n` |
| `Json.IntToDecimal` | server/index.ts:42 | the text of an integer starts with `-` exactly when it is negative |
| `Json.IntToDecimalRoundTrip` | server/index.ts:42 | reading back the text of any integer gives that integer |
| `Registry.LoadRegistry` | server/llm.registry.ts:13-31 | a parsed array is returned unchanged; an unreadable file, invalid JSON or a parsed non-array gives the default registry |
| `Registry.DefaultRegistryShape` | server/llm.registry.ts:14-19 | the default registry has one entry with keys `name` and `endpoint`, endpoint `http://127.0.0.1:8000/v1/chat/completions`, name `"Local LLM (" + endpoint + ")"` |
| `Registry.LoadRoundTrip` | server/llm.registry.ts:24-26 | any array in the file, duplicates and malformed entries included, loads back as exactly that array with the same length |
| `Registry.EmptyArrayIsEmptyRegistry` | server/llm.registry.ts:25-26 | an empty array loads as the empty registry, not the default |
| `Registry.EditsTakeEffect` | server/llm.registry.ts:21-26 | different arrays in the file load as different registries: nothing is cached |
| `Proxy.Find` | server/index.ts:25-28 | the result is the first entry in registry order whose `name` strictly equals the name, with every earlier entry passed over; none is found exactly when every entry is passed over; a `null` reached before a match throws |
| `Proxy.FindNullFree` | server/index.ts:27 | without `null` entries the lookup never throws, finds an entry exactly when some entry has the name, and never returns a later duplicate |
| `Proxy.FindAppend` | server/index.ts:27 | entries appended after a resolved one never change the result; an unresolved name is looked up in the appended part |
| `Proxy.ForwardPayload` | server/index.ts:34 | the forwarded payload has exactly the body's keys minus `llmName`, each with its value unchanged |
| `Proxy.Handle` | server/index.ts:33-58 | a falsy `llmName` gives 400 "`llmName` is required", forwarding nothing for any registry or transport; a request is forwarded exactly when the name is truthy and found; it goes to the entry's `endpoint` with `POST`, `Content-Type: application/json` and the body minus `llmName`; after forwarding, the upstream status and body are relayed, or a failure gives 502 "Failed to reach the configured LLM" |
| `Proxy.UnknownStringName` | server/index.ts:40-43 | a non-empty string name with no entry gives 404 `LLM "<name>" not found` and no forward |
| `Proxy.NoForwardIgnoresTransport` | server/index.ts:36-43 | when nothing is forwarded the result does not depend on the transport |
| `Proxy.FailureReasonHidden` | server/index.ts:54-57 | all transport failures give the same result, whatever their reason |
| `Proxy.UpstreamErrorRelayed` | server/index.ts:52-53 | an upstream 500 is relayed with its body, not turned into 502 |
| `Proxy.EndingsExclusive` | server/index.ts:33-58 | 400, 404, relay, 502 and the escaped TypeError exclude each other |
| `Proxy.OutcomeClassification` | server/index.ts:33-58 | every request ends in one of those ways; the TypeError escapes exactly when the name is truthy and either a `null` precedes any match or the unknown name cannot be converted to text |
| `Proxy.NeverCrashes` | server/index.ts:25-43 | with no `null` in the registry and a string (or missing) name, the handler always responds with one of the four documented outcomes |
| `LlmService.GetAvailableLlms` | client/src/app/llm.service.ts:12-23 | exactly one option, endpoint `http://127.0.0.1:8000/v1/chat/completions`, name `"Local LLM (" + endpoint + ")"` |
| `LlmService.CallLlmPayload` | client/src/app/llm.service.ts:26-36 | the payload has exactly the keys `model`, `messages`, `llmName`; `model` is `gpt-3.5-turbo` for every input; `llmName` is the selected name; `messages` is one message with keys `role` and `content`, the role `user` |
| `LlmService.FileContentRoundTrip` | client/src/app/llm.service.ts:32 | the message content is the fixed prompt followed by the file verbatim: the file can be read back out of the payload, and it is a suffix of the content |
| `EndToEnd.ClientOptionIsServerDefault` | client/src/app/llm.service.ts:12-17 | the client's one option has the same name and endpoint as the server's one default entry |
| `EndToEnd.ForwardedClientBody` | server/index.ts:34 | a client payload with `llmName` stripped holds exactly `model` and `messages`, unchanged |
| `EndToEnd.DefaultOptionResolves` | server/index.ts:25-50 | with the default registry, the client's default option is never answered 404; it is forwarded to the default endpoint with `model` and `messages`, and answered by relay or 502 |

## Left out

- Express wiring is not modelled, because it is framework set-up rather than decision logic. This covers `cors`, the 10 MB `express.json` limit, static file serving, the catch-all `index.html` route and `app.listen` with its logging.
- The request body is modelled as a JSON object, `map<string, Json>`. A top-level JSON array accepted by `express.json` is not modelled.
- Real effects are inputs instead of calls: `fs.readFileSync`, `path.resolve`, `JSON.parse` of the registry file, `fetch`, `llmResponse.json()`, and the awaits around them. `console.error` logging of the proxy error is dropped.
- JSON text encoding and decoding (RFC 8259) is not modelled, because payloads are `Json` values. The client's body is taken to arrive at the proxy as the same value.
- The URL that `fetch` makes of the matched entry's `endpoint` is not modelled. The forwarded request records the endpoint value as read, which may be missing or not a string. The transport input says how the call went, and a thrown `fetch` is its failure case.
- Numbers are mathematical integers. Floating point, `NaN`, `-0`, and JavaScript's exponent notation for integers of 10^21 and above are not modelled.
- The client's `HttpClient.post` call and its Observable are not modelled, because they are a library network call.
- client/src/app/app.component.ts is not part of this model. It is UI state with file-reader callbacks, HTML sanitising and async promise handling.
- `server/index.ts` imports `./llm-registry`, while the loader's file is `server/llm.registry.ts`. The two are treated as the same module.
- Proxy.UnknownStringName: states the 404 message only for string names. For other names the message text is whatever `Json.ToText` gives, and that function is modelled but has no 404 lemma of its own.
