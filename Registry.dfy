/**
 * The registry loader of server/llm.registry.ts: every call reads and parses
 * the registry file afresh, returns the parsed array as it is, and falls back
 * to a built-in one-entry registry when the file cannot be read, is not JSON,
 * or does not hold an array. The read and the parse are one input, `Source`.
 */
module Registry {
  import opened Wrappers
  import opened Json

  /** What reading and parsing the registry file produced. */
  datatype Source =
    | ReadFailed            // the file could not be read
    | ParseFailed           // the text is not valid JSON
    | Parsed(value: Json)   // the value JSON.parse returned

  const DefaultEndpoint: string := "http://127.0.0.1:8000/v1/chat/completions"

  /** The same text as the literal 'Local LLM (http://127.0.0.1:8000/v1/chat/completions)'. */
  const DefaultName: string := "Local LLM (" + DefaultEndpoint + ")"

  /** The single built-in entry, an object with the keys `name` and `endpoint`. */
  const DefaultEntry: Json := JObject(map["name" := JString(DefaultName), "endpoint" := JString(DefaultEndpoint)])

  const DefaultRegistry: seq<Json> := [DefaultEntry]

  /** The built-in registry has one entry whose name is its endpoint wrapped as "Local LLM (…)". */
  lemma DefaultRegistryShape()
    ensures |DefaultRegistry| == 1
    ensures DefaultRegistry[0].JObject? && DefaultRegistry[0].fields.Keys == {"name", "endpoint"}
    ensures DefaultRegistry[0].fields["endpoint"] == JString("http://127.0.0.1:8000/v1/chat/completions")
    ensures DefaultRegistry[0].fields["name"] == JString("Local LLM (" + DefaultEndpoint + ")")
  {
  }

  /**
   * `loadRegistry()`: the parsed array, element for element and without any
   * validation, when the file held an array; the default registry otherwise.
   */
  function LoadRegistry(source: Source): (r: seq<Json>)
    ensures source.Parsed? && source.value.JArray? ==> r == source.value.items
    ensures source.ReadFailed? || source.ParseFailed? ==> r == DefaultRegistry
    ensures source.Parsed? && !source.value.JArray? ==> r == DefaultRegistry
  {
    match source
    case Parsed(JArray(items)) => items
    case _ => DefaultRegistry
  }

  /**
   * A registry file holding any array, including one with duplicate names,
   * malformed entries or the default entry itself, loads back as exactly that
   * array.
   */
  lemma LoadRoundTrip(entries: seq<Json>)
    ensures LoadRegistry(Parsed(JArray(entries))) == entries
    ensures |LoadRegistry(Parsed(JArray(entries)))| == |entries|
  {
  }

  /** An empty array is an empty registry, not the fallback. */
  lemma EmptyArrayIsEmptyRegistry()
    ensures LoadRegistry(Parsed(JArray([]))) == []
    ensures LoadRegistry(Parsed(JArray([]))) != DefaultRegistry
  {
  }

  /**
   * Nothing is cached: two files whose arrays differ give registries that
   * differ, so an edit of the file shows in the next load.
   */
  lemma EditsTakeEffect(before: seq<Json>, after: seq<Json>)
    requires before != after
    ensures LoadRegistry(Parsed(JArray(before))) != LoadRegistry(Parsed(JArray(after)))
  {
  }
}
