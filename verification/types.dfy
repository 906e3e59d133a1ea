/** The records the client stores and exchanges: chat messages,
    conversations, user-defined models, provider settings and named
    configurations. Identifiers, timestamps and keys are opaque strings. */
module Types {
  import opened Wrappers

  datatype Role = User | Assistant

  /** `isError` is absent (`None`) on ordinary turns. */
  datatype Message = Message(id: string, role: Role, content: string, timestamp: string, isError: Option<bool>)

  datatype Conversation = Conversation(id: string, title: string, date: string, messages: seq<Message>)

  /** A model the user added by hand: shown as `name`, sent as `value`. */
  datatype CustomModel = CustomModel(id: string, name: string, value: string)

  /** Provider settings. `temperature` and `maxTokens` are the numbers the
      settings form produced; `customModels` may be missing from settings
      loaded from storage (`None`). */
  datatype Settings = Settings(
    apiUrl: string,
    apiKey: string,
    model: string,
    temperature: real,
    maxTokens: real,
    customModels: Option<seq<CustomModel>>)

  datatype ApiConfig = ApiConfig(id: string, name: string, settings: Settings)

  /** The settings a fresh configuration starts from, and the page's defaults. */
  const EmptySettings: Settings := Settings("", "", "", 0.7, 2000.0, Some([]))

  /** An id that passes a JavaScript truthiness test: not `null` and not "". */
  predicate IsSetId(id: Option<string>) {
    id.Some? && id.value != ""
  }
}
