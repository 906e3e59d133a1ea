/** The chat view's decisions: whether the configuration is usable,
    whether a submission goes out, which stored configuration is in use,
    and the two quick switches for model and configuration. */
module ChatArea {
  import opened Wrappers
  import opened Text
  import opened Types
  import opened Lists
  import AiService

  /** `hasValidConfig`: URL, key and model are all filled in, which is
      exactly when the adapter would accept every message. */
  predicate HasValidConfig(s: Settings): (ok: bool)
    ensures ok <==> forall content, previous :: AiService.BuildRequest(content, previous, s).Success?
  {
    assert AiService.BuildRequest("", [], s).Success? <==> AiService.ConfigComplete(s);
    s.apiUrl != "" && s.apiKey != "" && s.model != ""
  }

  /** The view lets a user send exactly when the adapter would build a
      request rather than refuse with the configuration error. */
  lemma ValidConfigIffAdapterAccepts(s: Settings, content: string, previous: seq<Message>)
    ensures HasValidConfig(s) <==> AiService.BuildRequest(content, previous, s).Success?
    ensures !HasValidConfig(s) <==> AiService.BuildRequest(content, previous, s) == Failure(AiService.ConfigError)
  {
  }

  /** A fresh configuration cannot be used until it is filled in. */
  lemma EmptySettingsNotValid()
    ensures !HasValidConfig(EmptySettings)
    ensures EmptySettings.customModels == Some([])
  {
  }

  /** The result of a submission: the text handed to the page (if any) and
      what the input box holds afterwards. */
  datatype Submission = Submission(sent: Option<string>, input: string)

  /** `handleSubmit` (and Enter without Shift): a non-blank input is sent
      as typed, untrimmed, and the box is cleared, provided no request is
      in flight and the configuration is valid; otherwise nothing happens. */
  function Submit(input: string, isLoading: bool, s: Settings): (r: Submission)
    ensures r.sent.Some? <==> Trim(input) != "" && !isLoading && HasValidConfig(s)
    ensures r.sent.Some? ==> r.sent.value == input && r.input == ""
    ensures r.sent.None? ==> r.input == input
  {
    if Trim(input) != "" && !isLoading && HasValidConfig(s) then Submission(Some(input), "")
    else Submission(None, input)
  }

  /** An input made only of whitespace is never sent. */
  lemma WhitespaceNeverSent(input: string, isLoading: bool, s: Settings)
    requires AllWhitespace(input)
    ensures Submit(input, isLoading, s).sent.None?
  {
    BlankIffAllWhitespace(input);
  }

  /** `getCurrentConfig`: the first stored configuration whose URL and key
      both equal the active settings'. */
  function CurrentConfig(configs: seq<ApiConfig>, s: Settings): (r: Option<ApiConfig>)
    ensures r.None? <==> forall i :: 0 <= i < |configs| ==>
                           configs[i].settings.apiUrl != s.apiUrl || configs[i].settings.apiKey != s.apiKey
    ensures r.Some? ==> exists i :: 0 <= i < |configs| && configs[i] == r.value
                                    && configs[i].settings.apiUrl == s.apiUrl && configs[i].settings.apiKey == s.apiKey
                                    && forall k :: 0 <= k < i ==>
                                         configs[k].settings.apiUrl != s.apiUrl || configs[k].settings.apiKey != s.apiKey
  {
    FindFirst(configs, (c: ApiConfig) => c.settings.apiUrl == s.apiUrl && c.settings.apiKey == s.apiKey)
  }

  /** Only URL and key take part: changing the model or any other field of
      the active settings does not change the configuration shown. */
  lemma CurrentConfigIgnoresOtherFields(configs: seq<ApiConfig>, s: Settings, t: Settings)
    requires s.apiUrl == t.apiUrl && s.apiKey == t.apiKey
    ensures CurrentConfig(configs, s) == CurrentConfig(configs, t)
  {
    var p := (c: ApiConfig) => c.settings.apiUrl == s.apiUrl && c.settings.apiKey == s.apiKey;
    var q := (c: ApiConfig) => c.settings.apiUrl == t.apiUrl && c.settings.apiKey == t.apiKey;
    assert p == q;
  }

  /** `handleModelChange`: only the model changes. */
  function ModelChange(s: Settings, value: string): (r: Settings)
    ensures r.model == value
    ensures r.(model := s.model) == s
  {
    s.(model := value)
  }

  /** `handleConfigChange`: the settings become those of the first
      configuration with the id; an unknown id changes nothing. */
  function ConfigChange(configs: seq<ApiConfig>, s: Settings, id: string): (r: Settings)
    ensures (forall i :: 0 <= i < |configs| ==> configs[i].id != id) ==> r == s
    ensures (exists i :: 0 <= i < |configs| && configs[i].id == id) ==>
              exists i :: 0 <= i < |configs| && configs[i].id == id && r == configs[i].settings
                          && forall k :: 0 <= k < i ==> configs[k].id != id
  {
    match FindFirst(configs, (c: ApiConfig) => c.id == id)
    case Some(c) => c.settings
    case None => s
  }
}
