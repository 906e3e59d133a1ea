/** The provider adapter: the configuration check, the request builder
    (message projection, headers chosen by URL substring, body with the
    baidu/qwen `input` reshape), the message thrown on a non-2xx response,
    and the reply-extraction cascade. The HTTP round trip itself is a
    parameter (`transport`), as are `JSON.parse` and `JSON.stringify`. */
module AiService {
  import opened Wrappers
  import opened Text
  import opened Json
  import opened Types

  const ConfigError: string := "API配置不完整，请在设置中配置API网址、API Key和模型"
  const FailurePrefix: string := "API请求失败: "
  const UnparsedPrefix: string := "无法解析AI响应，请检查API设置或联系服务提供商。响应数据: "
  /** The `TypeError` text V8 (Chromium, Node.js) gives when the reply body
      is JSON `null` and the first property read reaches it; other engines
      word it differently. */
  const NullReadError: string := "Cannot read properties of null (reading 'choices')"
  const AnthropicVersion: string := "2023-06-01"

  // ---------------------------------------------------------------------
  // Configuration check

  /** The adapter proceeds only when URL, key and model are all non-empty. */
  predicate ConfigComplete(s: Settings) {
    s.apiUrl != "" && s.apiKey != "" && s.model != ""
  }

  // ---------------------------------------------------------------------
  // Message projection

  /** The `{role, content}` pair sent over the wire. */
  datatype WireMessage = WireMessage(role: Role, content: string)

  /** `formatMessages`: drops id, timestamp and error flag, keeps the order. */
  function FormatMessages(ms: seq<Message>): (r: seq<WireMessage>)
    ensures |r| == |ms|
    ensures forall i :: 0 <= i < |ms| ==> r[i].role == ms[i].role && r[i].content == ms[i].content
  {
    if ms == [] then [] else [WireMessage(ms[0].role, ms[0].content)] + FormatMessages(ms[1..])
  }

  /** The outgoing list: the earlier turns, projected, then the new user turn. */
  function ProjectMessages(content: string, previous: seq<Message>): (r: seq<WireMessage>)
    ensures |r| == |previous| + 1
    ensures forall i :: 0 <= i < |previous| ==>
              r[i].role == previous[i].role && r[i].content == previous[i].content
    ensures r[|previous|] == WireMessage(User, content)
  {
    FormatMessages(previous) + [WireMessage(User, content)]
  }

  // ---------------------------------------------------------------------
  // Headers

  type Headers = seq<(string, string)>

  /** The value sent under header `name`, if any. */
  function HeaderValue(hs: Headers, name: string): (r: Option<string>)
    ensures r.None? <==> forall i :: 0 <= i < |hs| ==> hs[i].0 != name
    ensures forall i :: (0 <= i < |hs| && hs[i].0 == name
                         && forall k :: 0 <= k < i ==> hs[k].0 != name) ==> r == Some(hs[i].1)
  {
    if hs == [] then None
    else if hs[0].0 == name then Some(hs[0].1)
    else HeaderValue(hs[1..], name)
  }

  /** An `Authorization` value in the bearer-token form of section 2.1 of
      RFC 6750. */
  function Bearer(key: string): string {
    "Bearer " + key
  }

  /** The headers, chosen by substring tests on the URL in source order:
      `openai.com` first, then `anthropic.com`, then everything else. */
  function BuildHeaders(s: Settings): (r: Headers)
    ensures HeaderValue(r, "Content-Type") == Some("application/json")
    ensures Contains(s.apiUrl, "openai.com") ==>
              HeaderValue(r, "Authorization") == Some(Bearer(s.apiKey))
              && HeaderValue(r, "x-api-key") == None
    ensures !Contains(s.apiUrl, "openai.com") && Contains(s.apiUrl, "anthropic.com") ==>
              HeaderValue(r, "x-api-key") == Some(s.apiKey)
              && HeaderValue(r, "anthropic-version") == Some(AnthropicVersion)
              && HeaderValue(r, "Authorization") == None
    ensures !Contains(s.apiUrl, "openai.com") && !Contains(s.apiUrl, "anthropic.com") ==>
              HeaderValue(r, "Authorization") == Some(Bearer(s.apiKey))
              && HeaderValue(r, "x-api-key") == None
  {
    if Contains(s.apiUrl, "openai.com") then
      [("Content-Type", "application/json"), ("Authorization", Bearer(s.apiKey))]
    else if Contains(s.apiUrl, "anthropic.com") then
      var hs := [("Content-Type", "application/json"), ("x-api-key", s.apiKey), ("anthropic-version", AnthropicVersion)];
      assert hs[2].0 == "anthropic-version";
      hs
    else
      [("Content-Type", "application/json"), ("Authorization", Bearer(s.apiKey))]
  }

  // ---------------------------------------------------------------------
  // Body

  function RoleName(role: Role): string {
    match role
    case User => "user"
    case Assistant => "assistant"
  }

  function WireJson(m: WireMessage): Json {
    JObj([("role", JStr(RoleName(m.role))), ("content", JStr(m.content))])
  }

  function MessagesJson(ms: seq<WireMessage>): (r: Json)
    ensures r.JArr? && |r.items| == |ms|
    ensures forall i :: 0 <= i < |ms| ==> r.items[i] == WireJson(ms[i])
  {
    JArr(seq(|ms|, i requires 0 <= i < |ms| => WireJson(ms[i])))
  }

  /** The member names of an object, in order. */
  function Keys(fields: seq<(string, Json)>): (r: seq<string>)
    ensures |r| == |fields|
    ensures forall i :: 0 <= i < |fields| ==> r[i] == fields[i].0
  {
    if fields == [] then [] else [fields[0].0] + Keys(fields[1..])
  }

  /** The one URL for which the body is reshaped: not OpenAI, not
      Anthropic, and naming baidu or qwen (a zhipu URL is not enough). */
  predicate NeedsInputReshape(url: string) {
    && !Contains(url, "openai.com")
    && !Contains(url, "anthropic.com")
    && (Contains(url, "baidu") || Contains(url, "qwen"))
  }

  /** `{model, messages, temperature, max_tokens}`. */
  function StandardBody(s: Settings, msgs: Json): (r: Json)
    ensures r.JObj? && Keys(r.fields) == ["model", "messages", "temperature", "max_tokens"]
    ensures Prop(r, "model") == Some(JStr(s.model)) && Prop(r, "messages") == Some(msgs)
    ensures Prop(r, "temperature") == Some(JNum(s.temperature)) && Prop(r, "max_tokens") == Some(JNum(s.maxTokens))
    ensures Prop(r, "input") == None
  {
    var fs := [("model", JStr(s.model)), ("messages", msgs),
               ("temperature", JNum(s.temperature)), ("max_tokens", JNum(s.maxTokens))];
    FourFields(fs, "input");
    JObj(fs)
  }

  /** The standard body with `input: {messages}` added and the top-level
      `messages` deleted. */
  function InputBody(s: Settings, msgs: Json): (r: Json)
    ensures r.JObj? && Keys(r.fields) == ["model", "temperature", "max_tokens", "input"]
    ensures Prop(r, "model") == Some(JStr(s.model)) && Prop(r, "input") == Some(JObj([("messages", msgs)]))
    ensures Prop(r, "temperature") == Some(JNum(s.temperature)) && Prop(r, "max_tokens") == Some(JNum(s.maxTokens))
    ensures Prop(r, "messages") == None
  {
    var fs := [("model", JStr(s.model)), ("temperature", JNum(s.temperature)),
               ("max_tokens", JNum(s.maxTokens)), ("input", JObj([("messages", msgs)]))];
    FourFields(fs, "messages");
    JObj(fs)
  }

  /** Lookups in a four-member object whose names are pairwise distinct,
      and of a name it lacks. */
  lemma FourFields(fs: seq<(string, Json)>, absent: string)
    requires |fs| == 4
    requires forall i, j :: 0 <= i < j < 4 ==> fs[i].0 != fs[j].0
    requires forall i :: 0 <= i < 4 ==> fs[i].0 != absent
    ensures Keys(fs) == [fs[0].0, fs[1].0, fs[2].0, fs[3].0]
    ensures forall i :: 0 <= i < 4 ==> Lookup(fs, fs[i].0) == Some(fs[i].1)
    ensures Lookup(fs, absent) == None
  {
  }

  /** The request body, branch for branch as the source writes it. */
  function BuildBody(s: Settings, ms: seq<WireMessage>): (r: Json)
    ensures r.JObj?
    ensures Prop(r, "model") == Some(JStr(s.model))
    ensures Prop(r, "temperature") == Some(JNum(s.temperature))
    ensures Prop(r, "max_tokens") == Some(JNum(s.maxTokens))
    ensures NeedsInputReshape(s.apiUrl) ==>
              && Keys(r.fields) == ["model", "temperature", "max_tokens", "input"]
              && Prop(r, "messages") == None
              && Prop(r, "input") == Some(JObj([("messages", MessagesJson(ms))]))
    ensures !NeedsInputReshape(s.apiUrl) ==>
              && Keys(r.fields) == ["model", "messages", "temperature", "max_tokens"]
              && Prop(r, "messages") == Some(MessagesJson(ms))
              && Prop(r, "input") == None
  {
    var msgs := MessagesJson(ms);
    if Contains(s.apiUrl, "openai.com") then StandardBody(s, msgs)
    else if Contains(s.apiUrl, "anthropic.com") then StandardBody(s, msgs)
    else if Contains(s.apiUrl, "zhipu") || Contains(s.apiUrl, "baidu") || Contains(s.apiUrl, "qwen") then
      if Contains(s.apiUrl, "baidu") || Contains(s.apiUrl, "qwen") then InputBody(s, msgs)
      else StandardBody(s, msgs)
    else StandardBody(s, msgs)
  }

  // ---------------------------------------------------------------------
  // Dialects: the same choices as a prioritised table

  datatype Dialect = OpenAiCompatible | AnthropicCompatible | ChineseProvider | Generic

  /** The first row of the table whose URL test matches. */
  function DialectOf(url: string): Dialect {
    if Contains(url, "openai.com") then OpenAiCompatible
    else if Contains(url, "anthropic.com") then AnthropicCompatible
    else if Contains(url, "zhipu") || Contains(url, "baidu") || Contains(url, "qwen") then ChineseProvider
    else Generic
  }

  /** Headers as a function of the dialect alone. */
  function DialectHeaders(d: Dialect, key: string): Headers {
    if d == AnthropicCompatible then
      [("Content-Type", "application/json"), ("x-api-key", key), ("anthropic-version", AnthropicVersion)]
    else
      [("Content-Type", "application/json"), ("Authorization", Bearer(key))]
  }

  /** The header and body builders agree with the dialect table: headers
      depend only on the dialect, and the body is reshaped exactly for a
      Chinese-provider URL that also names baidu or qwen. */
  lemma BuildersFollowDialect(s: Settings, ms: seq<WireMessage>)
    ensures BuildHeaders(s) == DialectHeaders(DialectOf(s.apiUrl), s.apiKey)
    ensures NeedsInputReshape(s.apiUrl) <==>
              DialectOf(s.apiUrl) == ChineseProvider && (Contains(s.apiUrl, "baidu") || Contains(s.apiUrl, "qwen"))
    ensures BuildBody(s, ms) == if NeedsInputReshape(s.apiUrl) then InputBody(s, MessagesJson(ms))
                                else StandardBody(s, MessagesJson(ms))
  {
  }

  // ---------------------------------------------------------------------
  // Request

  /** A POST to `url`; `body` is serialised with `JSON.stringify`. */
  datatype Request = Request(url: string, headers: Headers, body: Json)

  /** Everything before the network call. A configuration without URL, key
      or model is refused with the fixed configuration error. */
  function BuildRequest(content: string, previous: seq<Message>, s: Settings): (r: Result<Request, string>)
    ensures r.Failure? <==> !ConfigComplete(s)
    ensures r.Failure? ==> r.error == ConfigError
    ensures r.Success? ==>
              && r.value.url == s.apiUrl
              && r.value.headers == BuildHeaders(s)
              && r.value.body == BuildBody(s, ProjectMessages(content, previous))
  {
    if s.apiUrl == "" || s.apiKey == "" || s.model == "" then Failure(ConfigError)
    else
      var ms := ProjectMessages(content, previous);
      Success(Request(s.apiUrl, BuildHeaders(s), BuildBody(s, ms)))
  }

  /** The messages a built request carries, wherever the body puts them. */
  function SentMessages(body: Json): Option<Json>
    requires body.JObj?
  {
    match Prop(body, "messages")
    case Some(m) => Some(m)
    case None =>
      match Prop(body, "input")
      case Some(inp) => if inp.JNull? then None else Prop(inp, "messages")
      case None => None
  }

  /** Whatever the provider, the request carries the N earlier turns and the
      new user turn, in order and verbatim. */
  lemma RequestCarriesProjection(content: string, previous: seq<Message>, s: Settings)
    requires ConfigComplete(s)
    ensures BuildRequest(content, previous, s).Success?
    ensures var body := BuildRequest(content, previous, s).value.body;
            body.JObj? && SentMessages(body) == Some(MessagesJson(ProjectMessages(content, previous)))
  {
    var ms := ProjectMessages(content, previous);
    var body := BuildBody(s, ms);
    if NeedsInputReshape(s.apiUrl) {
      assert Prop(body, "messages") == None;
      var inp := JObj([("messages", MessagesJson(ms))]);
      assert Prop(body, "input") == Some(inp);
      assert Prop(inp, "messages") == Some(MessagesJson(ms));
    }
  }

  // ---------------------------------------------------------------------
  // Non-2xx responses

  /** The value attached to the error: the parsed body, or `{message: text}`
      when the body is not JSON. */
  function ErrorData(errorText: string, parse: string -> Result<Json, string>): (r: Json)
    ensures parse(errorText).Success? ==> r == parse(errorText).value
    ensures parse(errorText).Failure? ==> r.JObj? && Truthy(r) && Lookup(r.fields, "message") == Some(JStr(errorText))
  {
    match parse(errorText)
    case Success(j) => j
    case Failure(_) => JObj([("message", JStr(errorText))])
  }

  /** The part of the message before the optional body suffix. */
  function FailureHead(status: nat, statusText: string): string {
    FailurePrefix + NatToDecimal(status) + " " + statusText
  }

  /** The message thrown for a response whose status is not 2xx. */
  function HttpFailureMessage(status: nat, statusText: string, errorText: string,
                              parse: string -> Result<Json, string>, stringify: Json -> string): (m: string)
    ensures |FailureHead(status, statusText)| <= |m|
    ensures m[..|FailureHead(status, statusText)|] == FailureHead(status, statusText)
    ensures Truthy(ErrorData(errorText, parse)) ==>
              m[|FailureHead(status, statusText)|..] == " - " + stringify(ErrorData(errorText, parse))
    ensures !Truthy(ErrorData(errorText, parse)) ==> m == FailureHead(status, statusText)
    ensures parse(errorText).Failure? ==>
              m == FailureHead(status, statusText) + " - " + stringify(JObj([("message", JStr(errorText))]))
  {
    var errorData := ErrorData(errorText, parse);
    FailurePrefix + NatToDecimal(status) + " " + statusText
      + (if Truthy(errorData) then " - " + stringify(errorData) else "")
  }

  /** The status code can be read back from the thrown message: the digits
      after the prefix, up to the first space, denote it. */
  lemma StatusRecoverable(status: nat, statusText: string, errorText: string,
                           parse: string -> Result<Json, string>, stringify: Json -> string)
    ensures var m := HttpFailureMessage(status, statusText, errorText, parse, stringify);
            var k := |NatToDecimal(status)|;
            && |FailurePrefix| + k < |m|
            && m[..|FailurePrefix|] == FailurePrefix
            && (forall i :: |FailurePrefix| <= i < |FailurePrefix| + k ==> '0' <= m[i] <= '9')
            && m[|FailurePrefix| + k] == ' '
            && DigitsValue(m[|FailurePrefix|..|FailurePrefix| + k]) == status
  {
    var m := HttpFailureMessage(status, statusText, errorText, parse, stringify);
    var head := FailureHead(status, statusText);
    var digits := NatToDecimal(status);
    var k := |digits|;
    assert m[..|head|] == head;
    assert head == FailurePrefix + digits + " " + statusText;
    assert m[|FailurePrefix|..|FailurePrefix| + k] == digits;
    NatToDecimalRoundTrip(status);
  }

  // ---------------------------------------------------------------------
  // Reply extraction

  /** `data.choices && data.choices[0] && data.choices[0].message`. */
  function ChoiceMessage(data: Json): Option<Json>
    requires !data.JNull?
  {
    AndProp(AndIndex0(Prop(data, "choices")), "message")
  }

  /** The text returned when no known shape matches. */
  function UnparsedReply(data: Json, stringify: Json -> string): Json {
    JStr(UnparsedPrefix + stringify(data))
  }

  /** The reply, branch for branch as the source writes it, including the
      two branches that can never be reached. `None` is `undefined`, which
      the first branch returns when the message has no `content`. */
  function ExtractReply(data: Json, stringify: Json -> string): (r: Result<Option<Json>, string>)
    ensures r.Failure? <==> data.JNull?
    ensures r.Failure? ==> r.error == NullReadError
  {
    if data.JNull? then Failure(NullReadError)
    else
      var choice := ChoiceMessage(data);
      var content := Prop(data, "content");
      var response := Prop(data, "response");
      var result := Prop(data, "result");
      var output := Prop(data, "output");
      var text := Prop(data, "text");
      if Present(choice) then Success(Prop(choice.value, "content"))
      else if Present(content) then Success(content)
      else if Present(response) then Success(response)
      else if Present(result) then Success(result)
      else if Present(AndProp(output, "text")) then Success(AndProp(output, "text"))
      else if Present(AndProp(result, "content")) then Success(AndProp(result, "content"))
      else if Present(AndProp(AndIndex0(content), "text")) then Success(AndProp(AndIndex0(content), "text"))
      else if Present(Or(text, output)) then Success(Or(text, output))
      else Success(Some(UnparsedReply(data, stringify)))
  }

  /** The reachable shapes, in the order they are tried. */
  datatype Shape = OpenAiChoice | ContentField | ResponseField | ResultField | OutputText | TextOrOutput

  const CascadeOrder: seq<Shape> := [OpenAiChoice, ContentField, ResponseField, ResultField, OutputText, TextOrOutput]

  /** Whether `data` has the shape. */
  predicate Matches(sh: Shape, data: Json)
    requires !data.JNull?
  {
    match sh
    case OpenAiChoice => Present(ChoiceMessage(data))
    case ContentField => Present(Prop(data, "content"))
    case ResponseField => Present(Prop(data, "response"))
    case ResultField => Present(Prop(data, "result"))
    case OutputText => Present(AndProp(Prop(data, "output"), "text"))
    case TextOrOutput => Present(Or(Prop(data, "text"), Prop(data, "output")))
  }

  /** The value a matching shape yields, unchanged. */
  function Take(sh: Shape, data: Json): Option<Json>
    requires !data.JNull? && Matches(sh, data)
  {
    match sh
    case OpenAiChoice => Prop(ChoiceMessage(data).value, "content")
    case ContentField => Prop(data, "content")
    case ResponseField => Prop(data, "response")
    case ResultField => Prop(data, "result")
    case OutputText => AndProp(Prop(data, "output"), "text")
    case TextOrOutput => Or(Prop(data, "text"), Prop(data, "output"))
  }

  /** The position of the first shape in `shapes` that `data` has. */
  function FirstMatch(shapes: seq<Shape>, data: Json): (r: Option<nat>)
    requires !data.JNull?
    ensures r.None? <==> forall i :: 0 <= i < |shapes| ==> !Matches(shapes[i], data)
    ensures r.Some? ==> r.value < |shapes| && Matches(shapes[r.value], data)
                        && forall i :: 0 <= i < r.value ==> !Matches(shapes[i], data)
  {
    if shapes == [] then None
    else if Matches(shapes[0], data) then Some(0)
    else
      match FirstMatch(shapes[1..], data)
      case None => None
      case Some(k) => Some(k + 1)
  }

  /** The reply as an ordered list of extractors: the first shape in
      `shapes` that matches yields its value, otherwise the descriptive
      fallback text. */
  function CascadeFrom(shapes: seq<Shape>, data: Json, stringify: Json -> string): Option<Json>
    requires !data.JNull?
  {
    if shapes == [] then Some(UnparsedReply(data, stringify))
    else if Matches(shapes[0], data) then Take(shapes[0], data)
    else CascadeFrom(shapes[1..], data, stringify)
  }

  function Cascade(data: Json, stringify: Json -> string): Option<Json>
    requires !data.JNull?
  {
    CascadeFrom(CascadeOrder, data, stringify)
  }

  /** First match wins: the cascade's value is that of the first shape
      that matches, and the fallback exactly when none does. */
  lemma {:induction false} CascadeIsFirstMatch(shapes: seq<Shape>, data: Json, stringify: Json -> string)
    requires !data.JNull?
    ensures FirstMatch(shapes, data).None? ==> CascadeFrom(shapes, data, stringify) == Some(UnparsedReply(data, stringify))
    ensures FirstMatch(shapes, data).Some? ==>
              CascadeFrom(shapes, data, stringify) == Take(shapes[FirstMatch(shapes, data).value], data)
  {
    if shapes != [] && !Matches(shapes[0], data) {
      CascadeIsFirstMatch(shapes[1..], data, stringify);
      if FirstMatch(shapes, data).Some? {
        assert shapes[FirstMatch(shapes, data).value] == shapes[1..][FirstMatch(shapes[1..], data).value];
      }
    }
  }

  /** The cascade over the fixed order, written out shape by shape. */
  lemma CascadeSteps(data: Json, stringify: Json -> string)
    requires !data.JNull?
    ensures Cascade(data, stringify) ==
              if Matches(OpenAiChoice, data) then Take(OpenAiChoice, data)
              else if Matches(ContentField, data) then Take(ContentField, data)
              else if Matches(ResponseField, data) then Take(ResponseField, data)
              else if Matches(ResultField, data) then Take(ResultField, data)
              else if Matches(OutputText, data) then Take(OutputText, data)
              else if Matches(TextOrOutput, data) then Take(TextOrOutput, data)
              else Some(UnparsedReply(data, stringify))
  {
    var o := CascadeOrder;
    assert o[0] == OpenAiChoice && o[1..][0] == ContentField && o[2..][0] == ResponseField;
    assert o[3..][0] == ResultField && o[4..][0] == OutputText && o[5..][0] == TextOrOutput;
    assert o[1..][1..] == o[2..] && o[2..][1..] == o[3..] && o[3..][1..] == o[4..];
    assert o[4..][1..] == o[5..] && o[5..][1..] == [];
    var fallback := Some(UnparsedReply(data, stringify));
    var c5 := if Matches(TextOrOutput, data) then Take(TextOrOutput, data) else fallback;
    assert CascadeFrom(o[5..], data, stringify) == c5;
    var c4 := if Matches(OutputText, data) then Take(OutputText, data) else c5;
    assert CascadeFrom(o[4..], data, stringify) == c4;
    var c3 := if Matches(ResultField, data) then Take(ResultField, data) else c4;
    assert CascadeFrom(o[3..], data, stringify) == c3;
    var c2 := if Matches(ResponseField, data) then Take(ResponseField, data) else c3;
    assert CascadeFrom(o[2..], data, stringify) == c2;
    var c1 := if Matches(ContentField, data) then Take(ContentField, data) else c2;
    assert CascadeFrom(o[1..], data, stringify) == c1;
  }

  /** The two extra branches of the source (`result.content`, and
      `content[0].text`) never decide the reply: the source's chain is the
      six-step cascade. */
  lemma ExtractReplyIsCascade(data: Json, stringify: Json -> string)
    requires !data.JNull?
    ensures ExtractReply(data, stringify) == Success(Cascade(data, stringify))
  {
    CascadeSteps(data, stringify);
    var content := Prop(data, "content");
    var result := Prop(data, "result");
    if !Matches(ContentField, data) && !Matches(ResultField, data) {
      // the shadowed branches: their guards need a truthy `result` or `content`
      assert !Present(AndProp(result, "content"));
      assert !Present(AndProp(AndIndex0(content), "text"));
    }
  }

  /** When a truthy `result` exists and no earlier shape matched, the reply
      is `result` itself, never `result.content`. */
  lemma ResultReturnedWhole(data: Json, stringify: Json -> string)
    requires !data.JNull?
    requires !Present(ChoiceMessage(data))
    requires !Present(Prop(data, "content")) && !Present(Prop(data, "response"))
    requires Present(Prop(data, "result"))
    ensures ExtractReply(data, stringify) == Success(Prop(data, "result"))
  {
  }

  /** Falsy fields are passed over: an empty `content` does not stop the
      cascade from reaching `response`. */
  lemma EmptyContentSkipped(stringify: Json -> string)
    ensures ExtractReply(JObj([("content", JStr("")), ("response", JStr("x"))]), stringify)
            == Success(Some(JStr("x")))
  {
  }

  /** The OpenAI shape: the first choice's message content is the reply. */
  lemma OpenAiReply(stringify: Json -> string)
    ensures ExtractReply(JObj([("choices", JArr([JObj([("message", JObj([("content", JStr("hi"))]))])]))]), stringify)
            == Success(Some(JStr("hi")))
  {
  }

  /** A first choice whose message has no `content` yields `undefined`,
      not the fallback text. */
  lemma MessageWithoutContent(stringify: Json -> string)
    ensures ExtractReply(JObj([("choices", JArr([JObj([("message", JObj([]))])]))]), stringify)
            == Success(None)
  {
  }

  /** `{result: {content: "hi"}}` yields the whole `result` object. */
  lemma ResultObjectExample(stringify: Json -> string)
    ensures ExtractReply(JObj([("result", JObj([("content", JStr("hi"))]))]), stringify)
            == Success(Some(JObj([("content", JStr("hi"))])))
  {
  }

  /** An object with no known field yields the fallback text embedding the
      serialised body. */
  lemma UnknownShapeFallsBack(stringify: Json -> string)
    ensures var data := JObj([("foo", JStr("bar"))]);
            ExtractReply(data, stringify) == Success(Some(JStr(UnparsedPrefix + stringify(data))))
  {
  }

  // ---------------------------------------------------------------------
  // One call of the adapter

  /** What the transport delivers: a connection failure with its message,
      or a response with status, status text and body text. */
  datatype HttpOutcome = NetworkError(message: string) | Response(status: nat, statusText: string, body: string)

  predicate IsOk(status: nat) {
    200 <= status <= 299
  }

  /** `sendMessageToAI`: build, send once, then either throw the failure
      message or extract the reply. `parse` models `JSON.parse` (its
      failure carries the thrown message). */
  function SendMessageToAI(content: string, previous: seq<Message>, s: Settings,
                           transport: Request -> HttpOutcome,
                           parse: string -> Result<Json, string>,
                           stringify: Json -> string): (r: Result<Option<Json>, string>)
    ensures !ConfigComplete(s) ==> r == Failure(ConfigError)
    ensures r.Success? ==>
              && ConfigComplete(s)
              && var answer := transport(BuildRequest(content, previous, s).value);
                 && answer.Response? && IsOk(answer.status)
                 && parse(answer.body).Success? && !parse(answer.body).value.JNull?
  {
    match BuildRequest(content, previous, s)
    case Failure(e) => Failure(e)
    case Success(req) =>
      match transport(req)
      case NetworkError(e) => Failure(e)
      case Response(status, statusText, body) =>
        if !IsOk(status) then Failure(HttpFailureMessage(status, statusText, body, parse, stringify))
        else
          match parse(body)
          case Failure(e) => Failure(e)
          case Success(data) => ExtractReply(data, stringify)
  }

  /** One call, case by case: a complete configuration sends exactly the
      built request; a transport failure propagates unchanged; a non-2xx
      status throws the formatted message; a 2xx body that is not JSON
      throws the parser's error, `null` throws on the property read, and any
      other JSON value yields the cascade's value. */
  lemma SendMessageOutcomes(content: string, previous: seq<Message>, s: Settings,
                            transport: Request -> HttpOutcome,
                            parse: string -> Result<Json, string>, stringify: Json -> string)
    requires ConfigComplete(s)
    ensures var req := BuildRequest(content, previous, s).value;
            var r := SendMessageToAI(content, previous, s, transport, parse, stringify);
            && (transport(req).NetworkError? ==> r == Failure(transport(req).message))
            && (transport(req).Response? && !IsOk(transport(req).status) ==>
                  r == Failure(HttpFailureMessage(transport(req).status, transport(req).statusText,
                                                  transport(req).body, parse, stringify)))
            && (transport(req).Response? && IsOk(transport(req).status) && parse(transport(req).body).Success?
                && !parse(transport(req).body).value.JNull? ==>
                  r == Success(Cascade(parse(transport(req).body).value, stringify)))
            && (transport(req).Response? && IsOk(transport(req).status) && parse(transport(req).body).Failure? ==>
                  r == Failure(parse(transport(req).body).error))
            && (transport(req).Response? && IsOk(transport(req).status) && parse(transport(req).body) == Success(JNull) ==>
                  r == Failure(NullReadError))
  {
    var req := BuildRequest(content, previous, s).value;
    if transport(req).Response? && IsOk(transport(req).status) && parse(transport(req).body).Success? {
      var data := parse(transport(req).body).value;
      if !data.JNull? {
        ExtractReplyIsCascade(data, stringify);
      }
    }
  }

  /** An incomplete configuration never reaches the network: the outcome
      is the same whatever the transport would have done. */
  lemma NoRequestWithoutConfig(content: string, previous: seq<Message>, s: Settings,
                               t1: Request -> HttpOutcome, t2: Request -> HttpOutcome,
                               parse: string -> Result<Json, string>, stringify: Json -> string)
    requires !ConfigComplete(s)
    ensures SendMessageToAI(content, previous, s, t1, parse, stringify)
            == SendMessageToAI(content, previous, s, t2, parse, stringify)
            == Failure(ConfigError)
  {
  }
}
