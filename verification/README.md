# A verified model of the AI chat client's provider adapter and chat state

The system is a browser chat client. It talks to any chat-completion HTTP
API (OpenAI, Anthropic, Chinese providers, generic endpoints), and it keeps
conversations and named API configurations on the client. This project
models its core in Dafny:

- **Provider adapter** (`AiService`, `ai_service.dfy`). `sendMessageToAI`
  does the following:
  - checks the configuration;
  - projects the history onto wire messages;
  - picks authentication headers by URL substring;
  - builds the request body, reshaping it for Baidu/Qwen-style hosts;
  - formats the error thrown for a non-2xx status;
  - pulls the reply out of the JSON body through the source's fallback
    cascade. The cascade includes the two branches that can never be taken.

  The transport (`fetch`), `JSON.parse` and `JSON.stringify` are function
  parameters.
- **Error classifier** (`ErrorHelper`, `error_helper.dfy`). It maps an error
  message to a category by keyword search over the lower-cased text, with
  the first rule winning. It also gives the fixed help text for each category.
- **Settings drawer** (`SettingsPanel`, `settings_panel.dfy`):
  - normalising incoming settings;
  - saving;
  - creating, selecting and deleting named configurations;
  - adding and deleting custom models.
- **Home page** (`Page`, `page.dfy`):
  - selecting a configuration;
  - new, delete and rename conversation;
  - the list updates around one send, including the error turn.
- **Chat view** (`ChatArea`, `chat_area.dfy`):
  - the validity gate for sending;
  - submission of the input box;
  - looking up the current configuration;
  - model and configuration changes.

Support modules:

- `Wrappers`: `Option` and `Result`.
- `Text`: `includes`, ASCII `toLowerCase`, ECMAScript `trim`, and decimal
  rendering.
- `Json`: JSON values with JavaScript truthiness, property and `[0]` access,
  and `&&`/`||`.
- `Lists`: `filter`, `map`-update and `find`.
- `Types`: the records of `src/types/index.ts`.

Page handlers are pure `PageState -> PageState` functions. Fresh ids and
timestamps (`uuidv4`, `new Date()`) are parameters. The adapter's outcome is
an input to the send transition.

The model follows the code as written, not what its comments announce:

- An object under `result` is returned whole. For example,
  `{"result": {"content": "hi"}}` yields the object itself, not `"hi"`. The
  `data.result` branch comes before the `data.result.content` branch that
  the comment at `src/services/ai-service.ts:150` labels as the Baidu
  Wenxin format (`ResultObjectExample`).
- Likewise, an Anthropic-style `content` array is returned as the array.
  The `content[0].text` branch, labelled as the new Claude format at
  `src/services/ai-service.ts:154`, is never reached.
- The `content`, `response` and `result` branches accept any truthy value,
  not only strings, although the reply variable starts as a string.

The thrown failure message starts with the Chinese text `API请求失败: `. The
` - <json>` suffix is appended whenever the parsed error body is truthy,
which includes the `{message: text}` stand-in used for a non-JSON body.

## Model

| member | source | states |
|---|---|---|
| AiService.FormatMessages | src/services/ai-service.ts:4-9 | one wire message per stored message, same order, carrying only role and content |
| AiService.ProjectMessages | src/services/ai-service.ts:23-29 | N earlier turns project to N+1 wire messages: the N verbatim and in order, then the new user turn last |
| AiService.BuildHeaders | src/services/ai-service.ts:32-45 | Content-Type is always JSON. An `openai.com` URL gets a Bearer token. An `anthropic.com` URL without `openai.com` gets `x-api-key` plus `anthropic-version: 2023-06-01` and no Authorization. Any other URL gets a Bearer token. |
| AiService.BuildBody | src/services/ai-service.ts:48-95 | model, temperature and max_tokens are always present. The messages sit under `input.messages`, with no top-level `messages`, exactly when the URL names baidu or qwen and neither openai.com nor anthropic.com. Otherwise they sit under `messages`. |
| AiService.BuildersFollowDialect | src/services/ai-service.ts:36-95 | the two URL if-chains agree with one provider-dialect table (OpenAI, Anthropic, Chinese provider, generic) |
| AiService.BuildRequest | src/services/ai-service.ts:17-19 | refused with the fixed configuration message exactly when URL, key or model is empty. Otherwise the request goes to the configured URL with the built headers and body. |
| AiService.RequestCarriesProjection | src/services/ai-service.ts:23-95 | whichever body shape is chosen, the messages it carries are the projected history followed by the new user turn |
| AiService.NoRequestWithoutConfig | src/services/ai-service.ts:17-19 | with an incomplete configuration the outcome is the configuration error, whatever the transport would do |
| AiService.HttpFailureMessage | src/services/ai-service.ts:108-123 | the message starts with the prefix, status and status text. ` - ` plus the serialised error data follows exactly when that data is truthy. A non-JSON body is wrapped as `{message: text}`. |
| AiService.StatusRecoverable | src/services/ai-service.ts:118-122 | the digits between the prefix and the next space decode back to the status code |
| AiService.ExtractReply | src/services/ai-service.ts:125-133 | extraction throws exactly when the body is JSON `null`, with the null-property-read message |
| AiService.CascadeIsFirstMatch | src/services/ai-service.ts:129-166 | the reply comes from the first shape in the fixed order whose guard holds. The fallback message is used exactly when none holds. |
| AiService.ExtractReplyIsCascade | src/services/ai-service.ts:133-166 | the if-chain as written, dead branches included, equals the six-shape cascade. The `result.content` and `content[0].text` branches can never be taken. |
| AiService.ResultReturnedWhole | src/services/ai-service.ts:144-146 | a truthy `result` is returned as is, whatever it contains, once no earlier shape matches |
| AiService.EmptyContentSkipped | src/services/ai-service.ts:137-143 | an empty-string `content` is falsy, so it is passed over for `response` |
| AiService.OpenAiReply | src/services/ai-service.ts:133-135 | `choices[0].message.content` is the reply |
| AiService.MessageWithoutContent | src/services/ai-service.ts:133-135 | a first choice whose message lacks `content` yields undefined, not the fallback text |
| AiService.ResultObjectExample | src/services/ai-service.ts:144-153 | `{result: {content: "hi"}}` yields the whole object, not `"hi"` |
| AiService.UnknownShapeFallsBack | src/services/ai-service.ts:163-166 | a body matching no shape yields the fixed Chinese prefix followed by the serialised body |
| AiService.ErrorData | src/services/ai-service.ts:110-116 | a JSON error body is the error data as parsed. A body that is not JSON becomes a truthy object whose `message` is the raw text. |
| AiService.SendMessageToAI | src/services/ai-service.ts:12-173 | an incomplete configuration fails with the configuration message. A reply is returned only after a 2xx response whose body parses to a JSON value other than `null`. |
| AiService.SendMessageOutcomes | src/services/ai-service.ts:101-168 | case by case for one call:<br>• a transport error propagates unchanged;<br>• a non-2xx status throws the formatted message;<br>• a 2xx body that is not JSON throws the parser's error;<br>• `null` throws the property-read error;<br>• any other JSON value yields the cascade's reply. |
| ErrorHelper.Classify | src/components/chat/ErrorHelper.tsx:14-29 | the category of the first rule with a keyword in the text. Unknown exactly when no rule matches. |
| ErrorHelper.GetErrorType | src/components/chat/ErrorHelper.tsx:11-30 | the if-chain over the lower-cased message equals first-match classification over the five-row rule table |
| ErrorHelper.UnknownIffNoKeyword | src/components/chat/ErrorHelper.tsx:14-29 | UNKNOWN exactly when none of the ten keywords occurs in the lower-cased message |
| ErrorHelper.CaseInsensitive | src/components/chat/ErrorHelper.tsx:12 | messages equal up to ASCII case get the same category |
| ErrorHelper.RateLimitRow | src/components/chat/ErrorHelper.tsx:20-22 | a message containing "rate limit" and none of the earlier keywords is RATE_LIMIT |
| ErrorHelper.RateLimitMixedCase | src/components/chat/ErrorHelper.tsx:12-22 | "Rate LIMIT exceeded" is classified RATE_LIMIT |
| ErrorHelper.ModelRowFirst | src/components/chat/ErrorHelper.tsx:14-16 | a message holding a model keyword is MODEL_NOT_FOUND, whatever other keywords it holds |
| ErrorHelper.EarlierRowWins | src/components/chat/ErrorHelper.tsx:14-19 | a message containing "api key" and no model keyword is AUTH_ERROR, even when it also names a timeout or a rate limit |
| ErrorHelper.HelpFor | src/components/chat/ErrorHelper.tsx:33-97 | each category has a non-empty title. Content filtering has three suggestions and every other category four. |
| ErrorHelper.HelpTitlesDistinct | src/components/chat/ErrorHelper.tsx:33-97 | different categories get different titles |
| ErrorHelper.GetHelpMessage | src/components/chat/ErrorHelper.tsx:33-36 | the help shown is that of the message's category, and of no other category |
| SettingsPanel.Normalize | src/components/chat/SettingsPanel.tsx:45-55 | a missing model list becomes empty and nothing else changes |
| SettingsPanel.NormalizeIdempotent | src/components/chat/SettingsPanel.tsx:45-55 | normalising twice equals normalising once |
| SettingsPanel.Save | src/components/chat/SettingsPanel.tsx:58-75 | the edited settings are published. When a configuration is selected, every configuration with that id takes them and the others are untouched. |
| SettingsPanel.SaveIdempotent | src/components/chat/SettingsPanel.tsx:58-75 | saving again right after a save changes nothing |
| SettingsPanel.Published | src/app/page.tsx:102-112 | what the page publishes for an id the drawer hands it: the defaults for the empty id, the first configuration with a known id, and the current settings for an unknown id |
| SettingsPanel.PublishedIsPageSelect | src/app/page.tsx:102-112 | the drawer's account of the page's handler agrees with the page's own selection transition for every id |
| SettingsPanel.CreateConfig | src/components/chat/SettingsPanel.tsx:92-113 | a blank name is a no-op. Otherwise exactly one configuration, with the trimmed name and empty settings, is appended at the end, the earlier ones unchanged. It becomes selected, and the editor shows its empty settings. The page's handler sees the list from before the append: a fresh non-empty id keeps the page's settings, the empty id restores the defaults, and an id already in use loads the first older configuration with it. |
| SettingsPanel.SelectConfig | src/components/chat/SettingsPanel.tsx:116-122 | an unknown id changes nothing. A known id is selected, and the first configuration with it is loaded into the editor and published as the page's settings; the empty id publishes the defaults instead. |
| SettingsPanel.DeleteConfig | src/components/chat/SettingsPanel.tsx:125-137 | exactly the configurations with the id are removed, every other one kept as many times as it occurred, order kept. Deleting the selected one clears the selection, the editor and the page's settings. |
| SettingsPanel.DeleteUndoesCreate | src/components/chat/SettingsPanel.tsx:92-137 | deleting a configuration just created under a fresh id restores the list |
| SettingsPanel.AddModel | src/components/chat/SettingsPanel.tsx:140-162 | a blank name is a no-op. Otherwise a model with the trimmed name is appended. It becomes the current model only when there were no models and no current model. |
| SettingsPanel.DeleteModel | src/components/chat/SettingsPanel.tsx:165-186 | exactly the models with the id are removed. When the current model was the deleted one, the first remaining model takes its place, or none. |
| SettingsPanel.DeleteModelUndoesAdd | src/components/chat/SettingsPanel.tsx:140-186 | deleting the model just added under a fresh id restores the settings, unless the added name equals a current model that the add did not set |
| SettingsPanel.DeleteAddedCurrentName | src/components/chat/SettingsPanel.tsx:140-186 | when the added name equals the current model, add then delete under a fresh id restores the model list, but the current model becomes the first listed model's value, or none |
| SettingsPanel.DeleteFreshModel | src/components/chat/SettingsPanel.tsx:165-186 | deleting the last model, whose id no other model has, removes just it. When the current model was its value, the first remaining model takes its place, or none. |
| Page.SelectConfig | src/app/page.tsx:102-112 | the id is recorded. A missing or empty id restores the defaults, a known id loads the settings of the first configuration with it, and an unknown id keeps the settings. |
| Page.NewChat | src/app/page.tsx:120-130 | an empty conversation titled 新对话 goes first and becomes active; the rest of the list is unchanged |
| Page.DeleteConversation | src/app/page.tsx:138-146 | exactly the conversations with the id are removed, every other one kept as many times as it occurred, order kept. Deleting the active one activates the first remaining one, or none. |
| Page.DeleteUndoesNewChat | src/app/page.tsx:120-146 | deleting the chat just created under a fresh id restores the list and activates its successor |
| Page.StartEditTitle | src/app/page.tsx:149-155 | editing starts only for an existing conversation, pre-filled with the title of the first conversation with the id |
| Page.SaveTitle | src/app/page.tsx:158-170 | a non-blank title, trimmed, renames exactly the conversations with the id. A blank title renames nothing. Editing ends either way. |
| Page.FailureText | src/app/page.tsx:254-256 | the error text starts with the prefix `发送消息失败: ` exactly when an Error object was thrown, and its message follows the prefix unchanged |
| Page.History | src/app/page.tsx:220-222 | the earlier turns are those of the first conversation with the active id, or none when no conversation has it |
| Page.AppendToActive | src/app/page.tsx:236-246 | the active conversations gain the new turns at the end and the others are unchanged |
| Page.FirstMessageTitleNeverSet | src/app/page.tsx:189-202 | after the user's turn is appended, the "first message" test is always false |
| Page.NewChatKeepsDefaultTitle | src/app/page.tsx:199-246 | a new chat still has its default title after its first exchange |
| Page.SendMessage | src/app/page.tsx:178-275 | without an active conversation nothing changes. Otherwise the pre-send list gains the user turn and the reply or error turn in every active conversation, and loading ends. |
| Page.ReplyTurn | src/app/page.tsx:228-259 | a success is stored as an assistant turn with the reply text. A failure is flagged as an error, and an Error object's message follows the prefix 发送消息失败: . |
| Page.SendExtendsHistory | src/app/page.tsx:219-246 | the adapter sees the active conversation's turns before the send, and afterwards that conversation holds them followed by exactly the two new turns |
| Page.SendMessageTitled | src/app/page.tsx:201-214 | the intended send: as the send as written, except that a conversation that had no messages takes its first 30 characters (plus "...") as its title |
| Page.NewChatNamedByFirstMessage | src/app/page.tsx:201-214 | with the intended send, a new chat is named after its first message |
| Page.IncompleteConfigShowsAuthHelp | src/app/page.tsx:251-259 | an incomplete configuration produces an error turn that the classifier files under AUTH_ERROR |
| Page.ConfigErrorTurnIsAuth | src/services/ai-service.ts:17-19 | the error turn built from the configuration message contains "api key" once lower-cased, and no model keyword |
| ChatArea.HasValidConfig | src/components/chat/ChatArea.tsx:76 | the configuration is valid exactly when the adapter would build a request for every message and history |
| ChatArea.ValidConfigIffAdapterAccepts | src/components/chat/ChatArea.tsx:76 | the view allows sending exactly when the adapter would build a request |
| ChatArea.EmptySettingsNotValid | src/components/chat/SettingsPanel.tsx:17-24 | a freshly created configuration cannot be used until it is filled in |
| ChatArea.Submit | src/components/chat/ChatArea.tsx:43-49 | the input is sent, verbatim, exactly when it is non-blank, nothing is loading and the configuration is valid. The box is cleared only then. |
| ChatArea.WhitespaceNeverSent | src/components/chat/ChatArea.tsx:43-49 | an input made only of whitespace is never sent |
| ChatArea.CurrentConfig | src/components/chat/ChatArea.tsx:35-39 | the first configuration whose URL and key match, and none exactly when no configuration matches |
| ChatArea.CurrentConfigIgnoresOtherFields | src/components/chat/ChatArea.tsx:35-39 | only URL and key take part in the lookup |
| ChatArea.ModelChange | src/components/chat/ChatArea.tsx:60-65 | only the model changes |
| ChatArea.ConfigChange | src/components/chat/ChatArea.tsx:52-57 | an unknown id keeps the settings; a known one loads its settings |
| Text.ContainsIff | src/services/ai-service.ts:37 | `includes` holds exactly when the substring occurs at some index |
| Text.BlankIffAllWhitespace | src/components/chat/ChatArea.tsx:45 | `trim()` is empty exactly when every character is ECMAScript whitespace |
| Text.Trim | src/app/page.tsx:159 | the result is the input with maximal whitespace runs removed from both ends |
| Text.NatToDecimalRoundTrip | src/services/ai-service.ts:119 | the decimal rendering of a status code reads back as that number |
| Lists.Filter | src/app/page.tsx:139 | keeps exactly the elements satisfying the predicate, as a subsequence in the original order |
| Lists.FilterCount | src/components/chat/SettingsPanel.tsx:128 | every element satisfying the predicate is kept as many times as it occurs, and no other element is kept |

## Findings

| source | as written | input that shows it | evidently intended | confidence | as-written member | corrected member |
|---|---|---|---|---|---|---|
| src/app/page.tsx:201-214 | the "first message" test reads the list that already holds the user's turn, so it is never true. The later list update starts from the pre-send list anyway. | any first message sent in a chat just created with "new chat" | the new conversation is titled with the first 30 characters of its first message, plus "..." when longer | high (not executed) | Page.NewChatKeepsDefaultTitle | Page.SendMessageTitled |

## Left out

- `fetch` and `response.text()`/`response.json()` are one transport function
  from request to outcome (network error, or status, status text and body).
  HTTP itself is not modelled.
- `JSON.parse` and `JSON.stringify` are parameters. Number formatting, key
  escaping and the engine's SyntaxError text are not modelled.
- Console logging is not modelled because it has no effect on results.
- JSON numbers are mathematical reals. `NaN` and infinities are not
  modelled, so `parseFloat` results such as `NaN` in temperature or max
  tokens are out of scope.
- The input handler that runs `parseFloat` on temperature and max tokens is
  not modelled, because it depends on float parsing.
- `localStorage` loading and saving, `useEffect` persistence, and `confirm`
  dialogs are left out. The delete handlers are modelled on their confirmed
  branch.
- Rendering, the sidebar (`src/components/chat/Sidebar.tsx`), scrolling,
  textarea sizing and `next.config.js` are left out because they are
  presentation.
- `handleSelectConversation`, `handleCancelEditTitle` and `handleSaveConfigs`
  are single setters and are not modelled separately.
- Page.SendMessage: models the final state after the adapter answers. The
  intermediate list holding only the user's turn, the loading flag during
  the call, and the interleaving of two concurrent sends are not modelled.
- Page.SendMessage: takes the adapter's reply as a string. A non-string
  reply, such as an object under `content` or `result`, which the source
  stores verbatim in `content`, is not modelled.
- SettingsPanel.SelectConfig: the drawer's effect is not applied. That
  effect copies the page's settings, normalised, into the editable copy
  whenever the page's settings object changes. The editor keeps the
  selected configuration's settings as stored. The effect would leave
  something else in two cases:
  - when that configuration has no model list;
  - for the empty id, where the page publishes the defaults and, if its
    settings object changed, the effect replaces the editor's copy with
    them.
- SettingsPanel.CreateConfig: the same effect is not applied, and the
  editor keeps the empty settings. This matters only for an id already in
  use. There the page loads the older configuration's settings, and the
  effect would copy them into the editor. For the empty id the defaults
  equal the empty settings.
- SettingsPanel.DeleteModel: requires a model list to be present. The delete
  button is shown only for a non-empty list.
- Text.ToLower: covers ASCII letters only. `toLowerCase` also maps other
  characters through the Unicode tables, and some of them become ASCII
  letters: U+212A KELVIN SIGN lower-cases to `k`. So "API \u212AEY" is
  AUTH_ERROR in the source but UNKNOWN in the model.
- AiService.ExtractReply: the failure text for a `null` body is V8's
  `TypeError` wording (Chromium, Node.js). Other engines word that error
  differently, and the model fixes the one text.
- `Json.Prop` reads own properties of objects only. Inherited properties
  (`length`, prototype members) are not modelled. The client reads only
  provider field names.
- AiService.SendMessageToAI: its own contract states the configuration
  failure and what a success requires. The outcome of each case is stated
  in `AiService.SendMessageOutcomes`.
- `Page.TitleFrom` counts Unicode characters. JavaScript's `substring`
  counts UTF-16 code units.
