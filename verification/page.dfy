/** The home page's state transitions: selecting a configuration, creating,
    deleting and renaming conversations, and the list updates around one
    send. Fresh ids and timestamps are parameters; the adapter's outcome is
    an input to the send transition. */
module Page {
  import opened Wrappers
  import opened Text
  import opened Types
  import opened Lists
  import AiService
  import ErrorHelper
  import Json

  const NewChatTitle: string := "新对话"
  const SendFailedPrefix: string := "发送消息失败: "
  const SendFailedGeneric: string := "发送消息失败，请检查您的API设置或网络连接。"

  datatype PageState = PageState(
    conversations: seq<Conversation>,
    active: Option<string>,
    settings: Settings,
    configs: seq<ApiConfig>,
    selectedConfigId: Option<string>,
    editingTitle: Option<string>,
    newTitle: string,
    isLoading: bool)

  /** `handleSelectConfig`: a missing (or empty) id restores the defaults;
      an id that exists loads the first such configuration's settings; an
      unknown id leaves the settings alone. The id is recorded in every case. */
  function SelectConfig(st: PageState, configId: Option<string>): (r: PageState)
    ensures r.selectedConfigId == configId
    ensures !IsSetId(configId) ==> r.settings == EmptySettings
    ensures IsSetId(configId) && (forall i :: 0 <= i < |st.configs| ==> st.configs[i].id != configId.value) ==>
              r.settings == st.settings
    ensures IsSetId(configId) && (exists i :: 0 <= i < |st.configs| && st.configs[i].id == configId.value) ==>
              exists i :: 0 <= i < |st.configs| && st.configs[i].id == configId.value
                          && (forall k :: 0 <= k < i ==> st.configs[k].id != configId.value)
                          && r.settings == st.configs[i].settings
    ensures r.(settings := st.settings, selectedConfigId := st.selectedConfigId) == st
  {
    var st' := st.(selectedConfigId := configId);
    if IsSetId(configId) then
      match FindFirst(st.configs, (c: ApiConfig) => c.id == configId.value)
      case Some(config) => st'.(settings := config.settings)
      case None => st'
    else st'.(settings := EmptySettings)
  }

  /** `handleNewChat`: one empty conversation goes in front and becomes
      the active one. */
  function NewChat(st: PageState, freshId: string, date: string): (r: PageState)
    ensures |r.conversations| == |st.conversations| + 1
    ensures r.conversations[0] == Conversation(freshId, NewChatTitle, date, [])
    ensures r.conversations[1..] == st.conversations
    ensures r.active == Some(freshId)
    ensures r.(conversations := st.conversations, active := st.active) == st
  {
    st.(conversations := [Conversation(freshId, NewChatTitle, date, [])] + st.conversations,
        active := Some(freshId))
  }

  /** `handleDeleteConversation`: exactly the conversations with the id
      go, every other one stays as often as it was there;
      when it was the active one, the first remaining conversation (or
      none) becomes active. */
  function DeleteConversation(st: PageState, id: string): (r: PageState)
    ensures forall i :: 0 <= i < |r.conversations| ==>
              r.conversations[i].id != id && r.conversations[i] in st.conversations
    ensures forall i :: 0 <= i < |st.conversations| && st.conversations[i].id != id ==>
              st.conversations[i] in r.conversations
    ensures forall c :: multiset(r.conversations)[c] == if c.id != id then multiset(st.conversations)[c] else 0
    ensures IsSubsequence(r.conversations, st.conversations)
    ensures st.active == Some(id) ==>
              r.active == (if r.conversations != [] then Some(r.conversations[0].id) else None)
    ensures st.active != Some(id) ==> r.active == st.active
    ensures r.(conversations := st.conversations, active := st.active) == st
  {
    var keep := (c: Conversation) => c.id != id;
    FilterCount(st.conversations, keep);
    var remaining := Filter(st.conversations, keep);
    var active :=
      if st.active == Some(id) then (if |remaining| > 0 then Some(remaining[0].id) else None)
      else st.active;
    st.(conversations := remaining, active := active)
  }

  /** Deleting the conversation a new chat just created restores the list,
      and the new chat's successor becomes active. */
  lemma DeleteUndoesNewChat(st: PageState, freshId: string, date: string)
    requires forall i :: 0 <= i < |st.conversations| ==> st.conversations[i].id != freshId
    ensures var r := DeleteConversation(NewChat(st, freshId, date), freshId);
            && r.conversations == st.conversations
            && r.active == (if st.conversations != [] then Some(st.conversations[0].id) else None)
  {
    var created := NewChat(st, freshId, date);
    var keep := (c: Conversation) => c.id != freshId;
    assert created.conversations[1..] == st.conversations;
    assert forall i :: 0 <= i < |st.conversations| ==> keep(st.conversations[i]);
    assert Filter(created.conversations, keep) == Filter(st.conversations, keep);
  }

  /** `handleStartEditTitle`: editing starts only for an existing
      conversation, pre-filled with its title. */
  function StartEditTitle(st: PageState, id: string): (r: PageState)
    ensures (forall i :: 0 <= i < |st.conversations| ==> st.conversations[i].id != id) ==> r == st
    ensures (exists i :: 0 <= i < |st.conversations| && st.conversations[i].id == id) ==>
              && r.editingTitle == Some(id)
              && exists i :: 0 <= i < |st.conversations| && st.conversations[i].id == id
                             && (forall k :: 0 <= k < i ==> st.conversations[k].id != id)
                             && r.newTitle == st.conversations[i].title
    ensures r.(editingTitle := st.editingTitle, newTitle := st.newTitle) == st
  {
    match FindFirst(st.conversations, (c: Conversation) => c.id == id)
    case None => st
    case Some(c) => st.(editingTitle := Some(id), newTitle := c.title)
  }

  /** `handleSaveTitle`: a non-blank edited title, trimmed, replaces the
      title of every conversation with the id; a blank one changes no
      title. Editing ends either way. */
  function SaveTitle(st: PageState, id: string): (r: PageState)
    ensures r.editingTitle == None
    ensures |r.conversations| == |st.conversations|
    ensures Trim(st.newTitle) == "" ==> r.conversations == st.conversations
    ensures Trim(st.newTitle) != "" ==>
              forall i :: 0 <= i < |st.conversations| ==>
                (st.conversations[i].id == id ==> r.conversations[i] == st.conversations[i].(title := Trim(st.newTitle)))
                && (st.conversations[i].id != id ==> r.conversations[i] == st.conversations[i])
    ensures r.(conversations := st.conversations, editingTitle := st.editingTitle) == st
  {
    var conversations :=
      if Trim(st.newTitle) != "" then
        var title := Trim(st.newTitle);
        UpdateWhere(st.conversations, (c: Conversation) => c.id == id, (c: Conversation) => c.(title := title))
      else st.conversations;
    st.(conversations := conversations, editingTitle := None)
  }

  // ---------------------------------------------------------------------
  // Sending a message

  /** What a failed call threw: an `Error` with its message, or some
      other value. */
  datatype Thrown = ErrorObject(message: string) | OtherValue

  /** The text of the error turn. */
  function FailureText(e: Thrown): (r: string)
    ensures (|SendFailedPrefix| <= |r| && r[..|SendFailedPrefix|] == SendFailedPrefix) <==> e.ErrorObject?
    ensures e.ErrorObject? ==> r[|SendFailedPrefix|..] == e.message
  {
    match e
    case ErrorObject(m) => SendFailedPrefix + m
    case OtherValue =>
      assert SendFailedGeneric[6] != SendFailedPrefix[6];
      SendFailedGeneric
  }

  /** Appends `turns` to every conversation with the active id. */
  function AppendToActive(conversations: seq<Conversation>, active: string, turns: seq<Message>): (r: seq<Conversation>)
    ensures |r| == |conversations|
    ensures forall i :: 0 <= i < |conversations| && conversations[i].id == active ==>
              r[i] == conversations[i].(messages := conversations[i].messages + turns)
    ensures forall i :: 0 <= i < |conversations| && conversations[i].id != active ==>
              r[i] == conversations[i]
  {
    UpdateWhere(conversations, (c: Conversation) => c.id == active,
                (c: Conversation) => c.(messages := c.messages + turns))
  }

  /** The earlier turns handed to the adapter: those of the first
      conversation with the active id before the new turn is added, or none. */
  function History(conversations: seq<Conversation>, active: string): (r: seq<Message>)
    ensures (forall i :: 0 <= i < |conversations| ==> conversations[i].id != active) ==> r == []
    ensures forall i :: 0 <= i < |conversations| && conversations[i].id == active
                        && (forall k :: 0 <= k < i ==> conversations[k].id != active) ==>
              r == conversations[i].messages
  {
    match FindFirst(conversations, (c: Conversation) => c.id == active)
    case Some(c) => c.messages
    case None => []
  }

  /** The source's "first message" test, made on the list that already
      holds the user's turn: the first active conversation has no messages. */
  predicate FirstMessageTest(updated: seq<Conversation>, active: string) {
    match FindFirst(updated, (c: Conversation) => c.id == active)
    case Some(c) => |c.messages| == 0
    case None => false
  }

  /** The title update guarded by that test never happens: once the user's
      turn is appended, every active conversation has a message. */
  lemma FirstMessageTitleNeverSet(conversations: seq<Conversation>, active: string, user: Message)
    ensures !FirstMessageTest(AppendToActive(conversations, active, [user]), active)
  {
    var updated := AppendToActive(conversations, active, [user]);
    var found := FindFirst(updated, (c: Conversation) => c.id == active);
    if found.Some? {
      var i :| 0 <= i < |updated| && updated[i] == found.value && updated[i].id == active;
      assert conversations[i].id == active;
    }
  }

  /** `handleSendMessage` once the adapter has answered: the list as it was
      before the send gains, in every active conversation, the user's turn
      followed by the reply or by an error turn. Nothing happens without an
      active conversation. */
  function SendMessage(st: PageState, content: string,
                       userId: string, userTime: string, replyId: string, replyTime: string,
                       outcome: Result<string, Thrown>): (r: PageState)
    ensures !IsSetId(st.active) ==> r == st
    ensures IsSetId(st.active) ==>
              && !r.isLoading
              && r.(conversations := st.conversations, isLoading := st.isLoading) == st
              && r.conversations == AppendToActive(st.conversations, st.active.value,
                                                   [Message(userId, User, content, userTime, None),
                                                    ReplyTurn(replyId, replyTime, outcome)])
  {
    if !IsSetId(st.active) then st
    else
      var user := Message(userId, User, content, userTime, None);
      var reply := ReplyTurn(replyId, replyTime, outcome);
      st.(conversations := AppendToActive(st.conversations, st.active.value, [user, reply]), isLoading := false)
  }

  /** The assistant turn for an outcome: the reply text, or the failure
      text flagged as an error. */
  function ReplyTurn(id: string, time: string, outcome: Result<string, Thrown>): (m: Message)
    ensures m.role == Assistant
    ensures outcome.Success? ==> m.content == outcome.value && m.isError == None
    ensures outcome.Failure? ==> m.isError == Some(true)
    ensures outcome.Failure? && outcome.error.ErrorObject? ==>
              |SendFailedPrefix| <= |m.content|
              && m.content[..|SendFailedPrefix|] == SendFailedPrefix
              && m.content[|SendFailedPrefix|..] == outcome.error.message
  {
    match outcome
    case Success(text) => Message(id, Assistant, text, time, None)
    case Failure(e) => Message(id, Assistant, FailureText(e), time, Some(true))
  }

  /** A new chat keeps its default title after its first exchange: the
      title update of the source never runs. */
  lemma NewChatKeepsDefaultTitle(st: PageState, chatId: string, date: string, content: string,
                                 userId: string, userTime: string, replyId: string, replyTime: string,
                                 outcome: Result<string, Thrown>)
    requires chatId != ""
    ensures var r := SendMessage(NewChat(st, chatId, date), content, userId, userTime, replyId, replyTime, outcome);
            r.conversations[0].title == NewChatTitle
  {
  }

  /** The title intended for a conversation whose first message is
      `content`: its first 30 characters, with "..." when it was longer. */
  function TitleFrom(content: string): (t: string)
    ensures |content| <= 30 ==> t == content
    ensures |content| > 30 ==> |t| == 33 && t[..30] == content[..30] && t[30..] == "..."
  {
    if |content| > 30 then content[..30] + "..." else content
  }

  /** The send as evidently intended: as `SendMessage`, except that a
      conversation that had no messages takes its title from the first one. */
  function SendMessageTitled(st: PageState, content: string,
                             userId: string, userTime: string, replyId: string, replyTime: string,
                             outcome: Result<string, Thrown>): (r: PageState)
    ensures !IsSetId(st.active) ==> r == st
    ensures IsSetId(st.active) ==>
              var sent := SendMessage(st, content, userId, userTime, replyId, replyTime, outcome);
              && |r.conversations| == |sent.conversations|
              && r.(conversations := sent.conversations) == sent
              && forall i :: 0 <= i < |st.conversations| ==>
                   r.conversations[i].messages == sent.conversations[i].messages
                   && r.conversations[i].title ==
                        (if st.conversations[i].id == st.active.value && st.conversations[i].messages == []
                         then TitleFrom(content) else st.conversations[i].title)
  {
    var sent := SendMessage(st, content, userId, userTime, replyId, replyTime, outcome);
    if !IsSetId(st.active) then st
    else
      var active := st.active.value;
      var user := Message(userId, User, content, userTime, None);
      var reply := ReplyTurn(replyId, replyTime, outcome);
      var titled := UpdateWhere(st.conversations, (c: Conversation) => c.id == active,
                                (c: Conversation) => c.(messages := c.messages + [user, reply],
                                                        title := if c.messages == [] then TitleFrom(content) else c.title));
      sent.(conversations := titled)
  }

  /** With the intended send, a new chat is named after its first message. */
  lemma NewChatNamedByFirstMessage(st: PageState, chatId: string, date: string, content: string,
                                   userId: string, userTime: string, replyId: string, replyTime: string,
                                   outcome: Result<string, Thrown>)
    requires chatId != ""
    ensures var r := SendMessageTitled(NewChat(st, chatId, date), content, userId, userTime, replyId, replyTime, outcome);
            r.conversations[0].title == TitleFrom(content)
  {
  }

  /** The history excludes the new turn: after the send, the first active
      conversation holds exactly the history, the user's turn and the reply. */
  lemma SendExtendsHistory(st: PageState, content: string,
                            userId: string, userTime: string, replyId: string, replyTime: string,
                            outcome: Result<string, Thrown>)
    requires IsSetId(st.active)
    requires exists i :: 0 <= i < |st.conversations| && st.conversations[i].id == st.active.value
    ensures var active := st.active.value;
            var r := SendMessage(st, content, userId, userTime, replyId, replyTime, outcome);
            var found := FindFirst(r.conversations, (c: Conversation) => c.id == active);
            && found.Some?
            && found.value.messages == History(st.conversations, active)
                                       + [Message(userId, User, content, userTime, None),
                                          ReplyTurn(replyId, replyTime, outcome)]
  {
    var active := st.active.value;
    var turns := [Message(userId, User, content, userTime, None), ReplyTurn(replyId, replyTime, outcome)];
    var cs := st.conversations;
    var rs := AppendToActive(cs, active, turns);
    var i := FirstWithId(cs, active);
    assert forall k :: 0 <= k < |cs| ==> rs[k].id == cs[k].id;
    FirstWithIdFound(cs, active, i);
    FirstWithIdFound(rs, active, i);
  }

  /** The index of the first conversation with the id. */
  lemma FirstWithId(cs: seq<Conversation>, id: string) returns (i: nat)
    requires exists k :: 0 <= k < |cs| && cs[k].id == id
    ensures i < |cs| && cs[i].id == id
    ensures forall k :: 0 <= k < i ==> cs[k].id != id
  {
    i := 0;
    while cs[i].id != id
      invariant i < |cs|
      invariant forall k :: 0 <= k < i ==> cs[k].id != id
      invariant exists k :: i <= k < |cs| && cs[k].id == id
      decreases |cs| - i
    {
      i := i + 1;
    }
  }

  /** `find` by id returns the conversation at the first index with that id. */
  lemma FirstWithIdFound(cs: seq<Conversation>, id: string, i: nat)
    requires i < |cs| && cs[i].id == id
    requires forall k :: 0 <= k < i ==> cs[k].id != id
    ensures FindFirst(cs, (c: Conversation) => c.id == id) == Some(cs[i])
    ensures History(cs, id) == cs[i].messages
  {
    var found := FindFirst(cs, (c: Conversation) => c.id == id);
    var j :| 0 <= j < |cs| && cs[j] == found.value && cs[j].id == id
             && forall k :: 0 <= k < j ==> cs[k].id != id;
    assert i == j;
  }

  /** A send with an incomplete configuration ends, whatever the network
      would have done, in an error turn whose help is the authentication
      advice: the configuration error mentions the API key. */
  lemma IncompleteConfigShowsAuthHelp(st: PageState, content: string,
                                      userId: string, userTime: string, replyId: string, replyTime: string,
                                      transport: AiService.Request -> AiService.HttpOutcome,
                                      parse: string -> Result<Json.Json, string>, stringify: Json.Json -> string)
    requires IsSetId(st.active)
    requires !AiService.ConfigComplete(st.settings)
    ensures var outcome := AiService.SendMessageToAI(content, History(st.conversations, st.active.value),
                                                     st.settings, transport, parse, stringify);
            && outcome == Failure(AiService.ConfigError)
            && var turn := ReplyTurn(replyId, replyTime, Failure(ErrorObject(outcome.error)));
               && turn.isError == Some(true)
               && ErrorHelper.GetErrorType(turn.content) == ErrorHelper.AuthError
  {
    ConfigErrorTurnIsAuth(SendFailedPrefix + AiService.ConfigError);
  }

  /** The error turn's text for the configuration error is classified as
      an authentication error. */
  lemma ConfigErrorTurnIsAuth(text: string)
    requires text == SendFailedPrefix + AiService.ConfigError
    ensures ErrorHelper.GetErrorType(text) == ErrorHelper.AuthError
  {
    var lower := ToLower(text);
    var i := |SendFailedPrefix| + 22;
    assert text[i..i + 7] == "API Key";
    assert lower[i..i + 7] == "api key";
    assert OccursAt(lower, "api key", i);
    ContainsIff(lower, "api key");
    forall k | 0 <= k < |lower|
      ensures lower[k] != 'o'
    {
      assert text[k] != 'o' && text[k] != 'O';
    }
    MissingCharExcludes(lower, "model does not exist", 'o');
    MissingCharExcludes(lower, "model not found", 'o');
  }
}
