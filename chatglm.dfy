/** `ChatGLM`: chat completions through the Zhipu AI API, with a shared
    instance and a default system prompt. */
module ChatGlm {
  import opened Results

  const DefaultModel: string := "glm-4.5"
  const DefaultSystemMessage: string := "你是一个有帮助的AI助手。"
  const MissingKeyMessage: string := "API key不能为空，请提供有效的API密钥"
  const EmptyReply: string := "响应为空"
  /** The prefix of every exception `generate_response` raises. */
  const Failure: string := "ChatGLM API调用失败: "
  const KeyMarker: string := "..."
  const NoKey: string := "未设置"

  /** One entry of the message list sent to the API. */
  datatype Message = Message(role: string, content: string)

  /** The keyword arguments of `chat.completions.create`; an absent
      optional key is `None`. */
  datatype Request = Request(
    model: string,
    messages: seq<Message>,
    stream: bool,
    temperature: Option<real>,
    maxTokens: Option<int>)

  /** The `content` of the first choice's message: no such attribute,
      `None`, or a string. */
  datatype Content = Missing | Null | Text(text: string)

  datatype Choice = Choice(content: Content)

  /** What the API answers: the `choices` attribute when it has one, and
      `str(response)`. */
  datatype Completion = Completion(choices: Option<seq<Choice>>, repr: string)

  /** A call either answers or raises with the given text. */
  datatype ApiOutcome = Replied(completion: Completion) | Raised(cause: string)

  /** The Zhipu AI client, as an oracle. */
  type ChatApi = Request -> ApiOutcome

  /** `max_tokens` is sent only when it is truthy. */
  predicate Truthy(n: Option<int>) { n.Some? && n.value != 0 }

  /** The request `generate_response` sends. */
  function RequestFor(model: string, defaultSystem: string, user: string, system: Option<string>,
                      temperature: Option<real>, maxTokens: Option<int>, history: Option<seq<Message>>): (q: Request)
    ensures q.model == model && !q.stream
    ensures var h := if history.Some? then history.value else [];
      && |q.messages| == |h| + 2
      && q.messages[0] == Message("system", if system.Some? then system.value else defaultSystem)
      && q.messages[1..|q.messages| - 1] == h
      && q.messages[|q.messages| - 1] == Message("user", user)
    ensures q.temperature == temperature
    ensures q.maxTokens.Some? <==> Truthy(maxTokens)
    ensures q.maxTokens.Some? ==> q.maxTokens == maxTokens
  {
    var h := if history.Some? then history.value else [];
    var messages := [Message("system", if system.Some? then system.value else defaultSystem)] + h + [Message("user", user)];
    assert messages[1..|messages| - 1] == h;
    Request(model, messages, false, temperature, if Truthy(maxTokens) then maxTokens else None)
  }

  /** The text taken out of an answer: the first choice's content, "响应为空"
      when that content is empty or `None`, and `str(response)` when there
      is no choice or it has no content. */
  function ReplyText(c: Completion): (s: string)
    ensures c.choices.None? || |c.choices.value| == 0 ==> s == c.repr
    ensures c.choices.Some? && |c.choices.value| > 0 ==>
      match c.choices.value[0].content
      case Missing => s == c.repr
      case Null => s == EmptyReply
      case Text(t) => s == (if t == "" then EmptyReply else t)
  {
    if c.choices.Some? && |c.choices.value| > 0 then
      match c.choices.value[0].content
      case Text(t) => if t != "" then t else EmptyReply
      case Null => EmptyReply
      case Missing => c.repr
    else c.repr
  }

  /** The reply is never empty unless the answer itself prints as "". */
  lemma ReplyTextNonEmpty(c: Completion)
    requires c.repr != ""
    ensures ReplyText(c) != ""
  {
  }

  /** `self.api_key[:10] + "..." if self.api_key else "未设置"`. */
  function KeyPrefix(key: string): (p: string)
    ensures key == "" <==> p == NoKey
    ensures key != "" ==> |p| == (if |key| < 10 then |key| else 10) + |KeyMarker|
    ensures key != "" ==> p[..|p| - |KeyMarker|] == key[..|p| - |KeyMarker|] && p[|p| - |KeyMarker|..] == KeyMarker
  {
    if key != "" then
      var p := (if |key| < 10 then key else key[..10]) + KeyMarker;
      assert p[|p| - |KeyMarker|..] == KeyMarker;
      assert p != NoKey by { assert p[|p| - 1] == '.' && NoKey[|NoKey| - 1] != '.'; }
      p
    else NoKey
  }

  /** What `get_model_info()` reports, without the client library's version. */
  datatype ModelInfo = ModelInfo(model: string, apiKeyPrefix: string, defaultSystemMessage: string)

  class ChatGlm {
    const apiKey: string
    const model: string
    var defaultSystemMessage: string

    /** `ChatGLM(api_key, model)` once the key has been checked. */
    constructor (key: string, model0: string := DefaultModel)
      requires key != ""
      ensures apiKey == key && model == model0 && defaultSystemMessage == DefaultSystemMessage
    {
      apiKey := key;
      model := model0;
      defaultSystemMessage := DefaultSystemMessage;
    }

    /** `generate_response(user_message, system_message, temperature,
        max_tokens, conversation_history)`: builds the message list and the
        request step by step and asks the API once. */
    method GenerateResponse(api: ChatApi, user: string, system: Option<string> := None,
                            temperature: Option<real> := None, maxTokens: Option<int> := None,
                            history: Option<seq<Message>> := None)
      returns (r: Result<string, string>)
      ensures var o := api(RequestFor(model, defaultSystemMessage, user, system, temperature, maxTokens, history));
        && (o.Replied? ==> r == Ok(ReplyText(o.completion)))
        && (o.Raised? ==> r == Err(Failure + o.cause))
    {
      var messages: seq<Message> := [];
      var systemMessage := if system.None? then defaultSystemMessage else system.value;
      messages := messages + [Message("system", systemMessage)];
      if history.Some? && history.value != [] {
        messages := messages + history.value;
      }
      messages := messages + [Message("user", user)];
      ghost var h := if history.Some? then history.value else [];
      assert messages == [Message("system", systemMessage)] + h + [Message("user", user)];
      var request := Request(model, messages, false, None, None);
      if temperature.Some? {
        request := request.(temperature := temperature);
      }
      if maxTokens.Some? && maxTokens.value != 0 {
        request := request.(maxTokens := maxTokens);
      }
      assert request == RequestFor(model, defaultSystemMessage, user, system, temperature, maxTokens, history);
      var outcome := api(request);
      match outcome {
        case Replied(c) => r := Ok(ReplyText(c));
        case Raised(cause) => r := Err(Failure + cause);
      }
    }

    /** `set_default_system_message(message)`. */
    method SetDefaultSystemMessage(message: string)
      modifies this
      ensures defaultSystemMessage == message
    {
      defaultSystemMessage := message;
    }

    /** `get_model_info()`. */
    function Info(): (info: ModelInfo)
      reads this
      ensures info.model == model && info.defaultSystemMessage == defaultSystemMessage
      ensures info.apiKeyPrefix == KeyPrefix(apiKey)
    {
      ModelInfo(model, KeyPrefix(apiKey), defaultSystemMessage)
    }
  }

  /** `ChatGLM(api_key, model)`: an empty or missing key raises ValueError. */
  method NewChatGlm(key: Option<string>, model: string := DefaultModel) returns (r: Result<ChatGlm, string>)
    ensures r.Err? <==> key.None? || key.value == ""
    ensures r.Err? ==> r.error == MissingKeyMessage
    ensures r.Ok? ==>
      && fresh(r.value) && r.value.apiKey == key.value && r.value.model == model
      && r.value.defaultSystemMessage == DefaultSystemMessage
  {
    if key.None? || key.value == "" {
      return Err(MissingKeyMessage);
    }
    var g := new ChatGlm(key.value, model);
    r := Ok(g);
  }

  /** The class variable `_instance` behind `get_instance`. */
  class ChatGlmRegistry {
    var instance: Option<ChatGlm>

    constructor ()
      ensures instance == None
    {
      instance := None;
    }

    /** `ChatGLM.get_instance(api_key, model)`: the first successful call
        creates the instance; later calls return it and ignore their
        arguments. A first call with no key raises and creates nothing. */
    method GetInstance(key: Option<string>, model: string := DefaultModel) returns (r: Result<ChatGlm, string>)
      modifies this
      ensures old(instance).Some? ==> r == Ok(old(instance).value) && instance == old(instance)
      ensures old(instance).None? ==>
        && (r.Err? <==> key.None? || key.value == "")
        && (r.Err? ==> r.error == MissingKeyMessage && instance == None)
        && (r.Ok? ==>
              && fresh(r.value) && instance == Some(r.value)
              && r.value.apiKey == key.value && r.value.model == model)
    {
      if instance.None? {
        var created := NewChatGlm(key, model);
        if created.Err? {
          return Err(created.error);
        }
        instance := Some(created.value);
      }
      r := Ok(instance.value);
    }
  }
}
