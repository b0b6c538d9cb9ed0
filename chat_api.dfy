/**
 * The chat endpoint: the conversation so far, with an optional product, is
 * forwarded to a chat-completion service behind a fixed Japanese system
 * prompt, and the service's answer (or a fixed fallback) is returned as the
 * reply. The service's answer is an input; the message list sent to it is an
 * output.
 */
module ChatApi {
  import opened Js
  import opened Text
  import opened Session

  datatype ChatMessage = ChatMessage(role: string, content: string)

  /** The optional product the conversation is about. */
  datatype ProductInfo = ProductInfo(name: Option<string>, brand: Option<string>, model: Option<string>)

  /** The body: `messages` is `None` when absent or null. */
  datatype ChatBody = ChatBody(messages: Option<seq<ChatMessage>>, productInfo: Option<ProductInfo>)

  /** A message as sent to the completion service. */
  datatype OutMessage = OutMessage(role: string, content: string)

  /** The completion call: it threw (fetch or JSON), answered non-OK, or answered with optional content. */
  datatype Completion = Threw | NotOk | Answered(content: Option<string>)

  const ContextHeader: string := "【対象製品】"

  const PromptHead: string := "あなたは「replia」というAI家電サポートアシスタントです。日本の家電製品のトラブル解決を専門としています。\n"

  const PromptTail: string :=
    "\n\n以下のガイドラインで回答してください：\n"
    + "- 日本語で丁寧かつ簡潔に回答する\n"
    + "- ユーザーが自分で試せる具体的な手順を①②③のように番号で説明する\n"
    + "- エラーコードや症状に応じた具体的なアドバイスをする\n"
    + "- 解決しない場合は「🔧 修理依頼」ボタンを使うよう案内する\n"
    + "- 500文字以内で回答する\n"
    + "- 同じ答えを繰り返さず、会話の流れに合わせて回答を変える"

  const NotConfiguredReply: string := "AIサービスの設定が完了していません。"
  const TemporaryProblemReply: string := "AIサービスに一時的な問題が発生しました。しばらくしてから再試行してください。"
  const DefaultReply: string := "ご質問を承りました。"
  const ErrorReply: string := "エラーが発生しました。もう一度お試しください。"

  /** `productContext`: empty unless the product has a non-empty name. */
  function ProductContext(info: Option<ProductInfo>): (r: string)
    ensures r == "" <==> !(info.Some? && TruthyString(info.value.name))
  {
    if info.Some? && TruthyString(info.value.name) then
      ContextHeader + info.value.brand.GetOr("") + " " + info.value.name.value + " " + info.value.model.GetOr("")
    else ""
  }

  /**
   * A named product's context is the header followed by the brand (or ""),
   * the name and the model (or ""), separated by single spaces.
   */
  lemma ProductContextShape(info: ProductInfo)
    requires TruthyString(info.name)
    ensures var r := ProductContext(Some(info));
      var brand := info.brand.GetOr("");
      var model := info.model.GetOr("");
      && StartsWith(r, ContextHeader)
      && OccursAt(r, brand, |ContextHeader|)
      && r[|ContextHeader| + |brand|] == ' '
      && OccursAt(r, info.name.value, |ContextHeader| + |brand| + 1)
      && r[|ContextHeader| + |brand| + 1 + |info.name.value|] == ' '
      && OccursAt(r, model, |r| - |model|)
  {
    var r := ProductContext(Some(info));
    var brand := info.brand.GetOr("");
    var name := info.name.value;
    var model := info.model.GetOr("");
    assert r == ContextHeader + brand + " " + name + " " + model;
    var i := |ContextHeader| + |brand|;
    assert r[|ContextHeader|..i] == brand;
    assert r[i + 1..i + 1 + |name|] == name;
    assert r[|r| - |model|..] == model;
  }

  function SystemPrompt(context: string): string {
    PromptHead + context + PromptTail
  }

  /**
   * The product context sits between the fixed introduction and the fixed
   * guidelines, so different contexts give different system prompts.
   */
  lemma SystemPromptInjective(a: string, b: string)
    requires SystemPrompt(a) == SystemPrompt(b)
    ensures a == b
  {
    var h := |PromptHead|;
    assert |a| == |b|;
    assert SystemPrompt(a)[h..h + |a|] == a;
    assert SystemPrompt(b)[h..h + |b|] == b;
  }

  /** The role forwarded for a message: "assistant" is kept, anything else becomes "user". */
  function ForwardedRole(role: string): (r: string)
    ensures r == "assistant" || r == "user"
    ensures r == "assistant" <==> role == "assistant"
  {
    if role == "assistant" then "assistant" else "user"
  }

  /**
   * The outgoing list: the system prompt, then every input message in order
   * with its content kept and its role mapped.
   */
  function Outgoing(prompt: string, messages: seq<ChatMessage>): (r: seq<OutMessage>)
    ensures |r| == |messages| + 1
    ensures r[0] == OutMessage("system", prompt)
    ensures forall i :: 0 <= i < |messages| ==>
      r[i + 1].content == messages[i].content && r[i + 1].role == ForwardedRole(messages[i].role)
  {
    [OutMessage("system", prompt)]
      + seq(|messages|, i requires 0 <= i < |messages| => OutMessage(ForwardedRole(messages[i].role), messages[i].content))
  }

  /** Only the first outgoing message is a system message, whatever roles the client sent. */
  lemma OnlyFirstIsSystem(prompt: string, messages: seq<ChatMessage>)
    ensures var r := Outgoing(prompt, messages);
      forall i :: 0 <= i < |r| ==> (r[i].role == "system" <==> i == 0)
  {
    var r := Outgoing(prompt, messages);
    forall i | 1 <= i < |r| ensures r[i].role != "system" {
      assert r[i].role == ForwardedRole(messages[i - 1].role);
    }
  }

  datatype Response = Unauthorized | MessagesRequired | Reply(text: string)

  function StatusCode(r: Response): int {
    match r
    case Unauthorized => 401
    case MessagesRequired => 400
    case Reply(_) => 200
  }

  /** The reply, and the message list sent to the completion service if the call was made. */
  datatype Outcome = Outcome(response: Response, sent: Option<seq<OutMessage>>)

  /** POST /api/chat; `body` is `None` when it could not be read. */
  function Post(auth: Auth, body: Option<ChatBody>, apiKey: Option<string>, completion: Completion): Outcome {
    if !auth.SignedIn? then Outcome(Unauthorized, None)
    else if body.None? then Outcome(Reply(ErrorReply), None)
    else if body.value.messages.None? || body.value.messages.value == [] then Outcome(MessagesRequired, None)
    else if !TruthyString(apiKey) then Outcome(Reply(NotConfiguredReply), None)
    else
      var sent := Outgoing(SystemPrompt(ProductContext(body.value.productInfo)), body.value.messages.value);
      var reply :=
        match completion
        case Threw => ErrorReply
        case NotOk => TemporaryProblemReply
        case Answered(content) => content.GetOr(DefaultReply);
      Outcome(Reply(reply), Some(sent))
  }

  /**
   * The outcomes: 401 without a session, 400 without messages, and otherwise
   * always a 200 reply; the completion service is called only with a key and
   * messages, and then with the system prompt followed by the messages.
   */
  lemma PostOutcomes(auth: Auth, body: Option<ChatBody>, apiKey: Option<string>, completion: Completion)
    ensures var o := Post(auth, body, apiKey, completion);
      && (o.response == Unauthorized <==> !auth.SignedIn?)
      && (StatusCode(o.response) == 200 || StatusCode(o.response) == 400 || StatusCode(o.response) == 401)
      && (auth.SignedIn? && body.Some? ==>
            (o.response == MessagesRequired <==> body.value.messages.None? || body.value.messages.value == []))
      && (o.sent.Some? <==> auth.SignedIn? && body.Some? && body.value.messages.Some?
                            && body.value.messages.value != [] && TruthyString(apiKey))
      && (o.sent.Some? ==>
            && o.sent.value == Outgoing(SystemPrompt(ProductContext(body.value.productInfo)), body.value.messages.value)
            && |o.sent.value| == |body.value.messages.value| + 1)
  {
  }

  /**
   * The reply once the service is called: the answer's content when present
   * (even an empty one), the default text when absent, and a fixed message
   * for a non-OK answer or a thrown error.
   */
  lemma ReplyMapping(user: User, b: ChatBody, key: string, completion: Completion)
    requires b.messages.Some? && b.messages.value != [] && key != ""
    ensures var r := Post(SignedIn(user), Some(b), Some(key), completion).response;
      && (completion == Threw ==> r == Reply(ErrorReply))
      && (completion == NotOk ==> r == Reply(TemporaryProblemReply))
      && (completion == Answered(None) ==> r == Reply(DefaultReply))
      && (completion.Answered? && completion.content.Some? ==> r == Reply(completion.content.value))
  {
  }

  /** Without a key the caller gets the not-configured message as an ordinary reply. */
  lemma MissingKeyReply(user: User, b: ChatBody, apiKey: Option<string>, completion: Completion)
    requires b.messages.Some? && b.messages.value != [] && !TruthyString(apiKey)
    ensures Post(SignedIn(user), Some(b), apiKey, completion) == Outcome(Reply(NotConfiguredReply), None)
  {
  }
}
