/**
 * The `/api/chat` relay: resolve the provider from the model name, look up
 * the caller's stored key for it, reshape the conversation for that
 * provider's API, and pull the assistant's text out of its reply.
 * The three upstream APIs are a parameter (`Network`): the model does not
 * say what they answer, only what is sent to them and what is done with it.
 */
module Chat {
  import opened Wrappers
  import opened Js
  import opened Http
  import Providers

  /** One turn of the conversation as the client sends it. */
  datatype Message = Message(role: string, content: string)

  /** One entry of Google's `contents`: a role and its `parts`, each `{ text }`. */
  datatype Turn = Turn(role: string, parts: seq<string>)

  /** The JSON body of a chat request; either field may be missing. */
  datatype ChatBody = ChatBody(messages: Option<seq<Message>>, model: Option<string>)

  /** The provider tags the relay knows how to call. */
  const SupportedProviders: set<string> := {"openai", "anthropic", "google", "deepseek", "groq"}

  const OpenAIDefaultBaseUrl: string := "https://api.openai.com/v1"
  const DeepSeekBaseUrl: string := "https://api.deepseek.com/v1"
  const GroqBaseUrl: string := "https://api.groq.com/openai/v1"
  const AnthropicMaxTokens: nat := 4096

  /** The call the handler makes for the resolved provider. */
  datatype Request =
    | OpenAICompatible(baseUrl: string, apiKey: string, model: string, messages: seq<Message>)
    | AnthropicMessages(apiKey: string, model: string, maxTokens: nat, messages: seq<Message>)
    | GoogleGenerate(apiKey: string, model: string, contents: seq<Turn>)
    | Unsupported

  /** `completion.choices[i].message.content` of the OpenAI SDK's result. */
  datatype Completion = Completion(choices: seq<Choice>)
  datatype Choice = Choice(message: Option<ChoiceMessage>)
  datatype ChoiceMessage = ChoiceMessage(content: Option<string>)

  /** `data.content[i].text` of Anthropic's JSON reply. */
  datatype AnthropicReply = AnthropicReply(content: Option<seq<ContentBlock>>)
  datatype ContentBlock = ContentBlock(text: Option<string>)

  /** `data.candidates[i].content.parts[j].text` of Google's JSON reply. */
  datatype GoogleReply = GoogleReply(candidates: Option<seq<Candidate>>)
  datatype Candidate = Candidate(content: Option<CandidateContent>)
  datatype CandidateContent = CandidateContent(parts: Option<seq<Part>>)
  datatype Part = Part(text: Option<string>)

  /** An awaited upstream call: its decoded reply, or the message of what it threw. */
  datatype Attempt<+T> = Returned(value: T) | Threw(message: string)

  /** The upstream services: the OpenAI SDK (also used for DeepSeek and Groq), and the two `fetch` calls. */
  datatype Network = Network(
    openaiCompatible: Request -> Attempt<Completion>,
    anthropic: Request -> Attempt<AnthropicReply>,
    google: Request -> Attempt<GoogleReply>)

  /** The ordered substring checks that pick the provider from the model name. */
  function ResolveProvider(model: string): (provider: string)
    ensures provider in SupportedProviders
  {
    if Includes(model, "claude") then "anthropic"
    else if Includes(model, "gemini") then "google"
    else if Includes(model, "deepseek") then "deepseek"
    else if Includes(model, "llama") || Includes(model, "mixtral") then "groq"
    else "openai"
  }

  /** Each tag is chosen exactly when its check is the first one in the chain to succeed. */
  lemma ResolutionOrder(model: string)
    ensures ResolveProvider(model) == "anthropic" <==> Includes(model, "claude")
    ensures ResolveProvider(model) == "google" <==> !Includes(model, "claude") && Includes(model, "gemini")
    ensures ResolveProvider(model) == "deepseek" <==>
      !Includes(model, "claude") && !Includes(model, "gemini") && Includes(model, "deepseek")
    ensures ResolveProvider(model) == "groq" <==>
      !Includes(model, "claude") && !Includes(model, "gemini") && !Includes(model, "deepseek") &&
      (Includes(model, "llama") || Includes(model, "mixtral"))
    ensures ResolveProvider(model) == "openai" <==>
      !Includes(model, "claude") && !Includes(model, "gemini") && !Includes(model, "deepseek") &&
      !Includes(model, "llama") && !Includes(model, "mixtral")
  {
  }

  /**
   * Any name that mentions a provider's keyword goes to that provider, unless
   * a keyword checked earlier in the chain also occurs.
   */
  lemma ResolutionByKeyword(prefix: string, suffix: string)
    ensures ResolveProvider(prefix + "claude" + suffix) == "anthropic"
    ensures !Includes(prefix + "gemini" + suffix, "claude") ==>
      ResolveProvider(prefix + "gemini" + suffix) == "google"
    ensures (!Includes(prefix + "deepseek" + suffix, "claude") &&
             !Includes(prefix + "deepseek" + suffix, "gemini")) ==>
      ResolveProvider(prefix + "deepseek" + suffix) == "deepseek"
    ensures (!Includes(prefix + "llama" + suffix, "claude") && !Includes(prefix + "llama" + suffix, "gemini") &&
             !Includes(prefix + "llama" + suffix, "deepseek")) ==>
      ResolveProvider(prefix + "llama" + suffix) == "groq"
    ensures (!Includes(prefix + "mixtral" + suffix, "claude") && !Includes(prefix + "mixtral" + suffix, "gemini") &&
             !Includes(prefix + "mixtral" + suffix, "deepseek")) ==>
      ResolveProvider(prefix + "mixtral" + suffix) == "groq"
  {
    IncludesInfix(prefix, "claude", suffix);
    IncludesInfix(prefix, "gemini", suffix);
    IncludesInfix(prefix, "deepseek", suffix);
    IncludesInfix(prefix, "llama", suffix);
    IncludesInfix(prefix, "mixtral", suffix);
  }

  lemma ExampleGpt4o()
    ensures ResolveProvider("gpt-4o") == "openai"
  {
    assert !Includes("gpt-4o", "claude");
    assert !Includes("gpt-4o", "gemini");
    assert !Includes("gpt-4o", "deepseek");
    assert !Includes("gpt-4o", "llama");
    assert !Includes("gpt-4o", "mixtral");
  }

  lemma ExampleClaude()
    ensures ResolveProvider("claude-3-5-sonnet") == "anthropic"
  {
    assert "claude-3-5-sonnet" == "" + "claude" + "-3-5-sonnet";
    IncludesInfix("", "claude", "-3-5-sonnet");
  }

  lemma ExampleGemini()
    ensures ResolveProvider("gemini-1.5-pro") == "google"
  {
    assert !Includes("gemini-1.5-pro", "claude");
    assert "gemini-1.5-pro" == "" + "gemini" + "-1.5-pro";
    IncludesInfix("", "gemini", "-1.5-pro");
  }

  lemma ExampleDeepSeek()
    ensures ResolveProvider("deepseek-chat") == "deepseek"
  {
    assert !Includes("deepseek-chat", "claude");
    assert !Includes("deepseek-chat", "gemini");
    assert "deepseek-chat" == "" + "deepseek" + "-chat";
    IncludesInfix("", "deepseek", "-chat");
  }

  lemma ExampleLlama()
    ensures ResolveProvider("llama-3.1-70b") == "groq"
  {
    assert !Includes("llama-3.1-70b", "claude");
    assert !Includes("llama-3.1-70b", "gemini");
    assert !Includes("llama-3.1-70b", "deepseek");
    assert "llama-3.1-70b" == "" + "llama" + "-3.1-70b";
    IncludesInfix("", "llama", "-3.1-70b");
  }

  lemma ExampleMixtral()
    ensures ResolveProvider("mixtral-8x7b") == "groq"
  {
    assert !Includes("mixtral-8x7b", "claude");
    assert !Includes("mixtral-8x7b", "gemini");
    assert !Includes("mixtral-8x7b", "deepseek");
    assert !Includes("mixtral-8x7b", "llama");
    assert "mixtral-8x7b" == "" + "mixtral" + "-8x7b";
    IncludesInfix("", "mixtral", "-8x7b");
  }

  lemma ExampleClaudeLlama()
    ensures ResolveProvider("claude-llama") == "anthropic"
  {
    assert "claude-llama" == "" + "claude" + "-llama";
    IncludesInfix("", "claude", "-llama");
  }

  /** Roles renamed for Anthropic and Google: `user` stays, every other role becomes `other`. */
  function RenameRoles(messages: seq<Message>, other: string): (r: seq<Message>)
    ensures |r| == |messages|
    ensures forall i :: 0 <= i < |r| ==> r[i].content == messages[i].content
    ensures forall i :: 0 <= i < |r| ==>
      r[i].role == (if messages[i].role == "user" then "user" else other)
  {
    if messages == [] then []
    else
      var m := messages[0];
      [Message(if m.role == "user" then "user" else other, m.content)] + RenameRoles(messages[1..], other)
  }

  /** Google's `contents`: one turn per message, its role renamed, its text as the single part. */
  function GoogleContents(messages: seq<Message>): (r: seq<Turn>)
    ensures |r| == |messages|
    ensures forall i :: 0 <= i < |r| ==>
      r[i].parts == [messages[i].content] &&
      r[i].role == (if messages[i].role == "user" then "user" else "model")
  {
    if messages == [] then []
    else
      var m := messages[0];
      [Turn(if m.role == "user" then "user" else "model", [m.content])] + GoogleContents(messages[1..])
  }

  /** The call the `switch (provider)` builds from the stored key record. */
  function BuildRequest(provider: string, model: string, messages: seq<Message>, rec: Providers.KeyRecord): (req: Request)
    ensures req.Unsupported? <==> provider !in SupportedProviders
    ensures req.OpenAICompatible? <==> provider in {"openai", "deepseek", "groq"}
    ensures !req.Unsupported? ==> req.apiKey == rec.apiKey && req.model == model
    ensures req.OpenAICompatible? ==> req.messages == messages
    ensures provider == "openai" ==> req.baseUrl == OrElse(rec.baseUrl, OpenAIDefaultBaseUrl)
    ensures provider == "deepseek" ==> req.baseUrl == DeepSeekBaseUrl
    ensures provider == "groq" ==> req.baseUrl == GroqBaseUrl
    ensures provider == "anthropic" ==>
      req == AnthropicMessages(rec.apiKey, model, AnthropicMaxTokens, RenameRoles(messages, "assistant"))
    ensures provider == "google" ==> req == GoogleGenerate(rec.apiKey, model, GoogleContents(messages))
  {
    match provider
    case "openai" => OpenAICompatible(OrElse(rec.baseUrl, OpenAIDefaultBaseUrl), rec.apiKey, model, messages)
    case "anthropic" => AnthropicMessages(rec.apiKey, model, AnthropicMaxTokens, RenameRoles(messages, "assistant"))
    case "google" => GoogleGenerate(rec.apiKey, model, GoogleContents(messages))
    case "deepseek" => OpenAICompatible(DeepSeekBaseUrl, rec.apiKey, model, messages)
    case "groq" => OpenAICompatible(GroqBaseUrl, rec.apiKey, model, messages)
    case _ => Unsupported
  }

  /** `completion.choices[0]?.message?.content || ''` */
  function CompletionText(c: Completion): (text: string)
    ensures text == "" || (|c.choices| > 0 && c.choices[0].message == Some(ChoiceMessage(Some(text))))
    ensures |c.choices| > 0 && c.choices[0].message.Some? && c.choices[0].message.value.content.Some? ==>
      text == c.choices[0].message.value.content.value
  {
    if |c.choices| > 0 && c.choices[0].message.Some? then OrElse(c.choices[0].message.value.content, "")
    else ""
  }

  /** `data.content?.[0]?.text || ''` */
  function AnthropicText(data: AnthropicReply): (text: string)
    ensures text == "" ||
      (data.content.Some? && |data.content.value| > 0 && data.content.value[0].text == Some(text))
    ensures data.content.Some? && |data.content.value| > 0 && data.content.value[0].text.Some? ==>
      text == data.content.value[0].text.value
  {
    if data.content.Some? && |data.content.value| > 0 then OrElse(data.content.value[0].text, "")
    else ""
  }

  /** The first part's text of the first candidate, if the whole path is there. */
  function FirstCandidatePart(data: GoogleReply): Option<Part> {
    if data.candidates.Some? && |data.candidates.value| > 0 then
      var content := data.candidates.value[0].content;
      if content.Some? && content.value.parts.Some? && |content.value.parts.value| > 0 then
        Some(content.value.parts.value[0])
      else None
    else None
  }

  /** `data.candidates?.[0]?.content?.parts?.[0]?.text || ''` */
  function GoogleText(data: GoogleReply): (text: string)
    ensures text == "" || FirstCandidatePart(data) == Some(Part(Some(text)))
    ensures FirstCandidatePart(data).Some? && FirstCandidatePart(data).value.text.Some? ==>
      text == FirstCandidatePart(data).value.text.value
  {
    match FirstCandidatePart(data)
    case Some(part) => OrElse(part.text, "")
    case None => ""
  }

  /** The `catch` block: the thrown message, or a generic one when it is empty. */
  function Failed(message: string): (r: Response<string>)
    ensures r.Error? && r.status == 500
    ensures r.message == (if message != "" then message else "Failed to process chat")
  {
    Error(500, OrElse(Some(message), "Failed to process chat"))
  }

  /** Make the call and turn what comes back into `{ content }`. */
  function Call(req: Request, net: Network): (r: Response<string>)
    ensures r == Error(400, "Unsupported provider") <==> req.Unsupported?
    ensures r.Error? && !req.Unsupported? ==> r.status == 500
    ensures req.OpenAICompatible? ==>
      match net.openaiCompatible(req)
      case Returned(c) => r == Ok(CompletionText(c))
      case Threw(m) => r == Failed(m)
    ensures req.AnthropicMessages? ==>
      match net.anthropic(req)
      case Returned(d) => r == Ok(AnthropicText(d))
      case Threw(m) => r == Failed(m)
    ensures req.GoogleGenerate? ==>
      match net.google(req)
      case Returned(d) => r == Ok(GoogleText(d))
      case Threw(m) => r == Failed(m)
  {
    match req
    case OpenAICompatible(_, _, _, _) =>
      (match net.openaiCompatible(req)
       case Returned(c) => Ok(CompletionText(c))
       case Threw(m) => Failed(m))
    case AnthropicMessages(_, _, _, _) =>
      (match net.anthropic(req)
       case Returned(d) => Ok(AnthropicText(d))
       case Threw(m) => Failed(m))
    case GoogleGenerate(_, _, _) =>
      (match net.google(req)
       case Returned(d) => Ok(GoogleText(d))
       case Threw(m) => Failed(m))
    case Unsupported => Error(400, "Unsupported provider")
  }

  /** The text of the 400 reply when the caller has no key for the resolved provider. */
  function NoKeyMessage(provider: string): (message: string)
    ensures Includes(message, provider)
  {
    IncludesInfix("No API key configured for ", provider, ". Please add your API key in settings.");
    "No API key configured for " + provider + ". Please add your API key in settings."
  }

  /** POST /api/chat. */
  function Post(session: Option<UserId>, body: ChatBody, keys: Providers.KeyTable, net: Network): (r: Response<string>)
    ensures !SignedIn(session) ==> r == Error(401, "Unauthorized")
    ensures SignedIn(session) && (body.messages.None? || !Truthy(body.model)) ==>
      r == Error(400, "Messages and model are required")
    ensures SignedIn(session) && body.messages.Some? && Truthy(body.model) ==>
      var provider := ResolveProvider(body.model.value);
      ((session.value, provider) !in keys <==> r == Error(400, NoKeyMessage(provider))) &&
      ((session.value, provider) in keys ==>
        r == Call(BuildRequest(provider, body.model.value, body.messages.value, keys[(session.value, provider)]), net))
    ensures r != Error(400, "Unsupported provider")
  {
    if !SignedIn(session) then Unauthorized()
    else if body.messages.None? || !Truthy(body.model) then Error(400, "Messages and model are required")
    else
      var user, model := session.value, body.model.value;
      var provider := ResolveProvider(model);
      if (user, provider) !in keys then Error(400, NoKeyMessage(provider))
      else Call(BuildRequest(provider, model, body.messages.value, keys[(user, provider)]), net)
  }

  /** The session and body checks come before the key lookup and the upstream call: neither influences them. */
  lemma EarlyRejectionsIgnoreStore(session: Option<UserId>, body: ChatBody,
                                   keys: Providers.KeyTable, net: Network,
                                   keys': Providers.KeyTable, net': Network)
    requires !SignedIn(session) || body.messages.None? || !Truthy(body.model)
    ensures Post(session, body, keys, net) == Post(session, body, keys', net')
    ensures Post(session, body, keys, net).Error? && Post(session, body, keys, net).status in {400, 401}
  {
  }

  /** After the caller saves a key for the provider a model resolves to, chatting with it sends that key. */
  lemma ChatUsesSavedKey(rows: Providers.KeyTable, user: UserId, model: string, messages: seq<Message>,
                         apiKey: string, baseUrl: Option<string>, freshId: nat, now: nat, net: Network)
    requires user != "" && model != ""
    ensures var provider := ResolveProvider(model);
      var saved := Providers.Upsert(rows, user, provider, apiKey, baseUrl, freshId, now);
      var req := BuildRequest(provider, model, messages, saved[(user, provider)]);
      req.apiKey == apiKey &&
      Post(Some(user), ChatBody(Some(messages), Some(model)), saved, net) == Call(req, net)
  {
  }

  /** After the caller deletes that key, the same chat is refused with a message naming the provider. */
  lemma ChatAfterDelete(rows: Providers.KeyTable, user: UserId, model: string, messages: seq<Message>, net: Network)
    requires user != "" && model != ""
    ensures var provider := ResolveProvider(model);
      var r := Post(Some(user), ChatBody(Some(messages), Some(model)), rows - {(user, provider)}, net);
      r.Error? && r.status == 400 && Includes(r.message, provider)
  {
  }
}
