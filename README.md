# zanagent API handlers in Dafny

This project models the logic of three Next.js route handlers in zanagent, a
"bring your own key" LLM dashboard:

- **`/api/chat`** (`chat.dfy`, module `Chat`). The handler checks the session and
  the body. It resolves a provider tag from the model name with an ordered chain of
  substring checks. It then looks up the caller's stored key for that provider, or
  fails with a 400 that names the provider. It reshapes the conversation for
  the provider's API and pulls the reply text out of the provider's response
  envelope, using `''` when that text is missing.
  The three upstream APIs are a parameter of type `Network`, a function per wire
  format. The model states what is sent to them and what is done with their answer.
- **`/api/providers`** (`providers.dfy`, module `Providers`). The credential table
  is a class `KeyStore` over a `map<(UserId, string), KeyRecord>`. The map key is
  the unique `userId_provider` pair. POST upserts an entry, DELETE removes one
  and fails with a 500 when it is absent, and GET lists the caller's entries
  without the secret.
- **`/api/agents`** (`agents.dfy`, module `Agents`). `Validate` models the
  `agentSchema` check. It requires a non-empty name, keeps temperature in [0, 1]
  and fills in the defaults `gpt-4o`, `openai` and `0.7`. The class
  `AgentTable` holds the rows as a `seq`. POST appends one row owned by the
  caller. GET filters by owner and sorts newest first.

Shared pieces:
- `http.dfy` holds the response shape and the session check. `session?.user?.id`
  becomes an `Option<UserId>`, and an empty id counts as signed out, as it is falsy.
- `js.dfy` holds the JavaScript semantics the handlers rely on: string
  truthiness, `x || fallback`, `x || null` and `String.prototype.includes`.
- `wrappers.dfy` holds `Option` and `Result`.

The chat handler reads the same table that the providers handler writes.
`Chat.ChatUsesSavedKey` and `Chat.ChatAfterDelete` connect the two handlers.

Two details where the model follows the handler code:
- The chat message has only `role` and `content`. The client strips `timestamp`
  before sending (src/app/(dashboard)/chat/page.tsx:73-76).
- The chat key lookup does not look at `isActive`. Any stored row is used.

## Model

| member | source | states |
|---|---|---|
| Js.Includes | src/app/api/chat/route.ts:22-25 | `model.includes(k)`, computed by trying each offset character by character, holds exactly when `k` occurs in the model name at some offset |
| Js.OrNull | src/app/api/providers/route.ts:56 | the `or null` default keeps a non-empty string and turns a missing or empty one into null |
| Js.OrElse | src/app/api/chat/route.ts:51 | the `or fallback` default is the value when it is a non-empty string, else the fallback |
| Chat.ResolveProvider | src/app/api/chat/route.ts:21-25 | the resolved tag is always one of openai, anthropic, google, deepseek, groq |
| Chat.ResolutionOrder | src/app/api/chat/route.ts:21-25 | each tag is chosen exactly when its check is the first in the chain to succeed (claude, then gemini, then deepseek, then llama or mixtral, else openai) |
| Chat.ResolutionByKeyword | src/app/api/chat/route.ts:21-25 | for every prefix and suffix: a name containing `claude` goes to anthropic; one containing `gemini`, `deepseek`, `llama` or `mixtral` goes to google, deepseek, groq or groq unless a keyword checked earlier also occurs |
| Chat.ExampleGpt4o | src/app/api/chat/route.ts:21-25 | `gpt-4o` resolves to openai |
| Chat.ExampleClaude | src/app/api/chat/route.ts:21-25 | `claude-3-5-sonnet` resolves to anthropic |
| Chat.ExampleGemini | src/app/api/chat/route.ts:21-25 | `gemini-1.5-pro` resolves to google |
| Chat.ExampleDeepSeek | src/app/api/chat/route.ts:21-25 | `deepseek-chat` resolves to deepseek |
| Chat.ExampleLlama | src/app/api/chat/route.ts:21-25 | `llama-3.1-70b` resolves to groq |
| Chat.ExampleMixtral | src/app/api/chat/route.ts:21-25 | `mixtral-8x7b` resolves to groq |
| Chat.ExampleClaudeLlama | src/app/api/chat/route.ts:21-25 | a name with both `claude` and `llama` resolves to anthropic, because the claude check comes first |
| Chat.RenameRoles | src/app/api/chat/route.ts:76-79 | same length and order, each content unchanged, role `user` kept and every other role renamed |
| Chat.GoogleContents | src/app/api/chat/route.ts:95-98 | one turn per message in order, role `user` kept and every other role becomes `model`, the content as the single part |
| Chat.BuildRequest | src/app/api/chat/route.ts:47-141 | openai, deepseek and groq use the OpenAI-compatible call with messages passed through; openai's base URL is the stored one when non-empty, else the default; deepseek and groq use their fixed URLs; anthropic gets `max_tokens` 4096 and renamed roles; google gets `contents`; the stored key and the model are always sent; any other tag is unsupported |
| Chat.CompletionText | src/app/api/chat/route.ts:60 | the reply is the first choice's message content when present, and `''` otherwise |
| Chat.AnthropicText | src/app/api/chat/route.ts:83 | the reply is the first content block's text when present, and `''` otherwise |
| Chat.GoogleText | src/app/api/chat/route.ts:103 | the reply is the text of the first candidate's first part when the whole path is present, and `''` otherwise |
| Chat.Failed | src/app/api/chat/route.ts:144-149 | a thrown error becomes a 500 carrying its message, or `Failed to process chat` when the message is empty |
| Chat.Call | src/app/api/chat/route.ts:47-149 | for each request kind, a returned envelope gives a success carrying that provider's extracted text (`{ content: reply }`), and a throw gives the 500 built from its message; only an unsupported tag gives the 400 `Unsupported provider` |
| Chat.NoKeyMessage | src/app/api/chat/route.ts:37-42 | the missing-key message contains the provider name |
| Chat.Post | src/app/api/chat/route.ts:7-151 | no session gives 401; a missing `messages` or a missing or empty `model` gives 400; a missing key for (user, resolved provider) gives, and is the only cause of, the 400 naming the provider; otherwise the request for that key is sent; `Unsupported provider` is never returned |
| Chat.EarlyRejectionsIgnoreStore | src/app/api/chat/route.ts:9-18 | the 401 and 400 answers do not depend on the key table or on the upstream services |
| Chat.ChatUsesSavedKey | src/app/api/chat/route.ts:28-42 | after the providers POST saves a key for the resolved provider, the chat request carries that key |
| Chat.ChatAfterDelete | src/app/api/chat/route.ts:28-42 | after that key is deleted, the chat is refused with a 400 naming the provider |
| Providers.Listing | src/app/api/providers/route.ts:14-23 | the listing holds exactly one projected entry for each of the caller's rows, and nothing else |
| Providers.Upsert | src/app/api/providers/route.ts:47-66 | the table then has an entry for (user, provider) holding the new key and base URL with `isActive` true; an existing row keeps its id and creation time; a new row gets the fresh id; every other entry is unchanged and no other key appears |
| Providers.UpsertIdempotent | src/app/api/providers/route.ts:47-66 | saving the same credential again leaves the table as saving it once |
| Providers.DeleteUndoesCreate | src/app/api/providers/route.ts:90-97 | deleting a credential that was just created gives back the previous table |
| Providers.UpsertKeepsIds | src/app/api/providers/route.ts:59-65 | creating a row with a fresh id keeps row ids distinct |
| Providers.KeyStore.Get | src/app/api/providers/route.ts:7-29 | no session gives 401; otherwise the reply lists exactly the caller's rows with id, provider, baseUrl, isActive and createdAt, never the key |
| Providers.KeyStore.Post | src/app/api/providers/route.ts:32-73 | no session gives 401 and a missing or empty provider or key gives 400, both leaving the table unchanged; otherwise the table becomes the upsert of (user, provider) with the base URL, or null when it is missing or empty, and the reply is that row's id |
| Providers.KeyStore.Delete | src/app/api/providers/route.ts:76-103 | no session gives 401 and a missing provider gives 400, both leaving the table unchanged; an existing entry is removed and nothing else changes; a missing entry gives 500 and leaves the table unchanged |
| Agents.NameField | src/app/api/agents/route.ts:8 | a name is accepted exactly when it is a non-empty string, and an empty one is rejected with `Name is required` |
| Agents.OptionalString | src/app/api/agents/route.ts:9-10 | a missing field becomes none and a string is kept; any other value is rejected |
| Agents.StringOrDefault | src/app/api/agents/route.ts:11-12 | a missing field takes the default and a string is kept; any other value is rejected |
| Agents.TemperatureField | src/app/api/agents/route.ts:13 | accepted exactly when missing, giving 0.7, or a number in [0, 1], which is kept |
| Agents.Validate | src/app/api/agents/route.ts:7-14 | `agentSchema.parse` succeeds exactly on bodies whose every field the schema accepts; a success has the body's non-empty name and a temperature in [0, 1]; an empty name fails with `Name is required` |
| Agents.ValidateAccepts | src/app/api/agents/route.ts:7-14 | validation succeeds exactly on bodies whose every field the schema accepts, and it then carries the body's values or the defaults `gpt-4o`, `openai` and 0.7 |
| Agents.TemperatureOutOfRange | src/app/api/agents/route.ts:13 | whatever the other fields hold, a temperature below 0 or above 1 is rejected |
| Agents.TemperatureBoundsAccepted | src/app/api/agents/route.ts:13 | a body the schema accepts still passes, with that temperature, when the temperature is exactly 0 or exactly 1 |
| Agents.NewRow | src/app/api/agents/route.ts:46-56 | the created row belongs to the caller and carries the validated name, model, provider and temperature; an empty or missing description or system prompt is stored as null |
| Agents.Owned | src/app/api/agents/route.ts:24-25 | keeps exactly the caller's rows, each as often as in the table |
| Agents.PrependNewest | src/app/api/agents/route.ts:26 | a row at least as new as all others may lead a newest-first list |
| Agents.InsertByDate | src/app/api/agents/route.ts:26 | inserting into a newest-first list keeps it newest first and adds exactly that row |
| Agents.SortNewestFirst | src/app/api/agents/route.ts:26 | the result is ordered by `createdAt` descending and is a permutation of the input |
| Agents.AgentTable.Get | src/app/api/agents/route.ts:17-33 | no session gives 401; otherwise the reply holds exactly the caller's agents, each as often as in the table, ordered by `createdAt` descending |
| Agents.AgentTable.Post | src/app/api/agents/route.ts:36-65 | no session gives 401 and a validation failure gives 400 with its message, both leaving the table unchanged; otherwise exactly one row is appended, owned by the caller and built from the validated values, and every existing row is unchanged |

## Left out

- Network I/O: the OpenAI SDK call, the two `fetch` calls and `res.json()` are the `Network` parameter. What the providers answer is not modelled.
- The exact URLs and headers sent upstream (the Anthropic version header, the Google URL that carries the key) are left out. Only the base-URL choice and the request body are modelled.
- Session and authentication plumbing is reduced to an optional user id.
- Request bodies that are not valid JSON are left out. So are fields of an unexpected JavaScript type in the chat and providers bodies. Those bodies are typed in the model.
- A POST /api/agents body that is valid JSON but not an object (`null`, an array, a number) is left out. The schema rejects it with a 400, but `AgentBody` always has the six fields and cannot represent it.
- Database failures other than deleting a missing row are left out. Transactions are not modelled.
- Prisma's id generation is a counter and `createdAt` is a parameter, as the real clock is not visible.
- `console.error` logging is left out.
- Agents.Validate: the messages for failures other than an empty name are representative. The exact Zod texts are library internals. The first failing field in schema order is the one reported.
- Agents.NewRow: the database default of `isActive` is not part of this model. New agents are stored with `isActive` true.
- Agents.AgentTable.Get: the order of agents with equal `createdAt` is not fixed by the database. The model uses one particular order.
- Providers.KeyStore.Get: `findMany` has no `orderBy`, so the reply is modelled as a set. Its order is not modelled.
- Temperature is a Dafny `real`. Only the bound checks and the default occur, so floating point is not modelled.
- src/app/api/agents/[id]/route.ts, the dashboard pages, src/app/page.tsx and next.config.js are not part of this model.
