# Agent, organization and voice API: a Dafny model

This project models the server side of a small voice-agent platform written in
TypeScript on Next.js, with Supabase as its store and ElevenLabs as its voice
provider. It covers these parts:

- **Agent schemas** (`lib/validations.ts`). `createAgentSchema` and
  `updateAgentSchema` are modelled as zod object schemas: a list of fields,
  each with a type, its checks and a presence rule (required, optional,
  defaulted). `ParseObject` checks a JSON body against such a list the way
  zod's `parse` does. `updateAgentSchema` is built from the create schema with
  `Partial` and `Omit`, exactly as the source builds it.
- **The ElevenLabs client** (`lib/elevenlabs.ts`). This covers the request the
  client sends, the error it throws on a non-success status, the mapping of a
  provider voice onto the app's `Voice` (language falling back to accent),
  `getVoice` turning every failure into `null`, the unimplemented
  `speakStream`, and the lazily created shared client that needs
  `ELEVENLABS_API_KEY`.
- **`GET /api/voices`** (`app/api/voices/route.ts`). This is a class holding
  the route's module state: the per-client fixed-window rate limiter (10 calls
  per 60 000 ms) and the single-slot five-minute voice cache. `Get` runs the
  handler's steps in the handler's order: limiter, session, cache, provider.
- **`GET` and `POST /api/agents`** (`app/api/agents/route.ts`). The listing is a
  pure function to a response. Creation is a pure decision
  (`CreateAgentStep`: session, body, schema, membership, role) followed by a
  method that performs the insert.
- **`GET` and `POST /api/orgs`** (`app/api/orgs/route.ts`). The listing maps
  membership rows to organizations with roles. Creation is two inserts in
  sequence, organization then owner membership, with no transaction around
  them.
- **The store**. The Supabase tables (`organizations`,
  `organization_members`, `agents`) are a `Database` class with one sequence
  per table. Its validity predicate holds the tables' constraints: primary
  keys, one membership per organization and user, and foreign keys. Reads take
  the tables as values.

Modelling choices:

- The signed-in user is an `Option<UserId>`. `None` stands for no user and for
  a failing `getUser`.
- A failing store query is an input: `Some(message)` where the query fails.
- Ids and timestamps the store generates are the caller's arguments.
- The voice route's two clock readings are two parameters: `limiterNow` for
  the rate limiter and `cacheNow` for the cache.
- The network is a function parameter `fetch` from the request the client
  builds to the reply.
- `request.json()` is a `Body`: either the parsed JSON or the message of the
  syntax error it throws.
- JSON numbers are `real`s. String lengths count characters: zod counts UTF-16
  code units, and the two agree for text without astral characters.
- zod is taken with its version 3 semantics:
  - `.partial()` wraps each field in an optional wrapper that answers a
    missing key itself;
  - so under `updateAgentSchema` an absent `voice_stability` stays absent and
    does not become 0.5;
  - every field's issues are reported, in schema order;
  - keys outside the schema are dropped;
  - `.uuid()` accepts the 8-4-4-4-12 hexadecimal form in either case.
- `createOrgSchema` is imported by `app/api/orgs/route.ts` but not defined in
  `lib/validations.ts`, so `CreateOrganization` takes its parse as a
  parameter. `lib/supabase/server.ts` is not part of this model.
- `app/api/orgs/route.ts` calls `createClient()` without `await` (lines 8 and
  41), while the other routes await it. Whether that breaks the route depends
  on `lib/supabase/server.ts`, so the model follows the evident intent and
  treats the client as ready.
- `created_at` is a string in `lib/types.ts`. The model uses an `int`
  timestamp, which orders the same way as the store's ISO timestamps.
- Where `POST /api/agents` rejects a body, the thrown `ZodError` is caught and
  its message becomes the 400 response's `error`. That message is zod's JSON
  rendering of the issue list, so the model returns the issue list itself.
- `POST /api/agents` validates the body before it looks up the membership
  (lines 60 and 63). The model keeps that order, so an invalid body from a
  non-member gets 400, not 403.

## Model

| member | source | states |
|---|---|---|
| Validations.Partial | lib/validations.ts:14 | each field of the partial schema is the original field turned optional; a defaulted field loses its default |
| Validations.Omit | lib/validations.ts:14 | a field survives `omit` exactly when it is in the schema and its key is not the omitted one |
| Validations.StringIssues | lib/validations.ts:4-8 | a string has no issues exactly when it passes every check of the field, and every failed check reports its own message at the field's key |
| Validations.ValueIssues | lib/validations.ts:4-11 | a present value has no issues exactly when it has the field's type and meets its checks (strings: the string checks; settings: within [0, 1]) |
| Validations.CheckField | lib/validations.ts:4-11 | a field is accepted iff its key is present with a conforming value, or missing from a field that is not required; a present key yields its value, a missing defaulted key yields the default and a missing optional key yields nothing; a missing required key gives the single "Required" issue (expected type, received undefined) |
| Validations.ParseFields | lib/validations.ts:3-12 | a body passes exactly when every field passes; with distinct keys, each entry is what its field contributes; only schema keys appear in the result; every issue of every field is reported |
| Validations.ParseObject | lib/validations.ts:3 | a body that is not an object fails with one invalid-type issue at the root; an object is checked field by field |
| Validations.ParseFieldsReadsOnlySchemaKeys | lib/validations.ts:3-12 | two bodies that agree on the schema's keys parse identically, so unknown keys are stripped and never looked at |
| Validations.ParseFieldsIgnoresKey | lib/validations.ts:3-12 | setting or removing a key the schema does not name does not change the outcome |
| Validations.PartialAcceptsMore | lib/validations.ts:14 | every body a schema accepts, its partial form accepts |
| Validations.EntryOf | lib/validations.ts:3-12 | in an accepted body each field's entry is the value that field contributes |
| Validations.TextEntry | lib/validations.ts:4-11 | an accepted text field's entry is the body's string, meets the field's checks, and is absent exactly when the key is |
| Validations.NumberEntry | lib/validations.ts:9-10 | an accepted voice setting is in [0, 1]; it is the body's number, or 0.5 when defaulted and missing, or absent when optional and missing |
| Validations.CreateSchemaKeysDistinct | lib/validations.ts:3-12 | the create schema's keys are pairwise distinct |
| Validations.NonEmptyTextField | lib/validations.ts:6-8 | a required string field whose only check is `min(1)` accepts exactly a present non-empty string |
| Validations.IsUuid | lib/validations.ts:4 | `.uuid()`: 36 characters, dashes at positions 8, 13, 18 and 23, hexadecimal digits of either case everywhere else |
| Validations.ChecksMeaning | lib/validations.ts:4-11 | `org_id` must be a UUID; `name` needs 1 to 100 characters, 100 included despite the "less than 100" message; `language`, `system_prompt` and `elevenlabs_voice_id` must be non-empty; `voice_style` is unconstrained |
| Validations.CreateSchemaFields | lib/validations.ts:4-11 | each text field of the create schema accepts exactly the bodies whose value at its key is a string meeting its bound; `voice_style` accepts a missing key or any string |
| Validations.ValidateCreateAgent | lib/validations.ts:3-12 | a non-object body is refused at the root; an accepted record takes every value from the body, within bounds, with 0.5 for a missing setting; a refusal carries at least one issue |
| Validations.CreateAgentFromEntries | lib/validations.ts:3-12 | the record built from an accepted body's entries is one the body describes |
| Validations.CreateAgentIdentity | lib/validations.ts:4-6 | `org_id`, `name` and `language` of an accepted record are the body's strings and meet their bounds |
| Validations.CreateAgentVoice | lib/validations.ts:7-8 | `system_prompt` and `elevenlabs_voice_id` of an accepted record are the body's non-empty strings |
| Validations.CreateAgentSettings | lib/validations.ts:9-11 | both settings of an accepted record are in [0, 1] and are the body's number or the 0.5 default; `voice_style` is the body's string or absent |
| Validations.ValidateCreateAgentComplete | lib/validations.ts:3-12 | the converse of `ValidateCreateAgent`: every record a body describes is accepted and is exactly the record returned |
| Validations.SettingOutOfRangeRejected | lib/validations.ts:9-10 | a voice setting below 0 or above 1 is refused, with zod's min or max issue at its key |
| Validations.MissingRequiredRejected | lib/validations.ts:4-8 | a body missing any of the five required keys is refused with the "Required" issue at that key |
| Validations.OmitLeading | lib/validations.ts:14 | with distinct keys, omitting the first field's key removes that field alone |
| Validations.PartialKeepsKeys | lib/validations.ts:14 | `partial` keeps the keys distinct |
| Validations.UpdateSchemaIsTail | lib/validations.ts:14 | `updateAgentSchema` is the create schema without `org_id`, every field optional, with distinct keys |
| Validations.TailKeepsKeys | lib/validations.ts:14 | dropping the first field keeps the keys distinct |
| Validations.UpdateSchemaFields | lib/validations.ts:14 | the update schema has seven fields: the create schema's fields after `org_id`, each made optional |
| Validations.TailFields | lib/validations.ts:14 | the partial create schema after `org_id` holds the remaining seven fields made optional |
| Validations.ValidateUpdateAgent | lib/validations.ts:14 | a non-object body is refused at the root; each value of an accepted update is absent exactly when its key is absent, otherwise the body's value within the create schema's bound (no defaults); a refusal carries at least one issue |
| Validations.ValidateUpdateAgentComplete | lib/validations.ts:14 | the converse of `ValidateUpdateAgent`: every update record a body describes, including the empty body with every value absent, is accepted and is exactly the record returned |
| Validations.UpdateAcceptsDescribed | lib/validations.ts:14 | every field of the update schema accepts a body whose present values are within the create schema's bounds |
| Validations.OptionalNameAccepted | lib/validations.ts:5 | the optional `name` accepts a missing key or a string of 1 to 100 characters |
| Validations.OptionalNonEmptyAccepted | lib/validations.ts:6-8 | an optional `min(1)` string field accepts a missing key or a non-empty string |
| Validations.OptionalSettingAccepted | lib/validations.ts:9-10 | an optional voice setting accepts a missing key or a number in [0, 1] |
| Validations.OptionalUncheckedAccepted | lib/validations.ts:11 | the optional `voice_style` accepts a missing key or any string |
| Validations.SevenFieldsAccepted | lib/validations.ts:14 | a seven-field schema accepts a body each of its fields accepts |
| Validations.UpdateFromEntriesDescribes | lib/validations.ts:14 | the update record built from an accepted body's entries is one the body describes |
| Validations.UpdateTextEntries | lib/validations.ts:14 | the four text values of an accepted update are absent or the body's strings within their bounds |
| Validations.UpdateSettingEntries | lib/validations.ts:14 | the settings of an accepted update are absent or the body's numbers in [0, 1]; the style is absent or the body's string |
| Validations.UpdateSchemaOmitsOrgId | lib/validations.ts:14 | no field of the update schema has the key `org_id` |
| Validations.UpdateIgnoresOrgId | lib/validations.ts:14 | whatever `org_id` holds, or whether it is present at all, the update outcome is the same |
| Validations.SameParseSameUpdate | lib/validations.ts:14 | the update outcome is determined by the schema's parse alone |
| Validations.UpdateAcceptsCreateBodies | lib/validations.ts:14 | every set of fields the create schema accepts, the update schema accepts |
| Validations.CreateAcceptedImpliesUpdateAccepted | lib/validations.ts:14 | a body accepted on creation is accepted as an update, with the same text values and any setting it holds equal to the created one |
| Seqs.Filter | app/api/agents/route.ts:36 | an `.eq` filter keeps exactly the rows that match, each as often as it occurs |
| Store.MembershipRows | app/api/agents/route.ts:22-27 | the selected rows are exactly the memberships of that organization and user |
| Store.RoleOf | app/api/agents/route.ts:22-31 | `.single()` yields a role exactly when one row matches, and it is that row's role; no row or two rows give no role |
| Store.AtMostOneRow | app/api/agents/route.ts:22-27 | with one membership per organization and user, at most one row matches |
| Store.RoleOfUnique | app/api/agents/route.ts:22-31 | with unique memberships, the lookup yields a role exactly when the user holds that role in the organization |
| Store.Database.InsertOrganization | app/api/orgs/route.ts:53-57 | a failed insert changes nothing and returns the message; otherwise exactly the new organization is appended and returned; the table constraints are kept |
| Store.Database.InsertMember | app/api/orgs/route.ts:64-70 | a failed insert changes nothing; otherwise exactly the membership is appended; constraints kept |
| Store.Database.InsertAgent | app/api/agents/route.ts:78-85 | a failed insert changes nothing; otherwise exactly the row is appended and returned; constraints kept |
| AgentsRoute.NewestFirst | app/api/agents/route.ts:37 | `.order('created_at', { ascending: false })`: every row is at least as recent as every row after it |
| AgentsRoute.InsertByDate | app/api/agents/route.ts:37 | inserting into a newest-first list keeps it newest first and adds exactly that row |
| AgentsRoute.SortNewestFirst | app/api/agents/route.ts:37 | the result is ordered by `created_at` descending and is a permutation of the rows |
| AgentsRoute.AgentsOf | app/api/agents/route.ts:33-36 | the selected agents are exactly those whose `org_id` is the requested one |
| AgentsRoute.HasOrgId | app/api/agents/route.ts:12 | `!orgId` refuses a missing parameter and the empty string |
| AgentsRoute.ListAgents | app/api/agents/route.ts:9-43 | a missing or empty `org_id` gives 400 before anything else; no user gives 401; a failed lookup or a missing membership gives 403 "Access denied" whatever the role; a failed listing gives 500 with the store's message; 200 happens exactly when all checks pass, with the organization's agents newest first (a permutation of them) |
| AgentsRoute.ListingIsForMembers | app/api/agents/route.ts:22-43 | a listing reaches only a member of the organization and holds exactly that organization's agents |
| AgentsRoute.CanCreateAgents | app/api/agents/route.ts:74 | the roles allowed to create agents are exactly owner, admin and editor |
| AgentsRoute.CreateAgentStep | app/api/agents/route.ts:54-76 | no user gives 401; a malformed body gives 400 with the parse error; a schema failure gives 400 with its issues; a failed lookup or a missing membership gives 403 "Access denied"; a role outside owner, admin and editor gives 403 "Insufficient permissions"; an insert is reached exactly when all of these pass, for the caller and the validated data |
| AgentsRoute.CreateNeedsWriterRole | app/api/agents/route.ts:63-76 | with unique memberships, an insert is reached exactly when the caller is an owner, admin or editor of the organization named in the valid body |
| AgentsRoute.ReadOnlyRolesCannotCreate | app/api/agents/route.ts:74-76 | an analyst or a viewer is answered 403 and nothing is inserted |
| AgentsRoute.NewAgent | app/api/agents/route.ts:80-83 | the new row is the validated data field by field (organization, name, language, prompt, voice id, both settings, style), with `created_by` set to the caller and the id and timestamp the store assigns |
| AgentsRoute.CreateAgent | app/api/agents/route.ts:49-91 | every answer before the insert leaves the agents table unchanged; a failed insert gives 500 with the store's message and no row; otherwise exactly one row (the validated data plus `created_by`) is appended and returned; other tables and the constraints are kept |
| OrgsRoute.MembershipsOf | app/api/orgs/route.ts:15-22 | the selected rows are exactly the caller's memberships |
| OrgsRoute.OrganizationById | app/api/orgs/route.ts:20 | the embedded organization, when present, is a stored organization with that id; it is absent only when no organization has the id |
| OrgsRoute.WithRoles | app/api/orgs/route.ts:28-31 | one entry per membership row, in row order, each the row's organization together with the row's role |
| OrgsRoute.ListOrganizations | app/api/orgs/route.ts:10-33 | no user gives 401; a failed query gives 500 with its message; `null` rows give an empty list; otherwise one entry per membership of the caller, in order, each that row's organization with that row's role |
| OrgsRoute.ListedOrganizationsResolve | app/api/orgs/route.ts:15-31 | with the foreign keys kept, every listed entry carries its organization |
| OrgsRoute.ListsExactlyTheCallersOrganizations | app/api/orgs/route.ts:15-31 | with the constraints kept, a pair of organization and role is listed exactly when the caller holds that role in that stored organization |
| OrgsRoute.OrganizationByUniqueId | app/api/orgs/route.ts:20 | with unique ids, looking up a stored organization's id finds that organization |
| OrgsRoute.CreateOrganization | app/api/orgs/route.ts:41-76 | no user gives 401 and a malformed or invalid body gives 400, all with no insert; a failed organization insert gives 500 and no membership is attempted; after it succeeds, exactly one owner membership for the caller is inserted; a failed membership insert gives 500 but the organization stays; success returns the new organization; agents are untouched and the constraints are kept |
| OrgsRoute.OwnerRowFailureOrphansOrganization | app/api/orgs/route.ts:64-74 | when the owner row is refused, the new organization has no member, so no caller's listing ever shows it |
| ElevenLabs.Decimal | lib/elevenlabs.ts:53 | the status is written as a non-empty string of decimal digits |
| ElevenLabs.DecimalRoundTrip | lib/elevenlabs.ts:53 | the digits in the error message read back as the status |
| ElevenLabs.LanguageOf | lib/elevenlabs.ts:65 | a non-empty language label wins; otherwise the accent label is used when present; the result is always one of the labels |
| ElevenLabs.ToVoice | lib/elevenlabs.ts:62-68 | the mapped voice's id is the provider's `voice_id`; name, category and description are carried over unchanged; the language follows `LanguageOf` |
| ElevenLabs.MapVoices | lib/elevenlabs.ts:62-68 | the mapped list has the provider list's length and order, element by element through `ToVoice` |
| ElevenLabs.ElevenLabsClient.constructor | lib/elevenlabs.ts:31-37 | a client holds the given key and the fixed base URL |
| ElevenLabs.ElevenLabsClient.RequestFor | lib/elevenlabs.ts:39-49 | the URL is the base URL followed by the endpoint; the headers are exactly the API key and the JSON content type |
| ElevenLabs.IsSuccess | lib/elevenlabs.ts:51 | `response.ok`: exactly the statuses 200 to 299 |
| ElevenLabs.ApiError | lib/elevenlabs.ts:52-53 | the thrown message: "ElevenLabs API error: ", the status in decimal, " - ", then the reply's text |
| ElevenLabs.ElevenLabsClient.Request | lib/elevenlabs.ts:39-57 | the call succeeds exactly when a reply arrives with a 2xx status and a readable body, and its value is that body; a non-2xx reply fails with "ElevenLabs API error: <status> - <text>" |
| ElevenLabs.ElevenLabsClient.ListVoices | lib/elevenlabs.ts:59-69 | the request to `/voices` succeeding is what makes the call succeed; the voices are the reply's voices mapped one for one in order; any failure is passed on unchanged |
| ElevenLabs.ElevenLabsClient.GetVoice | lib/elevenlabs.ts:71-86 | `null` exactly when the request fails, whatever the failure; otherwise the mapped voice |
| ElevenLabs.ElevenLabsClient.SpeakStream | lib/elevenlabs.ts:88-96 | every call fails with "TTS streaming not implemented yet" |
| ElevenLabs.ClientProvider.constructor | lib/elevenlabs.ts:100 | no client exists at start |
| ElevenLabs.ClientProvider.GetElevenLabsClient | lib/elevenlabs.ts:102-111 | an existing client is returned unchanged whatever the environment; with none, a missing or empty key fails with the key message and creates nothing; otherwise a new client with that key is created, kept and returned |
| VoicesRoute.FirstField | app/api/voices/route.ts:35 | the result is the longest prefix of the header holding no comma |
| VoicesRoute.ClientKey | app/api/voices/route.ts:34-35 | the key is the text before the first comma of `x-forwarded-for`, or `unknown` when the header is missing or empty |
| VoicesRoute.Admit | app/api/voices/route.ts:14-29 | with no record or an ended window (`now > resetTime`) the call is admitted and the record becomes a count of 1 ending `now + 60000`; in an open window the call is admitted exactly when the count is below 10, which then goes up by exactly one, and a refusal leaves the record as it was; a record with a count from 1 to 10 stays within those bounds |
| VoicesRoute.Replay | app/api/voices/route.ts:14-29 | successive calls give one answer each |
| VoicesRoute.ReplayWithinWindow | app/api/voices/route.ts:18-28 | in a window that has seen `count` calls, exactly the next `10 - count` calls made before it ends are admitted |
| VoicesRoute.RefusedUntilReset | app/api/voices/route.ts:23-25 | a full window refuses every call until it ends |
| VoicesRoute.AdmitsRateLimitPerWindow | app/api/voices/route.ts:11-28 | for a client with no open window, of the calls made within 60 000 ms of its first one exactly the first 10 are admitted and the 11th and later are refused |
| VoicesRoute.VoicesEndpoint.constructor | app/api/voices/route.ts:6-12 | the route starts with an empty limiter, an empty cache and no provider calls, and every limiter record is within bounds |
| VoicesRoute.VoicesEndpoint.CheckRateLimit | app/api/voices/route.ts:14-29 | the answer is `Admit`'s; only the caller's record is created or replaced, by `Admit`'s new record; every limiter count stays between 1 and 10 |
| VoicesRoute.VoicesEndpoint.GetTwice | app/api/voices/route.ts:53-64 | when the first of two requests less than 300 000 ms apart on the cache's clock is answered 200, the two together make at most one provider call |
| VoicesRoute.CacheFresh | app/api/voices/route.ts:55 | the cache answers exactly when it holds an entry and less than 300 000 ms have passed since its timestamp (strict `<`) |
| VoicesRoute.VoicesEndpoint.Get | app/api/voices/route.ts:31-74 | the caller's limiter record is updated first; a refusal gives 429 before the session or the cache is consulted; no user gives 401; a fresh cache entry (younger than 300 000 ms) is answered with no provider call; a missing API key gives 500 "Failed to fetch voices", leaves the cache as it was and creates no client; a client created here carries the environment's key; a failed provider call gives 500 "Failed to fetch voices" and leaves the cache as it was; a successful call is cached with `cacheNow` and returned; limiter counts stay between 1 and 10 |

## Left out

- Network, HTTP and JSON I/O: the provider's HTTP API is a `fetch` parameter. The request body is a `Body` value. Responses are `Response` values, not serialized JSON.
- Supabase internals: `createClient`, `createServiceClient`, `auth.getUser`, the query builder and row-level security. Sessions are `Option<UserId>`, query failures are inputs, and the service client's bypassing of row-level security is not modelled.
- Concurrency: requests run one at a time. Races between requests on the limiter, the cache, the singleton client or the two organization inserts are not modelled.
- Exceptions thrown inside the client libraries: the model has none. The `GET` handlers would answer those with 500 "Internal server error" (app/api/agents/route.ts:44-46, app/api/orgs/route.ts:34-36). The `POST` handlers would answer any thrown `Error` with 400 and its message, and answer 500 only for a throw that is not an `Error` (app/api/agents/route.ts:92-96, app/api/orgs/route.ts:77-81). Only the body's parse error and the schema's issues are modelled among those 400 answers.
- Console logging in the routes and in `getVoice`.
- AgentsRoute.SortNewestFirst: rows with equal `created_at` come back in an order the store does not fix. The model picks one such order, and its contract states only the ordering and the permutation.
- Validations.ValidateCreateAgent: zod's `ZodError` message is a JSON rendering of the issue list and is not reproduced. The model returns the issues themselves, and an issue's received type and message text follow zod version 3 as read from its documentation.
- Validations.IsUuid: zod's own UUID regular expression is not shipped with the repository. The model uses the 8-4-4-4-12 hexadecimal form.
- ElevenLabs.ElevenLabsClient.Request: the reply body is taken to have the declared shape when it parses. A body of another shape is a JSON failure, which is stricter than the unchecked cast in the source.
- ElevenLabs.ElevenLabsClient.GetVoice: `voiceId` is appended to the path unescaped, as in the source. URL encoding is not modelled.
- `request`'s `options` parameter: no caller in the model passes options, so the extra headers and methods it would merge in are not modelled.
- The speech defaults (`stability: 0.5, similarity_boost: 0.5`) of `speakStream` are the constant `DefaultSpeechSettings`. `speakStream` throws before using them, so no contract mentions them.
- The provider voice's `preview_url`, `available_for_tiers` and `settings` are carried in `ProviderVoice` but never read, as in the source.
- Float formatting and slider behaviour in the UI: numbers are Dafny `real`s.
- The React pages and components: rendering only.
