# blog-syncer core, modelled in Dafny

blog-syncer copies web memos from a knowledge-document table into a Halo blog. This project
models the parts of it that decide what goes over the wire and what ends up in the database:

- **The base HTTP client** (`component/halo/base.py`). It has default headers, a connection
  handle that `connect`/`close` set and clear, and bearer-token management. Its request loop
  retries timeouts, connect errors and network errors: at most four attempts, with a two-second
  wait before each retry. Every response with status 400 or more becomes an error at once.
- **The Halo and AduibAI clients** (`component/halo/halo_client.py`, `component/halo/aduib_ai.py`).
  Each has an `_authenticated` flag and a lazily built module-global instance.
- **The blog sync** (`service/blog_sync_service.py`). `create_post` builds the post payload,
  creates the post, publishes it when asked and swallows every failure. `sync_blogs` selects
  the pending web memos, posts each one, marks it synced and commits once. When the query or
  the commit fails, it rolls back.
- **The database URI** (`configs/db/__init__.py`). This covers how the charset and extras turn
  into a query string, and the `quote_plus` escaping of the credentials.
- **The Celery broker URL** (`celery_app.py`). It is built from optional Redis credentials
  unless `CELERY_BROKER_URL` is set.
- **Alembic's object filter and engine URL** (`alembic/env.py`).
- **The context-variable wrapper** (`libs/contextVar_wrapper.py`). It is modelled as one cell.

Modules: `Wrappers`, `Text` (Python string helpers), `Json` (JSON values as Python hands them
over), `UrlQuote` (`quote_plus` and its inverse), `BaseHttp`, `BearerAuth` (the shared
authentication step), `Halo`, `AduibAi`, `BlogSync`, `DbConfig`, `CeleryApp`, `AlembicEnv`,
`ContextVar`.

**Stateful code** becomes classes whose methods state their whole new state.
`BaseHttpClient` keeps `headers`, `live`, `sent` and `sleptSeconds`. The clients keep
`authenticated`, the globals classes keep the singleton, `Session` keeps `committed` and
`staged`, and `ContextVarWrapper` keeps `cell`.

**The network** is a parameter `respond: nat -> Outcome`: the n-th transport call over a
client's lifetime yields `respond(n)`. Every request handed to the transport is logged in
`sent`. The retry wait adds two to `sleptSeconds` instead of sleeping.

**The retry loop** is proved against `Perform`, a reference definition of the retry policy.
`create_post` is proved against `CreatePostTraffic`. `sync_blogs` is proved against two
references: `SyncedStore` for what it leaves in the store, and `RunTraffic` for the requests
it sends, one document after another in the order the query returns them (taken to be the
order of the stored sequence; see "## Left out").

**Other inputs** come in as parameters:
- the clock reading, `now` (see "## Left out" for how the two readings per document are
  modelled);
- `slugify` and `markdown_to_html`, as the `Renderers` datatype;
- the environment variable `CELERY_BROKER_URL`;
- SQLAlchemy's rendered URL.

**Two behaviours of the code worth knowing:**
- `content[:20]` keeps twenty characters, so a body whose twenty-first character is a space
  gives a title without it (`DefaultTitleExample`).
- `create_post` swallows its errors, so every selected document is marked synced whatever the
  remote outcome (`SyncedStore`).

## Model

| member | source | states |
|---|---|---|
| Text.Strip | configs/db/__init__.py:23-25 | defines `strip(c)` for one character; its properties are `StripSpec`, `StripEnds`, `StripEmptyIff`, `StripLeading` and `StripNoop` |
| Text.StripSpec | configs/db/__init__.py:23-25 | `strip("&")` is a slice of the input with only '&' cut from each end |
| Text.StripEnds | configs/db/__init__.py:23-25 | a stripped result is empty or neither begins nor ends with the stripped character |
| Text.StripEmptyIff | configs/db/__init__.py:25-26 | stripping yields "" exactly when every character is the stripped one |
| Text.StripLeading | configs/db/__init__.py:24-25 | stripping removes one leading separator in front of a text that has none at its ends |
| Text.StripNoop | configs/db/__init__.py:25 | a text with no separator at either end is left unchanged |
| Text.IndexOfSplit | configs/db/__init__.py:29 | the first occurrence of a delimiter is found right after a prefix that does not contain it |
| Text.DigitsRoundTrip | service/blog_sync_service.py:46 | a zero-padded decimal field reads back as the number it renders |
| Json.GetSpec | component/halo/base.py:152 | `dict.get` misses exactly when no member has the key, and otherwise returns a member's value |
| Json.GetFirst | service/blog_sync_service.py:41-79 | a dict literal's member is found under its key when no earlier member has that key |
| Json.LookupStep | service/blog_sync_service.py:85 | one step of a key path goes through the member found under that key |
| Json.DictGet | service/blog_sync_service.py:85 | `.get` answers exactly when the value is a dict |
| UrlQuote.QuotePlus | configs/db/__init__.py:29 | defines `quote_plus` with Python's defaults; its properties are `QuotePlusHasNoDelimiters`, `QuotePlusEmptyIff` and `QuotePlusRoundTrip` |
| UrlQuote.QuotePlusHasNoDelimiters | configs/db/__init__.py:29 | `quote_plus` output holds only unreserved characters, '%' and '+', so no ':', '@', '/', '?', '&' or '#' |
| UrlQuote.QuotePlusEmptyIff | celery_app.py:12-13 | `quote_plus(s)` is empty exactly when `s` is |
| UrlQuote.QuotePlusRoundTrip | configs/db/__init__.py:29 | decoding `quote_plus(s)` (UTF-8, percent escapes, '+' for space) gives `s` back: the escaping is injective |
| UrlQuote.Utf8RoundTrip | celery_app.py:12-13 | the UTF-8 encoding `quote_plus` escapes decodes back to the same text |
| UrlQuote.QuoteBytesRoundTrip | celery_app.py:12-13 | the byte escaping decodes back to the same bytes |
| UrlQuote.CredentialsSplit | configs/db/__init__.py:29 | an authority `u:p@rest` without ':' or '@' in `u` and `p` splits back into the decoded `u` and `p` |
| BaseHttp.FirstFinal | component/halo/base.py:120-195 | the first attempt that is not a transient fault, with every earlier attempt transient |
| BaseHttp.Perform | component/halo/base.py:117-205 | a request makes between one and four transport calls |
| BaseHttp.Repeat | component/halo/base.py:124-132 | the same wire request sent n times |
| BaseHttp.BaseHttpClient.constructor | component/halo/base.py:13-27 | base URL without trailing '/', the timeout, the two JSON default headers, no live client, nothing sent |
| BaseHttp.BaseHttpClient.Connect | component/halo/base.py:36-49 | builds the live client from the base URL, timeout and current headers, only when there is none |
| BaseHttp.BaseHttpClient.Close | component/halo/base.py:51-56 | drops the live client, a no-op when there is none; nothing else changes |
| BaseHttp.BaseHttpClient.SetAuthToken | component/halo/base.py:58-68 | Authorization becomes "Bearer <token>" in the defaults and on the live client; nothing else changes |
| BaseHttp.BaseHttpClient.RemoveAuthToken | component/halo/base.py:70-75 | Authorization is removed from the defaults and the live client, with no error when absent |
| BaseHttp.BaseHttpClient.Send | component/halo/base.py:124-132 | one transport call: the scripted outcome for the next call number, and the request logged |
| BaseHttp.BaseHttpClient.WaitRetry | component/halo/base.py:207-211 | the wait before a retry adds two seconds and changes nothing else |
| BaseHttp.BaseHttpClient.Request | component/halo/base.py:77-205 | connects if needed, sends the target URL and merged headers, and the result, traffic and waits are exactly those of `Perform` |
| BaseHttp.BaseHttpClient.SendWithRetries | component/halo/base.py:117-205 | the retry loop: the result, the requests sent and the seconds waited are those of `Perform`; headers and connection unchanged |
| BaseHttp.BaseHttpClient.Get | component/halo/base.py:213-220 | a GET with params and headers, served as `Perform` says |
| BaseHttp.BaseHttpClient.Post | component/halo/base.py:222-234 | a POST with json, data, files, params and headers, served as `Perform` says |
| BaseHttp.BaseHttpClient.Put | component/halo/base.py:236-244 | a PUT with json, params and headers, served as `Perform` says |
| BaseHttp.BaseHttpClient.Patch | component/halo/base.py:246-254 | a PATCH with json, params and headers, served as `Perform` says |
| BaseHttp.BaseHttpClient.Delete | component/halo/base.py:256-263 | a DELETE with params and headers, served as `Perform` says |
| BaseHttp.AllTransientExhausts | component/halo/base.py:185-195 | four transient faults in a row: four calls, three waits, and the error "请求失败：" with the last fault |
| BaseHttp.EndsAtFirstFinalAttempt | component/halo/base.py:120-203 | when attempt k is the first non-transient one, the request makes k + 1 calls and ends with that attempt's outcome |
| BaseHttp.NonTransientIsNotRetried | component/halo/base.py:197-203 | a response of any status, or any other exception, ends the request after one attempt |
| BaseHttp.TargetUrl | component/halo/base.py:110 | defines the request URL; `TargetUrlJoin` states how it is joined |
| BaseHttp.RequestHeaders | component/halo/base.py:111-115 | defines the merged request headers; `RequestHeadersPointwise` states them header by header |
| BaseHttp.ErrorDetail | component/halo/base.py:148-153 | defines the error detail; `ErrorDetailIsFirstTruthy` states which text it is |
| BaseHttp.ClassifyResponse | component/halo/base.py:135-183 | defines what a received response makes of the request; `ResponseFailsIff`, `ErrorStatusMapping` and `SuccessBody` state its cases |
| BaseHttp.ResponseFailsIff | component/halo/base.py:135-183 | a response is an error exactly when its status is 400 or more |
| BaseHttp.ErrorStatusMapping | component/halo/base.py:135-171 | 401, 403 and 404 give their fixed errors with 404 naming the URL; any other status from 400 gives an HTTP error with status and detail |
| BaseHttp.ErrorDetailIsFirstTruthy | component/halo/base.py:148-168 | the error detail is the first truthy of "detail", "message" and the raw text; a body that is not a dict gives the raw text |
| BaseHttp.SuccessBody | component/halo/base.py:174-183 | below 400: 204 gives {}, a parsed body is returned as is, an unparsable one as {"text": body} |
| BaseHttp.TargetUrlJoin | component/halo/base.py:21 | an absolute path is used as given; a relative one follows the base URL stripped of every trailing '/' |
| BaseHttp.RequestHeadersPointwise | component/halo/base.py:111-115 | per header: extra headers override defaults, and Content-Type is dropped only when files are sent |
| BearerAuth.Authenticate | component/halo/halo_client.py:21-35 | defines `authenticate` on the clients' flag and headers; `AuthenticateEffect` states its effect |
| BearerAuth.EnsureAuthenticated | component/halo/halo_client.py:37-40 | defines `ensure_authenticated`; `EnsureAuthenticatedIdempotent` and `EnsureAuthenticatedFlag` state its properties |
| BearerAuth.AuthenticateEffect | component/halo/halo_client.py:21-35 | a non-empty token installs "Bearer <token>" and sets the flag; an empty one changes nothing; no other header changes |
| BearerAuth.EnsureAuthenticatedIdempotent | component/halo/halo_client.py:37-40 | calling `ensure_authenticated` twice is the same as calling it once |
| BearerAuth.EnsureAuthenticatedFlag | component/halo/halo_client.py:37-40 | afterwards the flag is set exactly when it already was or a token is configured |
| Halo.HaloClient.constructor | component/halo/halo_client.py:13-19 | a client for the configured URL and timeout, not authenticated, not connected |
| Halo.HaloClient.Authenticate | component/halo/halo_client.py:21-35 | the flag and headers change as `BearerAuth.Authenticate` says, and nothing is sent |
| Halo.HaloClient.EnsureAuthenticated | component/halo/halo_client.py:37-40 | authenticates only while the flag is false |
| Halo.HaloGlobals.constructor | component/halo/halo_client.py:43-44 | the global client starts as None |
| Halo.HaloGlobals.GetHaloClient | component/halo/halo_client.py:46-57 | the first call builds a connected, authenticated client; later calls return that same instance |
| AduibAi.AduibAiClient.constructor | component/halo/aduib_ai.py:13-19 | a client for the configured URL and timeout, not authenticated, not connected |
| AduibAi.AduibAiClient.Authenticate | component/halo/aduib_ai.py:21-35 | the flag and headers change as `BearerAuth.Authenticate` says, and nothing is sent |
| AduibAi.AduibAiClient.EnsureAuthenticated | component/halo/aduib_ai.py:37-40 | authenticates only while the flag is false |
| AduibAi.AduibAiGlobals.constructor | component/halo/aduib_ai.py:43-44 | the global client starts as None |
| AduibAi.AduibAiGlobals.GetAduibAiClient | component/halo/aduib_ai.py:47-58 | the first call builds a connected, authenticated client; later calls return that same instance |
| BlogSync.StampFields | service/blog_sync_service.py:46 | the six fields of `%Y%m%d%H%M%S` sit at fixed positions, all digits |
| BlogSync.StampRoundTrip | service/blog_sync_service.py:46 | a time stamp is fourteen digits and reads back as the time it was made from |
| BlogSync.PostNameRoundTrip | service/blog_sync_service.py:46 | the post name is "post-" and fourteen digits, and it determines its time |
| BlogSync.PostSpec | service/blog_sync_service.py:49-71 | defines the `spec` dict member by member; the `PostPayload…` lemmas state its members |
| BlogSync.ContentObject | service/blog_sync_service.py:74-78 | defines the `content` part; `PostPayloadContent` states its members |
| BlogSync.PostPayload | service/blog_sync_service.py:41-79 | defines the body of the create call; `PayloadSpecPath`, `PayloadContentPath` and `PostPayloadIdentity` state how to read it |
| BlogSync.PayloadSpecPath | service/blog_sync_service.py:41-72 | `post.spec.<key>` of the payload is the spec's member `key` |
| BlogSync.PayloadContentPath | service/blog_sync_service.py:74-78 | `content.<key>` of the payload is the content part's member `key` |
| BlogSync.PostPayloadIdentity | service/blog_sync_service.py:42-48 | kind "Post" and metadata name "post-" plus the time stamp |
| BlogSync.PostSpecTitleSlug | service/blog_sync_service.py:50-51 | the spec carries the given title and the chosen slug |
| BlogSync.PostPayloadUnpublished | service/blog_sync_service.py:58-64 | the post is created not deleted, unpublished, with no publish time and priority 0 |
| BlogSync.PostPayloadServerFilled | service/blog_sync_service.py:52-71 | snapshots, owner and template are empty, there are no HTML metas, and the excerpt is auto-generated |
| BlogSync.PostPayloadDisplayDefaults | service/blog_sync_service.py:57-68 | missing options default to no cover, not pinned, comments allowed, PUBLIC and an empty excerpt |
| BlogSync.PostPayloadDisplayGiven | service/blog_sync_service.py:57-63 | given cover, pinned, allow_comment and visible are sent as they are |
| BlogSync.PostPayloadTaxonomy | service/blog_sync_service.py:69-70 | categories and tags are sent as given, and an empty list when missing |
| BlogSync.PostPayloadContent | service/blog_sync_service.py:74-78 | the content part is the raw Markdown, its rendered HTML and the content format |
| BlogSync.SlugChoice | service/blog_sync_service.py:31 | an explicit non-empty slug is used, otherwise the slugified title |
| BlogSync.PostNameOf | service/blog_sync_service.py:85 | defines the post name read from the create result; `PostNameOfCases` states its cases |
| BlogSync.PostNameOfCases | service/blog_sync_service.py:85 | the name is `result["metadata"]["name"]`, "" when a key is missing, unreadable when a level is not a dict |
| BlogSync.PublishCreated | service/blog_sync_service.py:85-92 | after the create call, the publish PUT is sent only when asked, the create succeeded and the name was readable |
| BlogSync.CreateAndPublish | service/blog_sync_service.py:84-92 | the create POST and then what `PublishTraffic` says are sent, with their waits |
| BlogSync.CreatePost | service/blog_sync_service.py:15-95 | authenticates as `ensure_authenticated` does, then the traffic is exactly `CreatePostTraffic`; no failure escapes |
| BlogSync.FailedCreateIsNotPublished | service/blog_sync_service.py:84-95 | a failed create call is followed by no other request |
| BlogSync.NoPublishUnlessAsked | service/blog_sync_service.py:88 | without `publish_immediately` only the create POST with the payload is sent |
| BlogSync.CreateThenPublish | service/blog_sync_service.py:84-92 | asked to publish, the create attempts come first; a create that ends with a readable name is followed only by PUTs to that post's publish path with `async=true`, and a failed create or an unreadable name is followed by nothing |
| BlogSync.CreatePostTrafficBounds | service/blog_sync_service.py:84-92 | one `create_post` makes one to eight transport calls and waits at most six times |
| BlogSync.Selectable | service/blog_sync_service.py:105 | defines the query's filter, push_status 0 and doc_from 'web_memo'; a NULL column matches nothing |
| BlogSync.Selected | service/blog_sync_service.py:105 | the positions of exactly the documents with push_status 0 from 'web_memo' |
| BlogSync.SelectedIncreasing | service/blog_sync_service.py:105 | the selected positions follow the order of the stored sequence, each once |
| BlogSync.SelectedEmptyIff | service/blog_sync_service.py:105 | nothing is selected exactly when no document is selectable |
| BlogSync.DefaultTitle | service/blog_sync_service.py:109-110 | defines the defaulted title; `DefaultTitleShape` and `DefaultTitleExample` state its properties |
| BlogSync.DefaultTitleShape | service/blog_sync_service.py:109-110 | a non-empty title is kept; an empty one becomes the first min(20, length) characters of the body |
| BlogSync.DefaultTitleExample | service/blog_sync_service.py:110 | the default title has twenty characters, so it drops the trailing space |
| BlogSync.Session.constructor | service/blog_sync_service.py:103 | a session over the stored documents with nothing staged |
| BlogSync.Session.QueryPending | service/blog_sync_service.py:105 | the query fails when the store fails it; otherwise it yields exactly the selectable documents, in order |
| BlogSync.Session.Add | service/blog_sync_service.py:122 | stages the changed document and leaves the committed ones alone |
| BlogSync.Session.Commit | service/blog_sync_service.py:123 | on success the staged changes are written over the stored documents; on failure nothing changes |
| BlogSync.Session.Rollback | service/blog_sync_service.py:125-127 | drops the staged changes and keeps the stored documents |
| BlogSync.CommitMarkedIsSynced | service/blog_sync_service.py:119-123 | committing the marked copies of exactly the selectable documents gives the synced store |
| BlogSync.MarkSynced | service/blog_sync_service.py:109-121 | defines the marked copy of a processed document; `SyncMarksExactlySelected` states its fields |
| BlogSync.DocTraffic | service/blog_sync_service.py:109-118 | defines the traffic of posting one document as the loop does: `CreatePostTraffic` of its payload with publishing asked |
| BlogSync.RunTraffic | service/blog_sync_service.py:106-122 | defines the traffic of a run, one document after another in the order given; `RunTrafficStep`, `RunTrafficBounds` and `PostSelected` state its properties |
| BlogSync.SyncedStore | service/blog_sync_service.py:105-123 | defines the store a committed run leaves; `SyncMarksExactlySelected`, `SyncIdempotent` and `SyncLeavesNothingPending` state its entries |
| BlogSync.DocTrafficBounds | service/blog_sync_service.py:109-118 | posting one document makes one to eight transport calls and waits at most six times |
| BlogSync.RunTrafficStep | service/blog_sync_service.py:106-122 | the traffic of the first i + 1 selected documents is that of the first i followed by the next document's, which starts at the call where the previous one stopped |
| BlogSync.PostStep | service/blog_sync_service.py:106-122 | one turn of the loop: if the requests and waits so far are those of the first i documents and the turn adds the next document's, they are those of the first i + 1 |
| BlogSync.RunTrafficBounds | service/blog_sync_service.py:106-122 | when each document makes one to eight calls and at most six waits, n documents make n to 8n calls and at most 6n waits |
| BlogSync.SyncTrafficBounds | service/blog_sync_service.py:106-122 | a run over n selected documents makes n to 8n transport calls and waits at most 6n times |
| BlogSync.StagedMarksStep | service/blog_sync_service.py:119-122 | staging the next document adds its marked copy under its position |
| BlogSync.StagedMarksContents | service/blog_sync_service.py:106-122 | after the loop exactly the selected positions are staged, each with its document's marked copy |
| BlogSync.SyncOne | service/blog_sync_service.py:106-122 | authenticates as `ensure_authenticated` does, sends exactly the requests and waits of `DocTraffic` for the document with the client's headers, and stages it with the defaulted title, status 1 and the push time; the store is untouched |
| BlogSync.PostSelected | service/blog_sync_service.py:106-122 | the loop: the requests and waits are exactly `RunTraffic` of the selected documents in order, all with the headers of one `ensure_authenticated`; the staged changes are exactly `StagedMarks`; with at least one document the client ends authenticated as `ensure_authenticated` says and connected with its current headers, and with none the client is untouched |
| BlogSync.SyncSession | service/blog_sync_service.py:103-127 | the store becomes `SyncedStore` of the old one, or stays as it was when the query or the commit fails; the traffic is `RunTraffic` over the pending documents, and nothing when the query fails; when a document was posted the client ends authenticated as `ensure_authenticated` says and connected with its current headers, otherwise its auth view and connection are as before |
| BlogSync.SyncBlogs | service/blog_sync_service.py:97-127 | as `SyncSession`, on the shared client: an existing one keeps its history; a new one is freshly built from the configuration, starts from no traffic, and ends connected, with the flag set and "Bearer <key>" as its only addition to the default headers whenever a key is configured |
| BlogSync.SecondRunSendsNothing | service/blog_sync_service.py:105-123 | run again right after a committed run, the sync sends no request |
| BlogSync.SyncLeavesNothingPending | service/blog_sync_service.py:105-123 | after a committed run nothing is selectable any more |
| BlogSync.SyncIdempotent | service/blog_sync_service.py:105-123 | a second run right after the first changes nothing |
| BlogSync.SyncMarksExactlySelected | service/blog_sync_service.py:109-121 | each selected document gets status 1, the run's time, the defaulted title and its own body; all others are untouched |
| BlogSync.SyncKeepsPushInvariant | service/blog_sync_service.py:120-121 | status 1 always carries a push time, and no document leaves status 1 |
| BlogSync.StrList | service/blog_sync_service.py:69-70 | a list of strings as a JSON array, element by element |
| DbConfig.DatabaseUri | configs/db/__init__.py:20-31 | defines `DATABASE_URI`; `QueryEmptyIff`, `QueryNonEmpty`, `DefaultQuery` and `CredentialsRecoverable` state its parts |
| DbConfig.QueryEmptyIff | configs/db/__init__.py:23-26 | the query is empty exactly when the raw extras are nothing but '&' |
| DbConfig.QueryNonEmpty | configs/db/__init__.py:23-26 | a non-empty query is '?' and the stripped extras, which neither begin nor end with '&' |
| DbConfig.RawExtrasCases | configs/db/__init__.py:23-24 | the charset is appended as `client_encoding` only when it is set |
| DbConfig.QueryWithCharset | configs/db/__init__.py:23-26 | clean extras and a charset give "?extras&client_encoding=charset" |
| DbConfig.QueryCharsetOnly | configs/db/__init__.py:23-26 | empty extras leave only "?client_encoding=charset" |
| DbConfig.DefaultQuery | configs/db/__init__.py:16-17 | with the declared defaults the query is "?client_encoding=utf8mb4" |
| DbConfig.NoQuery | configs/db/__init__.py:23-26 | no charset and no extras give no query |
| DbConfig.CredentialsRecoverable | configs/db/__init__.py:27-31 | the URI starts with "driver://" and its userinfo decodes back to the configured user name and password |
| CeleryApp.Encoded | celery_app.py:12-13 | defines a credential's encoding; `EncodedEmptyIff` states when it is empty |
| CeleryApp.AuthPart | celery_app.py:15-21 | defines `auth_part`; `AuthPartCases` states its cases |
| CeleryApp.BrokerUrl | celery_app.py:25 | defines `BROKER_URL`; `BrokerUrlCases` and `CredentialsRecoverable` state its properties |
| CeleryApp.EncodedEmptyIff | celery_app.py:12-13 | a credential encodes to "" exactly when it is missing or empty |
| CeleryApp.AuthPartCases | celery_app.py:15-21 | "user:pass@" with both credentials, ":pass@" with only a password, and nothing without a password |
| CeleryApp.BrokerUrlCases | celery_app.py:25 | `CELERY_BROKER_URL` wins whenever it is set, even to ""; otherwise "redis://" + auth + host:port + "/0" |
| CeleryApp.AfterScheme | celery_app.py:25 | after "redis://" come the auth part and the location |
| CeleryApp.CredentialsBoth | celery_app.py:15-16 | with both credentials the URL reads back as that user name and password |
| CeleryApp.CredentialsPasswordOnly | celery_app.py:17-19 | with a password only the URL reads back as an empty user name and that password |
| CeleryApp.CredentialsRecoverable | celery_app.py:12-25 | whenever a password is configured, the broker URL carries credentials that decode back to the configured ones |
| AlembicEnv.IncludeObject | alembic/env.py:55-72 | defines `include_object`, its tests in the source's order; `IncludeObjectIff` states it as one rule |
| AlembicEnv.EngineUrl | alembic/env.py:34-39 | defines `get_engine_url`; `EngineUrlReadsBack` states what the configuration reads back |
| AlembicEnv.PrefixesDisjoint | alembic/env.py:58-61 | no name starts with both "ix_" and "ag_" |
| AlembicEnv.IncludeObjectIff | alembic/env.py:55-72 | an object is included exactly when it is not an "ag_" index, an "ag_" table or a table in an excluded schema |
| AlembicEnv.IxIndexIncluded | alembic/env.py:58-59 | an "ix_" index is included |
| AlembicEnv.AgIndexExcluded | alembic/env.py:60-61 | an "ag_" index is excluded |
| AlembicEnv.TableInExcludedSchema | alembic/env.py:62-66 | a table in ag_catalog, pg_jieba, information_schema or pg_catalog is excluded |
| AlembicEnv.AgTableExcluded | alembic/env.py:69-70 | an "ag_" table is excluded |
| AlembicEnv.IndexIgnoresSchema | alembic/env.py:58-72 | an index is judged by its name alone, even in an excluded schema |
| AlembicEnv.OthersIncluded | alembic/env.py:72 | other kinds, and indexes without "ag_", are included |
| AlembicEnv.EscapeRoundTrip | alembic/env.py:36-39 | collapsing "%%" back gives the URL before escaping |
| AlembicEnv.EscapeCounts | alembic/env.py:36-39 | escaping doubles the '%'s, keeps every other character's count, and adds one character per '%' |
| AlembicEnv.EngineUrlReadsBack | alembic/env.py:34-39 | the configuration reads back the rendered URL, or `str(url)` when rendering is unavailable |
| ContextVar.ContextVarWrapper.constructor | libs/contextVar_wrapper.py:11-12 | a new wrapper has nothing stored |
| ContextVar.ContextVarWrapper.Set | libs/contextVar_wrapper.py:15-16 | stores the value, replacing what was there; nothing else changes |
| ContextVar.ContextVarWrapper.Get | libs/contextVar_wrapper.py:18-22 | returns the stored cell, None before any `set`, and changes nothing |
| ContextVar.ContextVarWrapper.Clear | libs/contextVar_wrapper.py:24-25 | stores the empty dict, not None |
| ContextVar.Lifecycle | libs/contextVar_wrapper.py:15-25 | `get` gives None before `set`, then v after `set(v)`; a second `set` overwrites, and after `clear` `get` gives the empty dict |

## Left out

- Real sockets and httpx's internals are not modelled: connection pooling limits, timeouts and `follow_redirects` (`component/halo/base.py:39-48`). A scripted transport replaces them, and the live client is reduced to the values it is built from.
- `time.sleep(2)` becomes the wait counter `sleptSeconds`; no time passes.
- The context-manager entry and exit (`component/halo/base.py:29-34`) are plain `connect`/`close` calls and are not modelled separately. The read-only `headers` property (`component/halo/base.py:265-267`) is the `headers` field.
- Python exceptions are values: `RequestError` with `Message` for the RuntimeError texts, an `Outcome` for what the transport yields, and `Option` for an AttributeError.
- Logging and `print` calls are left out everywhere.
- The query at `service/blog_sync_service.py:105` has no `order_by`, so the database may return the rows in any order. The model takes the order of the stored sequence `committed` as the order the query returns, and the traffic contracts of `PostSelected`, `SyncSession` and `SyncBlogs` are stated for that order.
- Json.Get: returns the first member with the key, while Python's `json.loads` keeps the last of duplicate keys. Every dict this model builds has distinct keys, so only a parsed response body with a repeated key would differ.
- The `JSON` model holds null, booleans, integers, strings, arrays and objects. Floating-point numbers are left out.
- `Repr` writes a string between single quotes without Python's re-escaping of quotes and backslashes. It matters only for error messages.
- `slugify` and `markdown_to_html` are external libraries whose rules are not part of this model. They are parameters.
- `create_post` with a missing (`None`) title or content is not modelled: titles and contents are strings. From `sync_blogs` they always are.
- `create_post`'s return value is not modelled: it always returns None.
- The clock is read twice per document: once for the post name (`service/blog_sync_service.py:46`) and once for the push time (`service/blog_sync_service.py:121`). The model takes one reading `now` for the whole run, so every document of a run gets the same post-name stamp and the same push time.
- SyncBlogs (`BlogSync.SyncBlogs`): its traffic and store contracts use one clock reading for the whole run; a run whose clock ticks between documents, or between a document's two readings, is not modelled.
- SyncSession (`BlogSync.SyncSession`): the same single reading as `SyncBlogs`.
- PostSelected (`BlogSync.PostSelected`): every document's post name and push time come from the same reading `now`.
- SyncMarksExactlySelected (`BlogSync.SyncMarksExactlySelected`): the push time it states is the run's one reading, not a per-document reading taken after that document's post.
- SyncedStore (`BlogSync.SyncedStore`): every selected document gets the same push time `now`, where the code reads the clock again for each document.
- The SQL session is reduced to committed documents, staged changes and two failure switches for the query and the commit. SQL, the `get_db` context manager and the ORM mapping (models/) are not part of this model.
- Failures of `get_halo_client` inside `sync_blogs` are not modelled: with the scripted transport, building the client cannot fail.
- Overlapping sync runs are not modelled, and neither are per-task context isolation or async request state. The context variable is one cell.
- `DB_ENABLED` and `POOL_SIZE` (`configs/db/__init__.py:9,18`) do not enter the URI and are left out.
- `DB_PORT` is rendered with Python's `int` formatting, `IntToString`.
- The Redis settings class is not part of this model. `RedisConfig` takes the port as the text the f-string renders, and the credentials as optional strings.
- The Celery app object, its timezone and its beat schedule (`celery_app.py:27-41`) are configuration of an external library and are left out.
- The migration runners of `alembic/env.py` (lines 80 onward), the logging setup and `get_metadata` are tool I/O. A failure of `render_as_string` is the `rendered` parameter being None.
- `UnescapePercent` is how the configuration reads a value back. Its rejection of a lone '%' is not modelled, because escaped URLs never contain one.
- `quote_plus` follows Python's default (`safe=''`, UTF-8, always-safe set of letters, digits and "_.-~"). Strings are sequences of Unicode scalar values, so lone surrogates, which Python would reject, cannot occur.
