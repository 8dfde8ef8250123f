# MediaFetcher core, modelled in Dafny

MediaFetcher resolves a YouTube video id into a downloadable stream and e-mails the link to the requesting user through a RabbitMQ queue. This project models the decision logic between its libraries:

- the YouTube service: the container-format check, the provider lookup, and how provider and Data API failures become HTTP errors;
- the escape-sequence filter that cleans provider error text, `re.sub(r'(?:\x1B[@-_]|[\x80-\x9F])[0-?]*[ -/]*[@-~]', '', text)`;
- the older `main.py` endpoints, whose error mapping differs from the service's;
- the user model and the authorisation decisions: role check, current-user lookup, token claims and expiry, basic-credential verification;
- the notification message built by the publisher;
- the consumer's per-message handler, with its acknowledgement and dead-letter publish.

Library calls are outcome values, not code. These are pytube, aiohttp, aio_pika, SMTP, JWT, bcrypt and the clock. A provider lookup is a function from the query to a `StreamOutcome`. A Data API request is an `ApiOutcome`. Each collaborator step of the handler (send, ack, dead-letter publish) is a success flag. A decoded token is a `DecodedToken`. A password check is a function `verify`, and the time is an integer `now` in Unix seconds. An endpoint ends in one of three ways (`Http.Outcome`): `Returned(value)`, `Raised(HttpError)`, or `Crashed(fault)` for any other uncaught Python exception, which FastAPI answers with 500. The text of `str(e)` for a caught HTTPException or KeyError is Starlette's and Python's formatting. It is kept symbolic (`Detail.StrOfHttp`, `Detail.StrOfLookup`, `Detail.StrOfFault`). Starlette's HTTPException constructor is modelled too (`Http.NewHttpException`): without a detail it looks up the status's reason phrase, and that lookup raises ValueError for a code Python's `http.HTTPStatus` does not list.

Files: `wrappers.dfy` (Option, Result), `json.dfy` (decoded JSON, truthiness, subscripting), `http.dfy`, `provider.dfy`, `ansi.dfy`, `youtube_service.dfy`, `legacy_api.dfy` (main.py), `users.dfy` (models/user.py and the seeded table of database.py), `auth.dfy`, `broker.dfy`, `publisher.dfy` (service/rabbitmq_service.py), `worker.dfy`, `notification_flow.dfy` (publisher against consumer).

Four behaviours of the code worth knowing; the model follows the code:

- The consumer has no retry. A failed message is republished unchanged to routing key `email_ttl_queue`. `MAX_RETRIES` is never consulted, and `attempts` is neither read nor incremented.
- A fresh message carries `attempts` = 1.
- The `main.py` shown has no cache. The cache-aside path and its key format are not part of this model.
- The legacy endpoint passes provider error text through unfiltered.

## Model

| member | source | states |
|---|---|---|
| AnsiEscape.IntroducerLength | service/youtube_service.py:60 | an introducer is ESC followed by @.._ (length 2) or one C1 control U+0080..U+009F (length 1); the two alternatives exclude each other |
| AnsiEscape.ParameterEnd | service/youtube_service.py:60 | the greedy `[0-?]*`: where the run of parameter characters starting at a position ends |
| AnsiEscape.IntermediateEnd | service/youtube_service.py:60 | the greedy `[ -/]*`: where the run of intermediate characters starting at a position ends |
| AnsiEscape.MatchIsEscape | service/youtube_service.py:60 | every match the greedy scan reports is an introducer, parameters, intermediates and one final character |
| AnsiEscape.EscapeIsMatch | service/youtube_service.py:60 | any prefix the pattern matches is exactly the one the scan finds, so a match has only one reading |
| AnsiEscape.MatchLength | service/youtube_service.py:60 | a reported match is at least two characters, fits in the text and starts with an introducer; that it is the pattern's only match there is stated by MatchIsEscape and EscapeIsMatch |
| AnsiEscape.StripSubstitutes | service/youtube_service.py:60-61 | the filter's output is a result of the declarative leftmost, non-overlapping substitution of every match by the empty string |
| AnsiEscape.SubstitutionIsStrip | service/youtube_service.py:60-61 | any result of that declarative substitution is the filter's output: the substitution has exactly one result |
| AnsiEscape.Strip | service/youtube_service.py:61 | the filtered text is never longer than its input |
| AnsiEscape.StripIsSubsequence | service/youtube_service.py:61 | the filter only deletes characters; the kept ones stay in order |
| AnsiEscape.StripClean | service/youtube_service.py:60-61 | text without ESC and without U+0080..U+009F is returned unchanged |
| AnsiEscape.StripCleanPrefix | service/youtube_service.py:60-61 | a prefix without such characters passes through, and filtering continues after it |
| AnsiEscape.DropsLeadingEscape | service/youtube_service.py:60-61 | a sequence at the front is removed whole, whatever follows |
| AnsiEscape.SinglePass | service/youtube_service.py:61 | one pass only: for ESC, U+009B, "m[m" the output is ESC "[m", itself a sequence that a second pass would remove |
| YoutubeService.ParseFormat | service/youtube_service.py:16-19 | the enum accepts exactly "mp4", "webm", "mkv" and returns the member with that value |
| YoutubeService.DefaultService | service/youtube_service.py:22-24 | the default format is "mp4" |
| YoutubeService.FormatCheck | service/youtube_service.py:47 | a set, non-empty format passes iff it is "mp4", "webm" or "mkv" |
| YoutubeService.UnsupportedFormatSkipsProvider | service/youtube_service.py:47-51 | any other non-empty format is 400 "Unsupported format: " + fmt, the same whatever the provider would say |
| YoutubeService.NoFormatIsNotChecked | service/youtube_service.py:47-52 | a None or empty format skips the check; the provider's answer decides |
| YoutubeService.GetStream | service/youtube_service.py:44-62 | `get_stream` never lets an exception other than an HTTPException escape |
| YoutubeService.GetStreamMapping | service/youtube_service.py:46-62 | the provider gets the watch link and the format; a listing is returned, VideoUnavailable is 404 "Video not found", any other error is 400 with the filtered text |
| YoutubeService.GetStreamDetailIsFiltered | service/youtube_service.py:58-62 | the generic 400's detail is the provider's text with characters deleted only |
| YoutubeService.FetchVideoInfo | service/youtube_service.py:64-67 | no contract of its own: the thread-pool call answers what `get_stream` answers; stated by GetStream and GetStreamMapping |
| YoutubeService.GetVideoData | service/youtube_service.py:26-42 | `get_video_data` never lets an exception other than an HTTPException escape |
| YoutubeService.ErrorMessage | service/youtube_service.py:37 | no contract of its own: `result["error"]["message"]`; stated by NonOkBecomesBadRequest |
| YoutubeService.VideoDataMapping | service/youtube_service.py:32-42 | a 200 answer returns its body; a ClientError (and only that) is 503 "Service youtube unavailable"; everything else is 400 |
| YoutubeService.NonOkBecomesBadRequest | service/youtube_service.py:36-42 | a non-200 answer becomes 400, because the handler at :41 catches the HTTPException raised at :37; its detail is str() of that exception, of the reason-phrase ValueError when the message is null and the code unlisted, or of the lookup error |
| Provider.WatchLinkShape | service/youtube_service.py:46 | the link is "https://www.youtube.com/watch?v=" followed by the id, and determines the id |
| Provider.WatchLink | service/youtube_service.py:46 | no contract of its own: the watch link of an id; stated by WatchLinkShape |
| LegacyApi.NonOkStatusPassesThrough | main.py:23-27 | a non-200 status that Python's `http.HTTPStatus` lists is raised unchanged with its reason phrase, whatever the body; any other code (299, 520, …) makes Starlette's constructor raise ValueError, which nothing catches (500) |
| LegacyApi.GetVideoData | main.py:17-27 | no contract of its own: no handler, a non-200 status raised without detail; stated by NonOkStatusPassesThrough |
| Http.NewHttpException | main.py:26 | no contract of its own: Starlette's constructor, whose reason-phrase lookup raises ValueError for an unlisted code; stated by LegacyApi.NonOkStatusPassesThrough |
| LegacyApi.GetDataFromYoutube | main.py:46-51 | no contract of its own: the first item or 404; stated by ItemSelection and NonObjectResponse |
| LegacyApi.FirstOf | main.py:51 | no contract of its own: `res['items'][0]` of a truthy value; stated by ItemSelection |
| Json.Subscript | main.py:48-51 | `value[key]` succeeds exactly for an object holding the key; otherwise a KeyError for an object and a TypeError for any other value |
| Json.Contains | main.py:48 | `key in value` raises exactly for numbers, booleans and null; for an object it holds exactly when the subscript would succeed, for a list exactly when the key is an element |
| LegacyApi.ItemSelection | main.py:46-51 | no "items" key or falsy items is 404 "Failed to fetch video data"; otherwise the first item |
| LegacyApi.NonObjectResponse | main.py:48-51 | a response that is no object is 404 exactly when `in` finds no "items" in it; otherwise the `in` test or the subscript raises |
| LegacyApi.GetStreamMapping | main.py:30-37 | only mp4 is asked for; every failure is 400, including "no stream", whose 404 is caught and rendered into the 400's detail |
| LegacyApi.GetStream | main.py:30-37 | no contract of its own: the mp4 lookup with its single handler; stated by GetStreamMapping and ProviderTextUnfiltered |
| LegacyApi.ProviderTextUnfiltered | main.py:36-37 | the provider's error text is the detail unfiltered |
| LegacyApi.MetadataIsStreamUrl | main.py:54-58 | the download link looks up the watch link of the id and answers with the stream's url |
| LegacyApi.GetMetadata | main.py:54-58 | no contract of its own: the stream url of the watch link; stated by MetadataIsStreamUrl |
| Users.ParseRole | models/user.py:7-10 | a role is "admin", "manager" or "user" and nothing else |
| Users.GetUser | models/user.py:18-23 | an unknown name is None; a known one is the entry's username, hash and role; an entry with another role fails validation |
| Users.SeededUsersResolve | database.py:5-22 | every seeded key finds a user whose name and role equal the key |
| Users.FakeUsersDb | database.py:5-22 | no contract of its own: the three seeded users; stated by SeededUsersResolve |
| Auth.AccessClaimsContent | auth.py:29-36 | `exp` = now + delta or now + 30 minutes, and an `exp` past the datetime range raises OverflowError; otherwise `sub` = data["name"], `role` = data["role"], and a missing key raises |
| Auth.RefreshClaimsContent | auth.py:39-47 | `sub` = str(data), `exp` = now + delta or now + 7 days; an `exp` past the datetime range raises OverflowError |
| Auth.RefreshOutlivesAccess | auth.py:12-13 | with the default lifetimes, a refresh token issued at the same time expires after the access token |
| Auth.AccessTokenClaims | auth.py:29-36 | no contract of its own: the access token's claims up to signing; stated by AccessClaimsContent |
| Auth.RefreshTokenClaims | auth.py:39-47 | no contract of its own: the refresh token's claims up to signing; stated by RefreshClaimsContent |
| Auth.CurrentUserForbidden | auth.py:64-82 | an undecodable token, an `exp` outside the datetime range and an expired one (exp < now) are all 403 "Could not validate credentials"; the dependency never answers 401 |
| Auth.CurrentUserLookup | auth.py:83-90 | a live token whose `sub` is no key is 404 "Could not find user"; a key whose entry has a listed role returns the user built from that entry (name, hash and role); an entry with any other role fails validation, which crashes (500) |
| Auth.SeededCurrentUserIsSubject | auth.py:83-90 | with the seeded table, the returned user's name is the token's `sub` |
| Auth.GetCurrentUser | auth.py:64-90 | no contract of its own: the current-user dependency; stated by CurrentUserForbidden, CurrentUserLookup and SeededCurrentUserIsSubject |
| Auth.VerificationNeverAccepts | auth.py:50-61 | as written, credentials are never accepted, and a known user name crashes the request |
| Auth.VerificationAsWritten | auth.py:50-61 | no contract of its own: `verification` as written; stated by VerificationNeverAccepts |
| Auth.VerificationAccepts | auth.py:50-61 | corrected: True iff the user exists and the password verifies; otherwise 401 "Incorrect email or password" with a Basic challenge |
| Auth.Verification | auth.py:50-61 | no contract of its own: `verification` with the module's `verify_password`; stated by VerificationAccepts |
| Auth.RoleCheck | auth.py:93-102 | True iff the user's role is among the allowed roles, else 401 "You don't have enough permissions"; never False |
| Auth.RoleChecker.Call | auth.py:97-102 | no contract of its own: `RoleChecker.__call__`; stated by RoleCheck |
| Publisher.NotificationMessage | service/rabbitmq_service.py:14-19 | the message has exactly the keys recipient, subject, body and attempts |
| Publisher.MessageFields | service/rabbitmq_service.py:14-19 | recipient is the e-mail argument; subject is the fixed text; body is the fixed prefix followed by the url; attempts is 1 |
| Publisher.MessageDependencies | service/rabbitmq_service.py:15-17 | the subject depends on neither input; the body depends on the url alone and determines it |
| Publisher.PublishMessage | service/rabbitmq_service.py:10-23 | one call publishes exactly one message, built from (url, user_email), to routing key "email_queue" |
| Worker.TopologyFacts | worker.py:18-72 | prefetch 1; the handler consumes "email_queue"; "email_ttl_queue" is durable with x-message-ttl 1000 and x-dead-letter-exchange "dlx" |
| Worker.Startup | worker.py:64-72 | no contract of its own: the channel calls of `main`, in order; stated by TopologyFacts |
| Worker.ReadEmailFields | worker.py:47-50 | the handler can go on iff the body decodes to an object with recipient, subject and body, and it reads those three values |
| Worker.OtherFieldsIgnored | worker.py:47-50 | adding or changing any other field, `attempts` included, changes nothing the handler does |
| Worker.ReadEmail | worker.py:47-50 | no contract of its own: `json.loads` and the three subscripts; stated by ReadEmailFields and OtherFieldsIgnored |
| Worker.DeliveredPath | worker.py:47-52 | with the three fields and a successful send: one send with those values, an ack, no dead-letter publish |
| Worker.MalformedPath | worker.py:47-60 | an undecodable body or a missing field: no send, no ack, one dead-letter publish |
| Worker.SendFailurePath | worker.py:39-60 | a failed send, re-raised by `send_email`, skips the ack and leads to one dead-letter publish |
| Worker.Process | worker.py:44-60 | no contract of its own: the handler's decisions for one message; stated by DeliveredPath, MalformedPath, SendFailurePath and AckOrDeadLetter, and tied to Consumer.OnMessage |
| Worker.AckOrDeadLetter | worker.py:51-60 | when the dead-letter publish succeeds, each message is either explicitly acked (worker.py:52) or dead-lettered, never both and never neither |
| Worker.Consumer.OnMessage | worker.py:44-61 | the handler makes the sends, acks and publishes `Process` decides and no others; the forwarded message is the original |
| NotificationFlow.SameQueue | service/rabbitmq_service.py:22 | the publisher's routing key is the consumer's QUEUE_NAME, not the dead-letter queue |
| NotificationFlow.PublishedMessageIsReadable | service/rabbitmq_service.py:14-19 | a published message always has the three fields the handler reads, so it never takes the missing-field path |
| NotificationFlow.PublishedMessageIsDelivered | worker.py:47-52 | when send and ack succeed, a published message is sent to the user's address with the fixed subject and the url's body, then acked |
| NotificationFlow.PublishAndConsume | service/rabbitmq_service.py:10-23 | publishing one message and then handling it calls `send_email` once with the published values |

## Findings

| source | as written | input that shows it | evidently intended | confidence | as-written member | corrected member |
|---|---|---|---|---|---|---|
| auth.py:54 | `verification` calls `User.verify_password`, which the User model in models/user.py does not define | user name "admin" from the seeded table, any password: AttributeError, answered with 500 | call the module's own `verify_password` (auth.py:25-26): True iff the password verifies, else 401 | not executed; high: no `verify_password` appears in models/user.py | Auth.VerificationNeverAccepts | Auth.VerificationAccepts |

## Left out

- I/O: logging, the `print` calls, and the MIME/SMTP work inside `send_email` (worker.py:28-41). The model keeps only whether the send succeeded.
- RabbitMQ connections: `connect_robust`, channels, and what happens when the publisher cannot connect.
- The handler's context manager, `message.process(ignore_processed=True)` (worker.py:45). Its automatic ack on a normal exit is not modelled, and neither is its reject on an exception. That automatic ack also acks a dead-lettered message, because the handler catches the exception and exits normally. Only the explicit ack at worker.py:52 is recorded.
- The dead-letter TTL and the forwarding to exchange "dlx": these are broker behaviour. The model keeps only the queue arguments.
- Thread pools: `fetch_video_info` (service/youtube_service.py:64-67, main.py:40-43) is a direct call of `get_stream` (`YoutubeService.FetchVideoInfo`). The pool sizing and the concurrency it gives are not modelled.
- pytube's stream filtering and ordering: the "best stream or none" answer is an input (`Listed(best)`).
- The JSON wire encoding: a message body is either a decoded JSON document or bytes that do not decode. The model assumes that `json.loads` undoes `json.dumps`. JSON floats are not modelled.
- Python's rendering of exceptions in `str(e)`: for a caught HTTPException or lookup error, the detail is kept as the exception itself.
- JWT signing and decoding, bcrypt (`get_hashed_password`, `verify_password`) and the clock are inputs. So are pydantic's TokenPayload validation, which models/token.py would define and which is not part of this model, and Python's `str(data)` for the refresh token.
- The datetime range is taken as whole Unix seconds from 0001-01-01 00:00:00 to 9999-12-31 23:59:59. Microseconds are not modelled, and neither is the platform limit of `datetime.fromtimestamp`.
- UTC and local time: `create_access_token` uses UTC time, while `get_current_user` compares against local time. The model uses one integer clock.
- `expires_delta` is annotated `int`, but `datetime.utcnow() + expires_delta` (auth.py:31, :41) raises TypeError when a real `int` is passed. The model does not reproduce that TypeError: it reads the argument as a timedelta given in seconds.
- pydantic validation of a user entry: only the role is checked. Missing or mistyped fields in an entry are not modelled.
- The cache layer (service/redis_service.py), celery_worker.py, service/instagram_service.py, utils.py's `is_valid` and `Source`, settings.py, logger.py and schemas/user.py: these are plumbing around libraries, or not called by the modelled code.
- LegacyApi.ItemSelection: its second ensures covers list-valued `items` only. The model also handles a string-valued `items` (first character) and other truthy values (crash), but the lemma does not state those cases.
