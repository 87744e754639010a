# Api-gateway: the permission gate, the sign-up flows and the handler guards

The Api-gateway is a gin HTTP front for a set of gRPC services (users,
posts, comments, chats, countries, attractions, historical sites,
national foods). Almost every handler binds a request, copies fields into
a gRPC request and writes back the answer. This project models the parts
that decide something, and proves what they decide:

- **The permission gate** (`api/middleware/middleware.go`). Every request
  passes a fixed chain: read the `Authorization` header, extract the
  claims and the role, record `user_id`, ask the casbin enforcer about
  (role, route path, method), re-validate the token, re-extract the
  claims, continue. `Middleware.Gate` is the specification of that chain
  as a pure function. `Middleware.CasbinPermission.PermissionMiddleware`
  is the imperative version over a gin context (`Middleware.Context`, a
  class whose key store, status, bodies, errors and abort/continue flags
  the methods update). Its postcondition states the context's whole new
  state in terms of `Gate`. `CORSMiddleware` sets six headers and answers
  a preflight.
- **Sign-up and password reset** (`api/handler/auth.go`).
  `Auth.AuthHandler` holds the two email-keyed stores: pending
  registrations (form plus mailed code) and reset codes. It also holds a
  log of every mailer and user-service call, so "no call was made" can be
  stated.
- **Query defaults, page arithmetic, and the guard order of the create
  and upload handlers** (the other eight handler files). `Paging.AtoiOr`
  is Go's `strconv.Atoi` with the handler's fallback value. `PageOffset`
  and `ChatOffset` are the two page-to-offset rules. Each handler module
  has a filter function per list handler. It also has one method per
  guarded handler, which returns its reply and the requests it sent.

Oracles are parameters: the token package (`TokenCodec`), the enforcer,
the email-format check, the mailer's outcome, the object-store upload,
and every gRPC call. A Go panic (a failed `MustGet("user_id").(string)` or
`cl["user_id"].(string)`) is the reply `Panic`.

## Model

| member | source | states |
|---|---|---|
| Common.UserIdClaim | api/middleware/middleware.go:38 | the stored `user_id` is the claim when present and Go's `nil` when the claim is missing |
| Common.UserIdOf | api/handler/user.go:165 | `MustGet("user_id").(string)` yields an id exactly when the key holds a string claim; otherwise the handler panics |
| Paging.Atoi | api/handler/user.go:372 | succeeds exactly on an optional sign and one or more ASCII digits; the sign decides the result's sign |
| Paging.AtoiOr | api/handler/user.go:372-380 | any input that is not integer syntax, including the empty string, gives the default; otherwise the parsed value |
| Paging.AtoiDecimal | api/handler/user.go:372-380 | every integer written in decimal parses back to itself |
| Paging.AtoiOrDecimal | api/handler/user.go:372-380 | a decimal query value overrides every default |
| Paging.NatDecimalDigits | api/handler/user.go:372-380 | the decimal form of a natural is a non-empty digit string whose value is that natural |
| Paging.PageOffset | api/handler/country.go:232-236 | pages 0 and 1 start at 0; every other page at (page-1)*limit |
| Paging.PageOffsetCountsEarlierPages | api/handler/country.go:232-236 | for page >= 1 the offset equals the rows of pages 1..page-1, counted page by page |
| Paging.PageOffsetStep | api/handler/country.go:232-236 | for page >= 1, offset(page+1) = offset(page) + limit |
| Paging.ChatOffset | api/handler/chat.go:321-325 | every non-negative page gives offset 0; a negative page p gives (p-1)*limit |
| Paging.ChatOffsetAgreesOnlyUpToPageOne | api/handler/chat.go:321-325 | the chat rule equals the country rule exactly when page <= 1 or limit = 0 |
| Middleware.LookupRole | api/middleware/middleware.go:18-40 | empty header, failed extraction, missing or non-string role, or a role with its claims; each case and its condition in both directions |
| Middleware.Gate | api/middleware/middleware.go:18-91 | the status, body, attached error, stored keys, enforcer question and continuation of every path (an error is attached exactly on `GetRole`'s rejections and on an enforcer error, never on a deny or an invalid token); an empty header is never asked about; the 400 empty-header outcome never occurs; the handler runs iff every check passes |
| Middleware.CasbinPermission.Enforce | api/middleware/middleware.go:51 | answers the enforcer's decision and logs the question |
| Middleware.CasbinPermission.GetRole | api/middleware/middleware.go:18-40 | rejections abort with 401 and their message and leave the keys alone; a found role stores `user_id` and writes nothing |
| Middleware.CasbinPermission.CheckPermission | api/middleware/middleware.go:42-56 | a failed role lookup returns "error while getting a role: Unauthorized" without asking; otherwise it asks (role, full path, method) once and maps the decision |
| Middleware.CasbinPermission.PermissionMiddleware | api/middleware/middleware.go:58-91 | the context's new status, bodies, errors, keys, flags and the enforcer log are exactly those `Gate` gives; a status written before stays |
| Middleware.CorsHeadersInOrder | api/middleware/middleware.go:96-101 | the six header writes in order equal overlaying the CORS header map |
| Middleware.CORSMiddleware | api/middleware/middleware.go:93-109 | the six headers are set on every request; OPTIONS aborts with 200 without continuing; any other method continues |
| Auth.TokenClaims | api/handler/auth.go:157-163 | token claims take id and email from the service answer, username and country from the cached form, role "user" |
| Auth.AuthHandler.MailCode | api/handler/auth.go:77 | mailing a code returns the mailer's outcome and logs one send |
| Auth.AuthHandler.Register | api/handler/auth.go:63-104 | a bad body or address changes nothing and mails nothing; a send failure answers 400 and caches nothing; success caches the eight fields and the code under the address, replacing any earlier entry |
| Auth.AuthHandler.AcceptCodeToRegister | api/handler/auth.go:115-183 | a missing entry answers 500 and a wrong code 400 "Invalid code", both without any call; a match sends one `Register` call with the cached form and mints tokens from `TokenClaims`; the cache never changes |
| Auth.AuthHandler.ForgotPassword | api/handler/auth.go:256-290 | an unknown address answers 500 "User not registered" with no code mailed or stored; mailing or storing failures store nothing; success stores the code under the address |
| Auth.AuthHandler.ResetPassword | api/handler/auth.go:330-372 | no stored code answers 404 and a wrong code 401, both without calls; a match looks the user up and sends `UpdatePassword` with that id and the new password; stored codes are never removed |
| Auth.FirstCodeRefusedAfterSecondSignUp | api/handler/auth.go:95-137 | after two sign-ups for one address the first code is refused with 400 and no call at all is made, so no account is created |
| Auth.LatestCodeRegistersLatestForm | api/handler/auth.go:95-150 | after two sign-ups the second code creates the account from the second form only |
| User.FetchUsersFilter | api/handler/user.go:367-386 | page defaults to 1 and limit to 10 unless integers are given; `name` is the first-name filter |
| User.FetchUsersDefaults | api/handler/user.go:372-386 | a query with only a name asks for page 1 of 10 |
| User.FetchUsersReadsQuery | api/handler/user.go:372-386 | integers written in the query reach the filter unchanged |
| User.FetchUsers | api/handler/user.go:388-394 | one service call with the filter; error 400, success 200 |
| User.ChangePassword | api/handler/user.go:236-275 | an empty password answers 400 "Invalid request body" with no call; `sql.ErrNoRows` → 404 "User not found", any other error → 500, a nil answer → 500 "Internal server error"; the user is the context's |
| User.Forwarded | api/handler/user.go:74-83 | the forwarded request is the body with the role cleared |
| User.CreateNeverForwardsRole | api/handler/user.go:74-83 | whatever role the body asks for, the service sees the same request |
| User.Create | api/handler/user.go:65-92 | bind error 400 with no call; one call with the forwarded request; error 400, success 201 |
| User.UpdateProfile | api/handler/user.go:157-182 | the service's user id is the context's, never the body's; no id panics before any call |
| User.Follow | api/handler/user.go:483-503 | the follower is the context's user; the body only names whom to follow |
| Post.ListPostsRequest | api/handler/post.go:182-202 | offset defaults to 1 and limit to 10 unless integers are given; country and hashtag come from the query |
| Post.ListPostsDefaults | api/handler/post.go:188-196 | an empty query asks for 10 posts from offset 1 |
| Post.ListPostsMalformedOffset | api/handler/post.go:188-191 | an offset with a leading space (" 3") or in hexadecimal ("0x10") falls back to 1, the limit still parsed |
| Post.ListPosts | api/handler/post.go:204-211 | one call; error 400, success 200 under "posts" |
| Post.CreatePost | api/handler/post.go:63-117 | upload failure 400 and missing `user_id` 401 "Unauthorized", both with no call; without a file the form's image URL stays; the author is the context's; error 500, success 201 under "post" |
| Comment.ListCommentsRequest | api/handler/comment.go:179-196 | offset defaults to 1 and limit to 10; the post is the query's `id` |
| Comment.ListCommentsIgnoresPostIdKey | api/handler/comment.go:196 | only the `id` key selects the post |
| Comment.ListComments | api/handler/comment.go:198-204 | one call; error 400, success 200 under "comments" |
| Comment.CreateComment | api/handler/comment.go:56-73 | the author is the context's user; error 400, success 201 under "comment" |
| Comment.UpdateComment | api/handler/comment.go:87-109 | a claim-extraction failure answers 400 with no call; the author is the token's `user_id` claim; success answers 201 |
| Chat.GetChatMessagesRequest | api/handler/chat.go:304-329 | page defaults to 1 and limit to 10; the offset follows the chat page rule; the chat comes from `chat_id` |
| Chat.ChatMessagesStartAtZero | api/handler/chat.go:311-325 | an absent, malformed or non-negative page always reads from offset 0 |
| Chat.ChatMessagesLaterPagesRepeatFirst | api/handler/chat.go:311-325 | any non-negative page written in the query gives offset 0 |
| Chat.ChatMessagesNegativePage | api/handler/chat.go:321-325 | a negative page p gives offset (p-1)*limit |
| Chat.GetChatMessages | api/handler/chat.go:331-337 | one call; error 400, success 200 under "message" |
| Chat.StartMessaging | api/handler/chat.go:58-75 | `user1_id` is the context's user |
| Chat.SendMessage | api/handler/chat.go:89-107 | the sender is the context's user |
| Country.ListCountriesFilter | api/handler/country.go:214-240 | limit defaults to 10 and page to 0; offset by the page rule; name from the query |
| Country.ListCountriesPagesAreConsecutive | api/handler/country.go:222-240 | page p >= 1 skips the rows of the earlier pages; the next page starts limit rows later |
| Country.ListCountries | api/handler/country.go:242-249 | one call; error 500, success 200 |
| Country.ListCityFilter | api/handler/country.go:374-393 | offset read as given (default 0); limit defaults to 10 |
| Country.ListCityTakesOffsetNotPage | api/handler/country.go:381-393 | the city list's offset is the query's offset; a `page` key has no effect |
| Country.ListCity | api/handler/country.go:395-402 | one call; error 500, success 200 |
| Country.CreateCountry | api/handler/country.go:59-95 | a missing file or a failed upload answers 400 with no call; the request is the `country` field and the uploaded URL; error 500, success 201 |
| Country.UpdateCountry | api/handler/country.go:134-178 | without a file, id and name only and no upload; with a file, a failed upload answers 400 with no call, else the URL is sent too |
| Country.DeleteCity | api/handler/country.go:350-361 | sends `DeleteCountry` with the path id |
| Attractions.ListAttractionsFilter | api/handler/attractions.go:205-230 | offset defaults to 0 and limit to 1; name, description, city and category from the query; no country |
| Attractions.ListAttractionsDefaults | api/handler/attractions.go:215-224 | an empty query asks for one attraction |
| Attractions.ListAttractions | api/handler/attractions.go:233-240 | one call; error 500, success 200 |
| Attractions.ListAttractionTypesFilter | api/handler/attractions.go:464-490 | limit defaults to 10 and page to 0; offset by the page rule |
| Attractions.ListAttractionTypesPageWindow | api/handler/attractions.go:472-490 | page p >= 1 starts after the rows of the earlier pages |
| Attractions.ListAttractionsType | api/handler/attractions.go:492-499 | one call; error 500, success 200 |
| Attractions.SearchAttractionsRequest | api/handler/attractions.go:254-264 | limit and offset forwarded as text, unparsed; the term from `search_term` |
| Attractions.SearchForwardsUnparsedWindow | api/handler/attractions.go:257-264 | a non-numeric limit reaches the search service as written |
| Attractions.SearchAttractions | api/handler/attractions.go:266-272 | one call; error 500, success 200 |
| Attractions.CreateAttraction | api/handler/attractions.go:70-116 | missing file 400 "File upload is required", failed upload 500, both with no call; the request carries the uploaded URL; error 500, success 201 |
| Attractions.UpdateImage | api/handler/attractions.go:288-317 | a missing file or failed upload answers 400 with no call; the request is the path id and the URL; error 500 |
| History.ListHistoricalFilter | api/handler/history.go:194-219 | page defaults to 0 and limit to 10; offset by the page rule; country always empty |
| History.ListHistoricalIgnoresCountry | api/handler/history.go:196-219 | for every query, setting `country` never changes the filter |
| History.ListHistoricalPageWindow | api/handler/history.go:202-219 | page p >= 1 starts after the rows of the earlier pages |
| History.ListHistorical | api/handler/history.go:221-228 | one call; error 400, success 200 |
| History.AddHistorical | api/handler/history.go:59-101 | missing file 400 "File upload is required", failed upload 500, both with no call; the request carries the form's city, name, description and the URL |
| History.UpdateHisImage | api/handler/history.go:270-299 | missing file, failed upload and service error all answer 400; the request is the path id and the URL; success 201 |
| NationalFoods.ListNationalFoodsFilter | api/handler/national_foods.go:192-211 | offset defaults to 0 and limit to 1; country from the query |
| NationalFoods.ListNationalFoodsDefaults | api/handler/national_foods.go:198-211 | a query with only a country asks for one food of it |
| NationalFoods.ListNationalFoods | api/handler/national_foods.go:212-218 | one call; error 500, success 200 under "response" |
| NationalFoods.UpdateImage | api/handler/national_foods.go:234-265 | a missing file or failed upload answers 400 with no call; error 500; success 201 with the uploaded URL as the message |
| NationalFoods.CreateNationalFood | api/handler/national_foods.go:55-101 | without a file the form goes on unchanged; with one, a failed upload answers 400 with no call, else the URL replaces the form's |

## Left out

- Token package: `ExtractClaims`, `ValidateToken` and the token minting are oracles (`TokenCodec`, `mintAccess`, `mintRefresh`). Signing, expiry and parsing are not modelled.
- Middleware.Gate: the codec is a function of the token. So the second `ExtractClaims` (api/middleware/middleware.go:83) cannot fail once the first succeeded, and its 400 "Token invalid claims" branch is kept as unreachable. An expiry that falls between the two calls is not modelled.
- The casbin enforcer, its model and its policy file are an oracle returning allow, deny or an error.
- gin itself: only the context behaviour the gate uses is modelled (`WriteHeader` keeps the first written status, the abort helpers, `Set`, `Next`, header writes). The `Recovery` middleware, which turns a handler panic into a 500, is not modelled; a panic is the reply `Panic`.
- Redis: the two stores are maps. The key `SetRegister` uses is taken to be the email, as the lookup by email implies. A failed write is a parameter. A lookup fails only on a missing key, with the text "redis: nil"; connection errors and time-to-live expiry are not modelled. The 10-second context timeout of `AcceptCodeToRegister` is left out.
- Email sending, code generation and `checkmail.ValidateFormat` are parameters: the mailer's outcome per call, and a format predicate.
- All gRPC calls are oracles from request to answer or error. Their answers are opaque type parameters. The only exceptions are the auth flows' `RegisterResponse` and the national-food image answer, which is modelled as a message-only record.
- MinIO uploads are an oracle from file to URL or error. `c.FormFile` is an input that is either a file or an error.
- Pass-through handlers: like.go, basic-additional.go and handler.go are not modelled. Neither are the other handlers in the eight files, which only copy fields and forward.
- Wiring: config loading, service construction, cmd/main.go and api/router.go are not modelled. The router registers only the permission middleware; CORS is modelled on its own.
- Broken field mappings are modelled for control flow only. national_foods.go:81-90 does not compile, so `CreateNationalFood` forwards its bound form. attractions.go:98 reads a `City` the form lacks, so the attraction request has no city. country.go:135 binds an undefined type, modelled as an id and a name. national_foods.go:212 passes a models type as the request, modelled as the list filter.
- Timestamps (`time.Now` in `CreateAttraction`), logging, `fmt.Println`, cookies of `LoginUsername`, and `RegisterAdmin` are not modelled. `LoginEmail` and `LoginUsername` are pass-through.
- Paging.Atoi: integers are unbounded; the int64 range error of `strconv.Atoi` and the int32/int64 narrowing of the filters are not modelled.
- The binding of JSON and multipart bodies is an input: either the bound value or the binder's error.
