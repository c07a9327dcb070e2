# MDBots bot-list REST API — a Dafny model

This project models the core of the MDBots bot-list REST API, an Express
application. Users sign in with Discord through the OAuth2
authorization-code grant and then list, register, edit and remove Discord
bots stored in a database.

The model covers these parts:

- **`HttpError`** and the axios status-name table it reads from (`http_error.dfy`).
- **The form encoding** `URLSearchParams.toString()` applies to the OAuth2
  requests (`form_encoding.dfy`). This is the
  `application/x-www-form-urlencoded` serializer of the WHATWG URL Standard,
  section 5.2, with its parser as the partner.
- **The two Discord services:**
  - `DiscordAuth` builds the authorize URL, exchanges a code, refreshes a
    token and fetches the signed-in profile (`discord_auth.dfy`).
  - `DiscordBot` looks up a bot account (`discord_bot.dfy`).
  - Both build CDN image addresses (`discord_api.dfy`).
- **The Joi schemas** `botCreate` and `botUpdate`, and the validator they run
  (`bot_model.dfy`).
- **The bot table** and the Prisma calls of `BotRepository` (`bot_repository.dfy`):
  - a class `BotStore` whose `rows` the methods `Create`, `Update` and
    `Delete` change in place;
  - the `where` builder;
  - filtered pages and counts.
- **`UserRepository`**: a user's bots and their number (`user_repository.dfy`).
- **The `isAuthenticated` middleware** (`is_authenticated.dfy`).
- **The three routers:**
  - `/auth`: login, callback, logout, verify (`auth_controller.dfy`);
  - `/bots`: list, get, create, update, delete (`bots_controller.dfy`);
  - `/me`: profile, own bots (`me_controller.dfy`).
  - An Express response object records the status, redirect, cookies and
    payload (`http_response.dfy`).
- **`Handler`** (`handler.dfy`): mounts the controllers, and holds the
  central error responder and the 404 fallback.

## How outside calls are modelled

Outside calls arrive as parameters:

- **HTTP replies from Discord.** `post` maps a form body to an outcome, and
  `get` maps a path or header to an outcome.
- **The token codec.** `decode` maps a token to claims or `None`; `encode`
  is given as a service.
- **`cookie.parse`, `parseInt` and Joi's string-to-number/boolean/date
  conversions.** These are functions handed to the model.
- **The folder listing of `readdirSync`.**
- **The two Discord services inside the controllers.** They are function
  parameters. `AuthController.Lift` and `BotsController.DiscordLookup` bind
  them to the modelled services.

## Conventions

- **JavaScript values** are `Values.Value`: `undefined`, `null`, booleans,
  integers, strings and dates. Objects are maps from names to values.
- **Errors.** Every thrown error is an `Err(status, message)`. Status 0
  stands for an error without a `status` property, such as a Prisma error or
  a `TypeError`, which the responder turns into 500.
- **Handler results.** A handler ends in `JsonAnswer(body)` or
  `NextError(err)`: what it passes to `res.json` or to `next`.

## Model

| member | source | states |
|---|---|---|
| HttpError.KeyOfCodeComplete | src/core/HttpError.js:4 | every name of the axios status table is found again from its numeric code, so `Status[code]` and the name table are inverse |
| HttpError.KeyOfCode | src/core/HttpError.js:4 | `Status[code]` answers only names whose own code is that code |
| HttpError.StatusName | src/core/HttpError.js:4 | a name read for a code is listed under that code and is never empty |
| HttpError.NewHttpError | src/core/HttpError.js:9-12 | a falsy status becomes 500, a falsy message becomes the status's table name (empty when the code has none); the status is never falsy |
| HttpError.NamedStatusCarriesItsName | src/core/HttpError.js:9-12 | `new HttpError(code)` with a named code carries that code and the code's own name as its message |
| HttpError.UsedCodes | src/core/HttpError.js:4 | the codes the handlers throw read as BadRequest, Unauthorized, NotFound, Conflict, InternalServerError, and `new HttpError(401)` says `Unauthorized` |
| FormEncoding.Encode | src/app/services/DiscordAuth.js:17-24 | the percent-encoding of a name or value never contains the separators `&` and `=` and is at least as long as the input |
| FormEncoding.EncodeSpaceJoined | src/app/services/DiscordAuth.js:17-18 | space-separated unreserved words serialize with `+` in place of each space |
| FormEncoding.DecodeEncode | src/app/services/DiscordAuth.js:17-24 | decoding the encoding of any string gives the string back (UTF-8 percent-encoding round trip) |
| FormEncoding.ParseSerialize | src/app/services/DiscordAuth.js:17-24 | parsing a serialized parameter list gives back the same pairs in the same order |
| FormEncoding.FirstPairPrefix | src/app/services/DiscordAuth.js:24 | a serialized list of two or more pairs begins with its first pair and `&` |
| DiscordApi.ImageFormat | src/app/services/DiscordAuth.js:103 | the format is `gif` exactly when the hash begins with `a_`, `png` otherwise |
| DiscordApi.ImageUrl | src/app/services/DiscordAuth.js:104-106 | every image URL is on the CDN and ends with `?size=4096`; a custom image's URL ends with its format |
| DiscordApi.ResolveImageAsWritten | src/app/services/DiscordBot.js:27-35 | the written image step succeeds exactly for a string hash; only the empty string reaches the default avatar |
| DiscordApi.ResolveImage | src/app/services/DiscordBot.js:27-35 | the intended image step gives the default exactly for a falsy hash and fails only for a truthy non-string; it agrees with the written step wherever that succeeds |
| DiscordApi.NullHashThrows | src/app/services/DiscordAuth.js:103-106 | a `null` hash makes the written step throw the TypeError and the intended step give the default avatar |
| DiscordAuth.GetOAuthUrl | src/app/services/DiscordAuth.js:16-26 | the URL is the authorize endpoint followed by a query that parses back to scope, redirect_uri, client_id and response_type, in that order |
| DiscordAuth.AuthorizeUrlBeginsWithScope | src/app/services/DiscordAuth.js:17-24 | the authorize URL begins with `scope=guilds.join+identify+email&` |
| DiscordAuth.Normalise | src/app/services/DiscordAuth.js:49-54 | a caught error becomes a 400 that keeps its own message, or the fixed message when that is empty |
| DiscordAuth.TokenReply | src/app/services/DiscordAuth.js:44-53 | only a 200 reply with an object body succeeds, giving that body; anything else, a falsy body included, is the fixed 400 |
| DiscordAuth.RequestToken | src/app/services/DiscordAuth.js:32-55 | no code: 400 `Code não definido`; otherwise the reply to the serialized exchange body; every failure is a 400 with a non-empty message |
| DiscordAuth.RefreshToken | src/app/services/DiscordAuth.js:61-88 | no refresh token: 400 `RefreshToken não definido`; otherwise the reply to the serialized refresh body; every failure is a 400 with a non-empty message |
| DiscordAuth.NoRequestWithoutCredential | src/app/services/DiscordAuth.js:34 | without a code or refresh token the endpoint's reply plays no part |
| DiscordAuth.RequestBodiesParse | src/app/services/DiscordAuth.js:36-42 | the exchange and refresh bodies parse back to the grant parameters in order |
| DiscordAuth.AuthUser | src/app/services/DiscordAuth.js:108-113 | the profile has exactly id, username, avatar_url and email, taken from the reply |
| DiscordAuth.FetchAuthUserAsWritten | src/app/services/DiscordAuth.js:94-126 | the written profile fetch: no token is 400 `Token não definido`, a failed call the fixed 400, a `null` body the TypeError of reading `avatar`; for any other body it succeeds exactly when `avatar` is a string (the empty string giving the default URL, another its CDN URL), and otherwise answers the `startsWith` TypeError for that value, so an empty body reads `avatar` as `undefined` |
| DiscordAuth.FetchAuthUser | src/app/services/DiscordAuth.js:94-126 | the intended fetch: the same guards and `null`-body error; for any other body a falsy avatar gives the default URL, a string avatar its CDN URL, a truthy non-string the `startsWith` TypeError; it agrees with the written fetch wherever that succeeds |
| DiscordAuth.NullAvatarProfile | src/app/services/DiscordAuth.js:103-106 | for a profile with `avatar: null` the written fetch answers 400 with the TypeError's message, the intended one the default avatar |
| DiscordBot.BotProfile | src/app/services/DiscordBot.js:37-42 | the returned bot has exactly id, `username#discriminator`, avatar_url and banner_url |
| DiscordBot.Account | src/app/services/DiscordBot.js:20-25 | no id: 400 `Id do bot não definido`; success exactly for a 200 reply with an object body whose `bot` is truthy; a failed call, another status or a falsy body is the fixed 400 `Erro ao buscar dados do bot`; a user that is not a bot is 400 `Esse id não é de um bot` |
| DiscordBot.GetBotByIdAsWritten | src/app/services/DiscordBot.js:18-51 | the written lookup: a guard failure passes through; after it, it succeeds exactly when both written image steps succeed, answering the profile built from their images, and otherwise answers the first failing step's TypeError as a 400 |
| DiscordBot.GetBotById | src/app/services/DiscordBot.js:18-51 | the intended lookup: the same, built from the intended image steps; each falsy image gives the default URL and each string hash its CDN URL, in all four combinations; it agrees with the written lookup wherever that succeeds |
| DiscordBot.NullBannerBot | src/app/services/DiscordBot.js:32-35 | a bot with an avatar and `banner: null` makes the written lookup answer the TypeError and the intended one the default banner URL |
| BotModel.CheckKind | src/app/repositories/models/botModel.js:3-24 | a present value passes a type rule exactly when it is accepted for that rule, the converted value has the rule's type, and a failure message starts with the quoted key |
| BotModel.CheckField | src/app/repositories/models/botModel.js:3-24 | a field holds exactly when its rule accepts the value; an absent required field fails with `"name" is required`, an absent optional one gives its default; a failure message starts with the quoted key |
| BotModel.CheckFields | src/app/repositories/models/botModel.js:3-24 | all fields pass exactly when every field of the schema holds for its entry |
| BotModel.CheckFieldsReportsFirstFailure | src/app/repositories/models/botModel.js:3-24 | a failed field check reports the first field, in schema order, that does not hold, with that field's own message |
| BotModel.UnknownKeyIsFirst | src/app/repositories/models/botModel.js:3 | the key reported as unknown is the first undeclared key of the body |
| BotModel.UnknownKey | src/app/repositories/models/botModel.js:3 | no unknown key exactly when every entry is declared; a reported key is undeclared and present |
| BotModel.Validate | src/app/repositories/models/botModel.js:3-24 | validation succeeds exactly when the body conforms to the schema; a failure carries the message of the first field, in schema order, that does not hold, which starts with that field's quoted name, or, when every field holds, `"key" is not allowed` for the first undeclared key of the body |
| BotModel.CheckFieldsValue | src/app/repositories/models/botModel.js:3-24 | the validated value holds every field's converted value or default, and only declared keys |
| BotModel.ValidatedValue | src/app/repositories/models/botModel.js:3-24 | a validated body conforms, each field holds in the value, and the value has only declared keys |
| BotModel.CreateRequirements | src/app/repositories/models/botModel.js:3-9 | an accepted create body has non-empty string botId and ownerId, a 10-140 character short description and an optional non-empty description |
| BotModel.CreateValue | src/app/repositories/models/botModel.js:3-9 | the validated create value keeps botId, ownerId and shortDescription, and `isSlashCommands` defaults to false |
| BotModel.FirstFieldDecides | src/app/repositories/models/botModel.js:3-24 | when the first declared field fails, its message is the answer whatever the rest of the body holds |
| BotModel.CreateWithoutBotId | src/app/repositories/models/botModel.js:4 | a create body without botId is refused with `"botId" is required` |
| BotModel.UpdateAllOptional | src/app/repositories/models/botModel.js:11-24 | the empty update body is accepted and validates to the empty object |
| BotModel.UpdateRefusesBotId | src/app/repositories/models/botModel.js:11-24 | an update body carrying botId is refused |
| BotModel.UndeclaredKeyRefused | src/app/repositories/models/botModel.js:3-24 | a body carrying a key its schema does not declare is refused |
| BotModel.UpdateValueHasNoBotId | src/app/repositories/models/botModel.js:11-24 | an accepted update value never holds botId, so an update cannot re-key a bot |
| BotModel.ValueTyped | src/app/repositories/models/botModel.js:3-24 | each key of a validated value holds a value of its rule's type, when the key's default (if it has one) has that type |
| BotModel.UpdateNumberAndDate | src/app/repositories/models/botModel.js:22-23 | in an accepted update, totalVotes is a number and lastVoteAt a date when present |
| BotModel.UpdateListingFlags | src/app/repositories/models/botModel.js:20-21 | in an accepted update, isPending and isPromoted are booleans when present |
| BotModel.UpdateBotFlags | src/app/repositories/models/botModel.js:16-17 | in an accepted update, isVerifiedBot and isSlashCommands are booleans when present |
| BotModel.UpdateShortDescription | src/app/repositories/models/botModel.js:14 | in an accepted update, a short description is a 10-140 character string |
| BotRepository.Locate | src/app/repositories/botRepository.js:35-39 | the unique-key lookup finds a row with that botId, and finds none exactly when no row has it |
| BotRepository.LocateUnique | src/app/repositories/botRepository.js:35-39 | in a table with distinct keys the lookup finds the one row with the key |
| BotRepository.RemoveKeepsKeys | src/app/repositories/botRepository.js:15-19 | deleting a row keeps the keys distinct, leaves the key absent and keeps every other row |
| BotRepository.AppendKeepsKeys | src/app/repositories/botRepository.js:68-70 | inserting a row with a new key keeps the keys distinct and makes the new row findable |
| BotRepository.ReplaceKeepsKeys | src/app/repositories/botRepository.js:101-108 | replacing a row without a clash keeps the keys distinct and the row findable at its place |
| BotRepository.Merge | src/app/repositories/botRepository.js:105-107 | the merged row has the old keys and the new ones; new values win and the rest are kept |
| BotRepository.BotStore.FindOne | src/app/repositories/botRepository.js:31-45 | no id: 400 `Id do Bot não definido`; otherwise the row with that botId, or null exactly when none exists |
| BotRepository.BotStore.Delete | src/app/repositories/botRepository.js:11-25 | no id: 400 and no change; a missing row is a database error and no change; otherwise that row is removed, returned, and no longer found |
| BotRepository.BotStore.Create | src/app/repositories/botRepository.js:64-76 | no body: 400 and no change; a duplicate key is a database error; otherwise the body is appended, returned and then found by its key |
| BotRepository.BotStore.Update | src/app/repositories/botRepository.js:96-114 | no id or no body: 400; a missing row is a database error; otherwise the row is merged with the body in place, keys stay distinct, and failures change nothing |
| BotRepository.BuildWhere | src/app/repositories/botRepository.js:128-136 | the where clause holds isPromoted and isPending exactly when the filter gives a boolean for them, with that value, and nothing else |
| BotRepository.Filter | src/app/repositories/botRepository.js:138-142 | the filtered rows are exactly the table's rows that match the clause |
| BotRepository.FilterAppend | src/app/repositories/botRepository.js:138-142 | filtering distributes over concatenation |
| BotRepository.FilterSize | src/app/repositories/botRepository.js:138-142 | the filtered list is as long as the number of matching positions |
| BotRepository.Page | src/app/repositories/botRepository.js:138-142 | a page skips `skip` rows and keeps at most `take`; a negative take counts from the end; a negative skip is a database error |
| BotRepository.FindAllBots | src/app/repositories/botRepository.js:126-148 | the result is a page of the filtered rows; without pagination the default refers to unbound names and throws |
| BotRepository.CountAllBots | src/app/repositories/botRepository.js:157-174 | the count is the number of rows matching the same where clause, at most the table size |
| BotRepository.CountBoundsPages | src/app/repositories/botRepository.js:126-174 | no page is longer than the count, and a first page at least as large as the count is all matching rows |
| BotRepository.PagesTile | src/app/repositories/botRepository.js:138-142 | consecutive pages concatenate to the page covering both |
| UserRepository.OwnerOf | src/app/repositories/userRepository.js:12 | a falsy user id is the 400 `Id do usuário não definido`; only a non-empty string is accepted |
| UserRepository.FindAllBots | src/app/repositories/userRepository.js:10-24 | the list holds exactly the rows whose ownerId is the user |
| UserRepository.CountAllBots | src/app/repositories/userRepository.js:30-44 | the count is the number of rows whose ownerId is the user |
| UserRepository.CountIsListingSize | src/app/repositories/userRepository.js:10-44 | the count and the listing fail together, and the count equals the listing's length |
| IsAuthenticated.NamedCookie | src/app/middlewares/isAuthenticated.js:19-20 | a token is found exactly when the parsed header holds a non-empty value under the cookie name |
| IsAuthenticated.Gate | src/app/middlewares/isAuthenticated.js:14-31 | no header: 401 `Cookie não encontrado`; no token: 401 `Token não encontrado`; success exactly when the decoded claims are an object with falsy `err`, and then the claims; any other refusal is 401 `Unauthorized` |
| IsAuthenticated.NoTokenNoDecode | src/app/middlewares/isAuthenticated.js:16-21 | without a named cookie the codec is never consulted |
| IsAuthenticated.DecodesNamedCookie | src/app/middlewares/isAuthenticated.js:20-23 | the codec sees exactly the named cookie's value |
| IsAuthenticated.Authenticate | src/app/middlewares/isAuthenticated.js:14-31 | on success the claims are attached to the request and `next()` gets no error; otherwise the 401 goes to `next` and the request is unchanged |
| Express.Response.Redirect | src/app/controllers/auth.js:10 | a redirect sets status 302 and the location, and nothing else |
| Express.Response.Cookie | src/app/controllers/auth.js:31-37 | a cookie is appended with its options; status, location and payload are unchanged |
| Express.Response.ClearCookie | src/app/controllers/auth.js:46-50 | a cleared cookie is appended; nothing else changes |
| Express.Response.SendStatus | src/app/controllers/auth.js:51 | the status and a status payload are set together |
| AuthController.Claims | src/app/controllers/auth.js:25-28 | the encoded claims are the token reply with `sub` set to the profile's id |
| AuthController.CallbackOutcome | src/app/controllers/auth.js:13-42 | an `error` parameter refuses with its text; a failed or null token exchange or profile fetch refuses with its message; when the exchange and the fetch succeed, a non-empty encoding of the claims signs in with that token and an absent or empty one refuses with `Erro ao gerar token`; signing in implies every step succeeded |
| AuthController.ErrorParamSkipsExchange | src/app/controllers/auth.js:16 | with an `error` parameter neither Discord nor the codec plays any part |
| AuthController.EmptyStepMessages | src/app/controllers/auth.js:19-29 | a null token reply, a null profile and a falsy encoding refuse with their fixed messages |
| AuthController.CallbackWithoutCode | src/app/controllers/auth.js:15-18 | a callback without code and error refuses with `Code não definido` |
| AuthController.RefusalsOfNonNullServices | src/app/controllers/auth.js:13-42 | when neither service answers `null` and their errors carry messages, a refusal carries the `error` parameter, a service's error message, or the codec's message once the codec has answered nothing, and is never empty |
| AuthController.RefusalsWithModelledServices | src/app/controllers/auth.js:13-42 | with the modelled services a refusal carries the `error` parameter, a token-exchange or profile 400's message, or the codec's message once the codec has answered nothing; the message is never empty |
| AuthController.SessionCookie | src/app/controllers/auth.js:32-37 | the session cookie is httpOnly, sameSite strict, lives 518400000 ms, and is secure exactly in production |
| AuthController.Login | src/app/controllers/auth.js:8-11 | login redirects with 302 to the authorize URL, which begins with the three scopes |
| AuthController.HandleCallback | src/app/controllers/auth.js:13-42 | the callback always redirects; on success it sets the session cookie and goes to `/auth/callback`, otherwise it goes there with `?error=` and the message |
| AuthController.Logout | src/app/controllers/auth.js:44-55 | logout clears the session cookie with the same security flags and answers 200 |
| AuthController.Verify | src/app/controllers/auth.js:57-59 | verify answers 200 exactly when the gate accepts, otherwise it passes on the gate's 401 |
| BotsController.OrDefault | src/app/controllers/bots.js:11-12 | a parsed number other than 0 is used; NaN or 0 falls back to the default |
| BotsController.TakeIsNeverZero | src/app/controllers/bots.js:11 | the page size is never 0, and is 10 when the limit does not parse |
| BotsController.FilterNothing | src/app/controllers/bots.js:14-17 | the listing route's empty filter keeps every row |
| BotsController.ListBots | src/app/controllers/bots.js:9-28 | the body holds the table size as total, the page of rows, skip and take; a negative offset is a database error |
| BotsController.GetBot | src/app/controllers/bots.js:30-41 | no id: 400; an unknown id: 400 `O bot não foi encontrado`; otherwise the stored row |
| BotsController.WithProfile | src/app/controllers/bots.js:51-54 | the created record is the validated value with username, avatarUrl and bannerUrl from Discord |
| BotsController.CreatePlan | src/app/controllers/bots.js:43-61 | an invalid body is a 400 with the validator's message; a known botId is a 409 `O bot <id> já existe`; otherwise the result fails exactly when the Discord lookup fails, and a success keeps the botId |
| BotsController.ConflictSkipsDiscord | src/app/controllers/bots.js:48-51 | for a known botId the Discord lookup plays no part and the answer is the 409 |
| BotsController.CreatedRecordKeepsBody | src/app/controllers/bots.js:45-56 | the created record keeps the validated botId, ownerId and shortDescription |
| BotsController.CreateBot | src/app/controllers/bots.js:43-61 | the handler answers the planned record and appends it to the table, or passes the planned error on and leaves the table unchanged |
| BotsController.OwnedBot | src/app/controllers/bots.js:65-75 | no id: 400; unknown bot: 400; another owner: 401 with the route's message; success exactly for the caller's own bot |
| BotsController.UpdatePlan | src/app/controllers/bots.js:63-85 | ownership is checked before the body; an invalid body is a 400 with the validator's message; success is the validated value |
| BotsController.ForeignUpdateIgnoresPayload | src/app/controllers/bots.js:71-78 | someone else's bot is refused with 401 whatever the body |
| BotsController.UpdateKeepsKey | src/app/controllers/bots.js:77-80 | an accepted update never changes the bot's botId |
| BotsController.UpdateBot | src/app/controllers/bots.js:63-85 | the handler merges the planned value into the owner's row and answers it, or passes the planned error on and leaves the table unchanged |
| BotsController.DeleteBot | src/app/controllers/bots.js:87-106 | only the owner's bot is removed and answered, after which it is no longer found; otherwise the guard's error is passed on and the table is unchanged |
| MeController.Profile | src/app/controllers/me.js:6-14 | the answer is the session's profile fetched with its access token, or that fetch's 400 |
| MeController.MyBots | src/app/controllers/me.js:16-28 | the answer's data holds exactly the caller's bots and its total is their number |
| Handler.BeforeDot | src/core/Handler.js:32 | the name is the prefix of the file name up to its first dot |
| Handler.ControllerNamesFromScripts | src/core/Handler.js:30-32 | every controller name comes from a `.js` file, and every `.js` file gives its name |
| Handler.Mounts | src/core/Handler.js:34-36 | one mount per name, in order, at `/name` loading `folder/name` |
| Handler.App.Controllers | src/core/Handler.js:22-42 | a missing folder setting or folder reports one 500 and mounts nothing; otherwise the `.js` files are mounted in listing order |
| Handler.Respond | src/core/Handler.js:59-67 | the status is the error's or 500; the text is the message, else the status name, else `InternalServerError`; the monitor hears exactly of 500s |
| Handler.ErrorBody | src/core/Handler.js:63-66 | the error body is exactly `{statusCode, statusText}` |
| Handler.HttpErrorsKeepStatusAndText | src/core/Handler.js:59-67 | an `HttpError` reaches the client with its own status and message |
| Handler.UntypedErrorsAre500 | src/core/Handler.js:59-67 | an error without a status is a 500 the monitor hears of, sent with its own message |
| Handler.SendError | src/core/Handler.js:59-67 | the responder sets the status and sends the error body, leaving location and cookies alone |
| Handler.NotFound | src/core/Handler.js:69-76 | an unmatched route answers 404 `NotFound` without telling the monitor |
| Handler.SendNotFound | src/core/Handler.js:69-76 | the fallback sets 404 and sends its body |

## Left out

- **Token codec.** `Token.encode`/`Token.decode` (JWT signing and verification) is not part of this model. Its results are parameters.
- **Monitor and Log.** The webhook and console I/O of `Monitor` and `Log` are not modelled. `Handler.App.Controllers` records what it would report in `reported`.
- **Response-time logging** in `Handler.init` is not modelled.
- **Loading the controllers.** `require` of a controller file and `path.resolve` are not modelled. A mount records the route and the module path.
- **Asynchrony.** `async`/`await` is dropped: every handler runs to completion before the next request.
- **Express plumbing.** Header serialisation, query parsing and JSON encoding are left out. Cookies, redirects, statuses and payloads are recorded as values.
- **Callers of protected handlers.** They are given the claims that `IsAuthenticated.Gate` accepted. The middleware chain itself is modelled once, by `IsAuthenticated.Authenticate` and `AuthController.Verify`.
- **Joi.** Only the rules the two schemas use are modelled: string, boolean, number, date, min/max length, required, default, and unknown keys refused. Joi's conversions from strings are parameters. The order in which Joi reports several errors is approximated: declared fields first, in schema order, then unknown keys.
- **Prisma.** The database is a sequence of rows with distinct botId keys.
  - A negative `skip` is modelled as a database error, and a negative `take` as counting back from the end. This is one reading of Prisma's documented behaviour.
  - Database failures other than a missing or duplicate key (connection loss, constraint violations on other columns) are not modelled.
- **Numbers.** They are integers. Floating point, `NaN` and fractional `parseInt` inputs are handled by the `parseInt` parameter only.
- **The legacy `app/` tree** (`app/routes/*`) is not part of this model. It is not mounted by `src/main.js`.
- **AuthController.Logout:** the `catch` branch calls a `next` that is not in scope. The model gives only the normal path, because clearing a cookie and sending a status cannot throw here.
- **BotsController.CreateBot:** takes the Discord lookup as a parameter. `BotsController.DiscordLookup` binds it to `DiscordBot.GetBotById`.
- **Request bodies** are assumed to be objects. A JSON array or scalar body, which Joi would refuse with a type error, is not modelled.
- **Status of `POST /bots`.** The code answers 200 through `res.json`, while the test file expects 201. The model follows the code.
- **Error messages.** The responder sends an untyped error's own message (src/core/Handler.js:61), and the Discord services pass a `TypeError`'s message on as a 400. The model does the same (`Handler.UntypedErrorsAre500`, `DiscordAuth.NullAvatarProfile`).
- **Null images.** The code's own fallback branch (src/app/services/DiscordAuth.js:104-106, src/app/services/DiscordBot.js:28-35) gives the default URL, but the format is computed first, so a `null` hash throws; see Findings. The rest of the model uses the corrected services.
- **MeController.Profile:** answers through the corrected `DiscordAuth.FetchAuthUser`, so for `avatar: null` it answers the default avatar URL where src/app/controllers/me.js:6-14, through the written fetch, answers the 400 TypeError (`DiscordAuth.NullAvatarProfile` states both).
- **Reply bodies.** A reply body is JSON `null`, another falsy value (the empty string of an empty reply, `0`, `false`), or an object. A truthy body that is not an object (a non-empty string, a number, an array) is not modelled.

## Findings

| source | as written | input that shows it | evidently intended | confidence | as-written member | corrected member |
|---|---|---|---|---|---|---|
| src/app/services/DiscordAuth.js:103-106 | the avatar format is computed with `data.avatar.startsWith` before the avatar is tested, so a user without an avatar throws a TypeError, reported as a 400 | a profile reply with `avatar: null` | a user without an avatar gets the default avatar URL, which the code's own fallback branch provides | not executed | DiscordAuth.NullAvatarProfile | DiscordAuth.FetchAuthUser |
| src/app/services/DiscordBot.js:27-35 | both image formats are computed before the hashes are tested, so a bot without a custom avatar or without a banner (the usual case) cannot be looked up, and so cannot be registered | a bot reply with a custom avatar and `banner: null` | a missing avatar or banner gets the default URL | not executed | DiscordBot.NullBannerBot | DiscordBot.GetBotById |
