# AI résumé client — a Dafny model

This project models the client side of the AI résumé application in Dafny:

- the shared HTTP client (`ApiClient`);
- the API facade, where each operation becomes one HTTP call;
- the localStorage helper and the pure validators;
- the web app's authentication store;
- the register page;
- the résumé editor's content edits and its save/generate decisions;
- the route table with its redirects.

It then proves properties of that model.

The modules follow the program's structure:

| module | file | models |
|---|---|---|
| `Client` | client.dfy | `ApiClient`: the bearer header, axios's status check, `handleResponse`, `handleError`, the token/base-URL fields, and the default-client registry |
| `Facade` | facade.dfy | `AuthApi`, `ResumeApi`, `TemplateApi` and the `api` object: the call each operation sends, the export URLs, and how the result is delivered |
| `ApiPaths` | api_paths.dfy | the route strings those operations use: fixed words and decimal ids joined by '/' |
| `Storage` | storage.dfy | the `storage` helper over localStorage |
| `Validators` | validators.dfy | `isValidEmail`, `isValidPhone`, `isValidPassword`, `getFileExtension` |
| `AuthStore` | auth_store.dfy | the persisted auth store: `login`, `register`, `logout`, `clearError`, `loadUser`, `partialize` |
| `RegisterPage` | register_page.dfy | the page's password check, submit flow, buttons, and send-code countdown |
| `ResumeEditor` | resume_editor.dfy | the editor's initial content, list edits, save and AI-generate decisions |
| `Routes` | routes.dfy | `App`'s route table and where its redirects settle |
| `JsValue`, `Text`, `Types`, `Wrappers` | js_value.dfy, text.dfy, types.dfy, wrappers.dfy | JavaScript values and operators, decimal rendering and splitting, the shared record types, and Option/Result |

Some parts of the model deserve a note:

- **HTTP is modelled by its inputs.** The network, timers and axios are not modelled. Each request takes an `Exchange` as input: an answer, a cancellation, an axios error without a response, or a non-axios throw. The model states what the client does with that exchange.
- **The backend is a reference definition.** `Facade.Decode` plays the backend's part. It recovers an operation from the call the facade sends. The per-operation round-trip lemmas prove that every call can be decoded back to the operation that sent it.
- **Stateful parts are classes.** `ApiClient`, the default-client registry, localStorage, the auth store and the countdown are classes. Their methods change fields, and each method is specified by a function on values.
- **Edits are functions.** The editor's edits build new records from old ones (spread, `filter`, copy-then-assign), so they are functions.

Some behaviours of the code are easy to misread, so they are stated here:

- **Failed login.** A failed login or registration leaves `user`, `token` and `isAuthenticated` as they were (auth.ts:54-58, 85-89). It does not reset them to the anonymous state.
- **Unauthorized callback.** No caller supplies `onUnauthorized` or a token getter; the facade's clients are built with `getApiClient()`. Axios's `validateStatus` also resolves every status below 500 (client.ts:35), so the 401 branch of the response interceptor (client.ts:61-64) never runs.
  - `Client.UnauthorizedBranchUnreachable` proves this.
  - In the modelled files the client's own token is never set, so no `Authorization` header is attached. The auth store writes the token to localStorage only.
  - `Facade.UnconfiguredApiCall` proves that a call through an unconfigured `api` object carries no `Authorization` header.
- **Register page.** The page computes a password error but never shows it; an invalid password just keeps it on the page. Its send-code handler only starts the countdown: the e-mail call is a TODO in the source. The page never sends a phone number.
- **Routes.** Without a session, every location ends on the login page, except `/register`, which shows the register page.
- **Editor id.** The app links to `/resumes/new`, and the static route for it gives the page no `id` param. So `isNew` is false there and `Number(id)` is `NaN`: see Findings.
- **Server errors.** `handleError` throws a `TypeError` on a 5xx response whose body is `null` or missing (see Findings). `Client.HandleError` and `Client.Outcome` are the corrected handler. `Client.HandleErrorAsWritten` and `Client.OutcomeAsWritten` are the code as written. The lemmas state where the two differ.

## Model

| member | source | states |
|---|---|---|
| Text.ParseDecimal | ai-resume-web/src/pages/ResumeEditorPage.tsx:39 | an id parses exactly when it is a non-empty string of ASCII digits |
| Text.ParseRendered | ai-resume-shared/src/api/index.ts:121 | the decimal text put into a route for an id parses back to that id |
| Text.RenderInjective | ai-resume-shared/src/api/index.ts:121 | distinct ids give distinct route segments |
| Text.NatToString | ai-resume-shared/src/api/index.ts:121 | a rendered id is a non-empty string of digits |
| JsValue.Coalesce | ai-resume-shared/src/api/client.ts:24-25 | `a ?? b` is `b` exactly when `a` is null or undefined, and `a` otherwise |
| JsValue.Member | ai-resume-shared/src/api/client.ts:81 | `v?.[key]` is the field when `v` is an object that has the key, and undefined otherwise |
| JsValue.ErrorMessage | ai-resume-shared/src/api/client.ts:81 | `new Error(v).message` is the string itself for a string, and '' for undefined |
| Types.Stringify | ai-resume-shared/src/utils/index.ts:57-59 | the stored user is JSON object text, delimited by braces |
| Client.AuthorizationHeader | ai-resume-shared/src/api/client.ts:48-51 | a header is sent iff the getter's result, or the client's token when the getter gives null, is a non-empty string; its value is `Bearer <token>` |
| Client.Settle | ai-resume-shared/src/api/client.ts:35 | a request resolves iff it was answered with a status below 500; at 500 or above it rejects with the response attached |
| Client.UnauthorizedBranchUnreachable | ai-resume-shared/src/api/client.ts:35 | no rejection carries a 401 response, and a 401 answer resolves like any other response |
| Client.HandleResponse | ai-resume-shared/src/api/client.ts:73-82 | the result is a value iff the status is 200 and the body is truthy |
| Client.EnvelopeRoundTrip | ai-resume-shared/src/api/client.ts:74-76 | a 200 response whose body is `{data: p}` yields `p` |
| Client.BareBodyUnchanged | ai-resume-shared/src/api/client.ts:74-78 | a truthy 200 body without a `data` key is returned as it is |
| Client.AcceptedFailureIsPlain | ai-resume-shared/src/api/client.ts:81 | any other accepted response throws a plain error carrying `data?.message`, or '请求失败' when that is null or undefined |
| Client.ServerErrorAsWritten | ai-resume-shared/src/api/client.ts:109-135 | the response branch as written throws exactly when the body is null or undefined; otherwise it gives an `ApiException` with the response's status |
| Client.ServerError | ai-resume-shared/src/api/client.ts:109-135 | a server error is an `ApiException` carrying the response's status and `data.detail` |
| Client.ServerErrorCorrectionConservative | ai-resume-shared/src/api/client.ts:113-134 | for every body that is not null or undefined, the corrected handler agrees with the handler as written |
| Client.NullBodyCrashesHandler | ai-resume-shared/src/api/client.ts:113-114 | the handler as written gives no result for a 500 with a null body; the corrected one gives `ApiException('请求失败', 500)` |
| Client.ServerMessagePriority | ai-resume-shared/src/api/client.ts:111-117 | the message is the first available of `detail.msg`, `message`, `detail`, then '请求失败' |
| Client.DetailMessageExample | ai-resume-shared/src/api/client.ts:115-116 | a server error (status 500 or above) with the body `{detail: {msg: 'bad email'}}` is thrown as an `ApiException` with the message 'bad email', that status and that detail |
| Client.FirstMatchFromTable | ai-resume-shared/src/api/client.ts:88-139 | first-match classification yields either an entry of the rule table whose test passes, or the fallback |
| Client.FirstMatchWins | ai-resume-shared/src/api/client.ts:88-139 | an entry is chosen iff its test passes and no earlier test does |
| Client.TaxonomyOrder | ai-resume-shared/src/api/client.ts:88-136 | each kind holds exactly when its test passes and no earlier one does: cancel, timeout, network, response |
| Client.HandleError | ai-resume-shared/src/api/client.ts:87-140 | (corrected handler) a cancellation gives the cancel message, a non-axios throw gives its own message or the fallback, and an `ApiException` only comes from a rejection with a response, carrying its status |
| Client.HandleErrorAsWritten | ai-resume-shared/src/api/client.ts:87-140 | the handler as written throws only for a rejection whose response body is null or undefined |
| Client.HandleErrorFollowsTaxonomy | ai-resume-shared/src/api/client.ts:87-140 | each kind maps to its own fixed message; with the corrected handler the result is an `ApiException` iff the rejection carries a response and is not a timeout or network error; the handler as written throws exactly for such a rejection whose body is null or undefined, and otherwise gives the same result |
| Client.StatusFailureNotTimeout | ai-resume-shared/src/api/client.ts:96-101 | axios's message for a status failure never contains "timeout", so a server error is never mistaken for a timeout |
| Client.Outcome | ai-resume-shared/src/api/client.ts:35-140 | (corrected handler) an `ApiException` only comes from an answer with status 500 or above, and carries that status; a cancelled request rejects with the cancel message |
| Client.OutcomeAsWritten | ai-resume-shared/src/api/client.ts:35-140 | the request as written throws only for an answer with status 500 or above |
| Client.OutcomeCorrectionConservative | ai-resume-shared/src/api/client.ts:109-135 | the request as written throws iff it was answered with status 500 or above and a null or undefined body; otherwise it gives the corrected result |
| Client.OnlyTruthy200Succeeds | ai-resume-shared/src/api/client.ts:181-216 | a verb helper resolves iff the exchange was answered with status 200 and a truthy body |
| Client.ServerStatusesClassified | ai-resume-shared/src/api/client.ts:109-135 | with the corrected handler, a status of 500 or above is always reported as an `ApiException` with that status; the code as written throws instead when the body is null or undefined, and otherwise gives the same result |
| Client.AcceptedStatusesNeverApiException | ai-resume-shared/src/api/client.ts:73-82 | a failure with a status below 500 is always a plain error |
| Client.ApiClient.constructor | ai-resume-shared/src/api/client.ts:22-26 | the base URL and timeout take the defaults when the config leaves them out; the token starts null |
| Client.ApiClient.SetToken | ai-resume-shared/src/api/client.ts:145-147 | the token becomes the given string |
| Client.ApiClient.ClearToken | ai-resume-shared/src/api/client.ts:152-154 | the token becomes null |
| Client.ApiClient.GetToken | ai-resume-shared/src/api/client.ts:159-161 | the result is the current token |
| Client.ApiClient.SetBaseURL | ai-resume-shared/src/api/client.ts:166-169 | the base URL becomes the given one |
| Client.ApiClient.GetBaseURL | ai-resume-shared/src/api/client.ts:174-176 | the result is the current base URL |
| Client.ApiClient.Send | ai-resume-shared/src/api/client.ts:46-67 | the request carries the client's base URL and the header `AuthorizationHeader` chooses; the result is `Outcome` of the exchange (corrected handler), which is the result as written whenever that one does not throw; the token is untouched and the unauthorized callback never fires |
| Client.ApiClient.OnRejected | ai-resume-shared/src/api/client.ts:60-66 | the rejection is normalised by `HandleError`; a 401 clears the token and fires the callback only when one was supplied |
| Client.ClientRegistry.constructor | ai-resume-shared/src/api/client.ts:249 | there is no default client at first |
| Client.ClientRegistry.CreateApiClient | ai-resume-shared/src/api/client.ts:251-256 | the first call creates the default client from its config; later calls return that same client and ignore their config |
| Client.ClientRegistry.GetApiClient | ai-resume-shared/src/api/client.ts:258-263 | returns the default client, creating one with the defaults (no token getter, no token, the default base URL) when there is none |
| ApiPaths.WordRoundTrip | ai-resume-shared/src/api/index.ts:29-244 | every fixed path word is recognised back as itself |
| ApiPaths.WordSpellingsDistinct | ai-resume-shared/src/api/index.ts:29-244 | distinct path words have distinct spellings |
| ApiPaths.WordNotNumber | ai-resume-shared/src/api/index.ts:29-244 | no fixed path word is a decimal number or contains '/' |
| ApiPaths.Tokenize | ai-resume-shared/src/api/index.ts:121-156 | a segment reads as a fixed word, as an id equal to its decimal value, or as free text equal to itself |
| ApiPaths.RouteRoundTrip | ai-resume-shared/src/api/index.ts:121-156 | a route built from words and ids splits on '/' back into the same words and ids |
| ApiPaths.TokensOfTexts | ai-resume-shared/src/api/index.ts:121-156 | the segments of words and ids read back as those words and ids, and none contains '/' |
| Facade.BuildLoginForm | ai-resume-shared/src/api/index.ts:58-64 | the login form is exactly `username` = e-mail, then `password` |
| Facade.BuildRegisterForm | ai-resume-shared/src/api/index.ts:42-53 | the register form is the e-mail and the password, then each optional field that is truthy, in source order |
| Facade.RegisterFormReadBack | ai-resume-shared/src/api/index.ts:43-50 | reading the register form back gives the e-mail, the password, and each optional field exactly when it was non-empty |
| Facade.FormValueAppend | ai-resume-shared/src/api/index.ts:43-50 | appending fields keeps the first value under a key |
| Facade.FormValueAbsent | ai-resume-shared/src/api/index.ts:46-50 | a key never appended reads as absent |
| Facade.RegisterFields | ai-resume-shared/src/api/index.ts:42-53 | the register form starts with the e-mail and the password, and every optional field after them has a non-empty value |
| Facade.Endpoint | ai-resume-shared/src/api/index.ts:28-248 | only `register` and `login` send a form body |
| Facade.EndpointVerbs | ai-resume-shared/src/api/index.ts:28-248 | only `updateResume` uses PUT; only `deleteResume` and `unfavoriteTemplate` use DELETE; no GET sends a body |
| Facade.Deliver | ai-resume-shared/src/api/index.ts:29-100 | a failure is passed on unchanged; a void operation resolves with undefined; any other operation resolves with the client's value |
| Facade.Invoke | ai-resume-shared/src/api/index.ts:28-248 | each operation sends its endpoint's call through the client, with the client's base URL and the Authorization header its getter or token gives, and delivers `Deliver` of the outcome; the token is untouched |
| Facade.DefaultApi | ai-resume-shared/src/api/index.ts:254-258 | the three APIs share the one default client; if none existed, it is a new client without a token getter, with no token and the default base URL |
| Facade.UnconfiguredApiCall | ai-resume-shared/src/api/index.ts:254-258 | a call through the `api` object when no client was configured first goes to the default base URL with no Authorization header, whatever a getter would return, and delivers `Deliver` of the outcome |
| Facade.KindOf | ai-resume-shared/src/api/index.ts:169-196 | a recognised export-kind name is the spelling of that kind |
| Facade.KindRoundTrip | ai-resume-shared/src/api/index.ts:169-196 | every kind's name is recognised back as that kind, and contains no '/' |
| Facade.ExportUrl | ai-resume-shared/src/api/index.ts:169-196 | an export URL extends the client's base URL |
| Facade.GetExportUrl | ai-resume-shared/src/api/index.ts:169-196 | the URL is built from the client's current base URL, the id and the kind |
| Facade.ExportUrlSpelledOut | ai-resume-shared/src/api/index.ts:169-196 | the URL is the base URL followed by `/../export/<id>/<kind>`, with kind `pdf`, `word`, `html` or `preview` |
| Facade.ExportUrlRoundTrip | ai-resume-shared/src/api/index.ts:169-196 | the id and the kind can be recovered from an export URL |
| Facade.ExportUrlInjective | ai-resume-shared/src/api/index.ts:169-196 | two export URLs on the same base are equal only for the same id and kind |
| Facade.DecodeRoute | ai-resume-shared/src/api/index.ts:28-248 | a call on a route of words and ids is decoded from that route's tokens |
| Facade.RoundTripSendVerificationCode | ai-resume-shared/src/api/index.ts:28-30 | `POST /email/send-code {email}` decodes back to the operation |
| Facade.RoundTripVerifyEmailCode | ai-resume-shared/src/api/index.ts:35-37 | `POST /email/verify-code {email, code}` decodes back to the operation |
| Facade.RoundTripRegister | ai-resume-shared/src/api/index.ts:42-53 | the register form decodes back to the request, with its empty optional fields dropped |
| Facade.RoundTripLogin | ai-resume-shared/src/api/index.ts:58-64 | the login form decodes back to the e-mail and password |
| Facade.RoundTripGetCurrentUser | ai-resume-shared/src/api/index.ts:69-71 | `GET /auth/me` decodes back to the operation |
| Facade.RoundTripRefreshToken | ai-resume-shared/src/api/index.ts:76-80 | `POST /auth/refresh {refresh_token}` decodes back to the token |
| Facade.RoundTripWechatLogin | ai-resume-shared/src/api/index.ts:85-87 | `POST /auth/wechat/login {code}` decodes back to the code |
| Facade.RoundTripWechatBind | ai-resume-shared/src/api/index.ts:92-94 | `POST /auth/wechat/bind {code}` decodes back to the code |
| Facade.RoundTripWechatUnbind | ai-resume-shared/src/api/index.ts:99-101 | `POST /auth/wechat/unbind` decodes back to the operation |
| Facade.RoundTripGetResumes | ai-resume-shared/src/api/index.ts:113-115 | `GET /resumes` with the filter as parameters decodes back to the filter |
| Facade.RoundTripGetResume | ai-resume-shared/src/api/index.ts:120-122 | `GET /resumes/{id}` decodes back to the id |
| Facade.RoundTripCreateResume | ai-resume-shared/src/api/index.ts:127-129 | `POST /resumes` decodes back to the body |
| Facade.RoundTripUpdateResume | ai-resume-shared/src/api/index.ts:134-136 | `PUT /resumes/{id}` decodes back to the id and the body |
| Facade.RoundTripDeleteResume | ai-resume-shared/src/api/index.ts:141-143 | `DELETE /resumes/{id}` decodes back to the id |
| Facade.RoundTripCopyResume | ai-resume-shared/src/api/index.ts:148-150 | `POST /resumes/{id}/copy` decodes back to the id |
| Facade.RoundTripAiGenerateResume | ai-resume-shared/src/api/index.ts:155-157 | `POST /resumes/{id}/ai/generate` decodes back to the id and the body |
| Facade.RoundTripAiOptimizeContent | ai-resume-shared/src/api/index.ts:162-164 | `POST /resumes/ai/optimize` decodes back to the body |
| Facade.RoundTripGetTemplates | ai-resume-shared/src/api/index.ts:208-210 | `GET /templates` with the filter as parameters decodes back to the filter |
| Facade.RoundTripGetTemplate | ai-resume-shared/src/api/index.ts:215-217 | `GET /templates/{id}` decodes back to the id |
| Facade.RoundTripGetCategories | ai-resume-shared/src/api/index.ts:222-224 | `GET /templates/categories` decodes back to the operation, not to a template id |
| Facade.RoundTripFavoriteTemplate | ai-resume-shared/src/api/index.ts:229-231 | `POST /templates/{id}/favorite` decodes back to the id |
| Facade.RoundTripUnfavoriteTemplate | ai-resume-shared/src/api/index.ts:236-238 | `DELETE /templates/{id}/favorite` decodes back to the id |
| Facade.RoundTripGetFavoriteTemplates | ai-resume-shared/src/api/index.ts:243-248 | `GET /templates/favorites/list` decodes back to the page and page size, with 1 and 20 filled in when they are left out |
| Facade.EndpointRoundTrip | ai-resume-shared/src/api/index.ts:28-248 | every operation's call decodes back to the operation as the backend receives it, so no two operations share a call |
| Storage.KeyNamesDistinct | ai-resume-shared/src/utils/index.ts:8-194 | distinct settings are stored under distinct keys |
| Storage.ItemOf | ai-resume-shared/src/utils/index.ts:8-9 | a getter's result is present iff the key is stored, and is then the stored string |
| Storage.OrFallback | ai-resume-shared/src/utils/index.ts:80-82 | an absent or empty item yields the fallback, and any other item itself |
| Storage.ClearedAuth | ai-resume-shared/src/utils/index.ts:71-75 | clearing auth keeps exactly the keys other than the three auth keys, with their values |
| Storage.SetOnlyTouchesItsKey | ai-resume-shared/src/utils/index.ts:15-17 | after a setter, its own getter reads the new value and every other getter reads what it read before |
| Storage.RemoveOnlyTouchesItsKey | ai-resume-shared/src/utils/index.ts:22-24 | after a remover, its own getter reads null and every other getter reads what it read before |
| Storage.AuthKeysExactly | ai-resume-shared/src/utils/index.ts:71-75 | the keys `clearAuth` removes are exactly those of the access token, the refresh token and the user |
| Storage.ClearAuthFrame | ai-resume-shared/src/utils/index.ts:71-75 | after `clearAuth` the three auth settings read null, and every other setting reads as before |
| Storage.LocalStorage.constructor | ai-resume-shared/src/utils/index.ts:4 | the helper starts over the given stored items |
| Storage.LocalStorage.Get | ai-resume-shared/src/utils/index.ts:8-9 | every getter returns the stored item or null |
| Storage.LocalStorage.Set | ai-resume-shared/src/utils/index.ts:15-16 | every setter stores the value under its key and changes nothing else |
| Storage.LocalStorage.Remove | ai-resume-shared/src/utils/index.ts:22-23 | every remover deletes its key and nothing else |
| Storage.LocalStorage.SetUser | ai-resume-shared/src/utils/index.ts:57-59 | stores the user's JSON text under `user` |
| Storage.LocalStorage.ClearAuth | ai-resume-shared/src/utils/index.ts:71-75 | the three removals leave the `ClearedAuth` store |
| Storage.LocalStorage.GetBaseURL | ai-resume-shared/src/utils/index.ts:80-82 | the stored base URL, or the default when it is absent or empty |
| Storage.LocalStorage.GetAIProvider | ai-resume-shared/src/utils/index.ts:101-103 | the stored provider, or 'openai' when it is absent or empty |
| Storage.LocalStorage.ClearAll | ai-resume-shared/src/utils/index.ts:199-201 | the store becomes empty |
| Storage.SetThenGet | ai-resume-shared/src/utils/index.ts:8-16 | a value just set is read back, and another setting's getter is unaffected |
| Validators.IndexOf | ai-resume-shared/src/utils/index.ts:308-311 | `indexOf` gives the first position holding the character, or -1 iff it does not occur |
| Validators.LastIndexOf | ai-resume-shared/src/utils/index.ts:343-345 | `lastIndexOf` gives the last position holding the character, or -1 iff it does not occur |
| Validators.IsValidEmail | ai-resume-shared/src/utils/index.ts:308-311 | an accepted e-mail has at least five characters, contains '@' and does not start with it |
| Validators.EmailDecisionMatchesPattern | ai-resume-shared/src/utils/index.ts:308-311 | the e-mail decision accepts exactly the strings the regular expression matches |
| Validators.ValidEmailMatches | ai-resume-shared/src/utils/index.ts:308-311 | every accepted string matches the regular expression |
| Validators.MatchingEmailIsValid | ai-resume-shared/src/utils/index.ts:308-311 | every string the regular expression matches is accepted |
| Validators.IsValidPhone | ai-resume-shared/src/utils/index.ts:316-319 | an accepted phone number is eleven characters long and parses as a decimal number |
| Validators.PhoneIsElevenDigits | ai-resume-shared/src/utils/index.ts:316-319 | a valid phone number is eleven ASCII digits; eleven digits starting with 1 and then 3-9 are valid |
| Validators.IsValidPassword | ai-resume-shared/src/utils/index.ts:324-338 | valid iff at least 6 long with a letter and a digit; otherwise the message names the first failed rule, in the order length, letter, digit |
| Validators.ToUint32 | ai-resume-shared/src/utils/index.ts:344 | `>>> 0` yields an unsigned 32-bit value |
| Validators.ToUint32InRange | ai-resume-shared/src/utils/index.ts:344 | on 32-bit inputs, `>>> 0` adds 2^32 to a negative value and keeps the others |
| Validators.SliceAfterDotIsTail | ai-resume-shared/src/utils/index.ts:344 | the slice start is past the end for no dot or a leading dot, and just after the dot otherwise |
| Validators.GetFileExtension | ai-resume-shared/src/utils/index.ts:343-345 | the extension is a suffix of the file name |
| Validators.FileExtensionIsAfterLastDot | ai-resume-shared/src/utils/index.ts:343-345 | the extension is the text after the last '.', empty when there is none or it is the first character, and never contains '.' |
| Validators.NoDotAfterLastDot | ai-resume-shared/src/utils/index.ts:344 | no '.' follows the last '.' |
| Validators.LastIndexOfAt | ai-resume-shared/src/utils/index.ts:344 | a position holding the character, with none after it, is the last index |
| Validators.FileExtensionExamples | ai-resume-shared/src/utils/index.ts:343-345 | 'resume.pdf' gives 'pdf', 'archive.tar.gz' gives 'gz', and '.bashrc' and 'README' give '' |
| AuthStore.Raised | ai-resume-shared/src/api/client.ts:87-140 | everything the client rejects with is an `Error` instance |
| AuthStore.FailureMessage | ai-resume-web/src/store/auth.ts:55 | the shown message is an `Error`'s own message, and the fallback for any other thrown value |
| AuthStore.Partialize | ai-resume-web/src/store/auth.ts:130-134 | only `user`, `token` and `isAuthenticated` are persisted |
| AuthStore.AuthStore.constructor | ai-resume-web/src/store/auth.ts:28-32 | the store starts anonymous, not loading, and with no error |
| AuthStore.AuthStore.Begin | ai-resume-web/src/store/auth.ts:35 | an action starts loading and clears the error |
| AuthStore.AuthStore.Establish | ai-resume-web/src/store/auth.ts:40-53 | a sign-in stores the token, the refresh token if truthy and the user if present, then sets the session |
| AuthStore.AuthStore.Fail | ai-resume-web/src/store/auth.ts:54-58 | a failure records its message, stops loading, and rethrows the same value |
| AuthStore.AuthStore.Login | ai-resume-web/src/store/auth.ts:34-59 | sends the login operation; success signs in; failure records the message and keeps the session as it was |
| AuthStore.AuthStore.Register | ai-resume-web/src/store/auth.ts:61-90 | sends the register operation with the e-mail, the password and the extra fields; success signs in; failure records the message |
| AuthStore.AuthStore.Logout | ai-resume-web/src/store/auth.ts:92-99 | the auth keys are cleared and the session becomes anonymous |
| AuthStore.AuthStore.ClearError | ai-resume-web/src/store/auth.ts:101 | only the error changes, to null |
| AuthStore.AuthStore.LoadUser | ai-resume-web/src/store/auth.ts:103-126 | calls the API iff a non-empty token is stored; success restores the session with that token; failure or no token leaves it anonymous, and only failure clears storage |
| AuthStore.SignInEstablishesSession | ai-resume-web/src/store/auth.ts:40-53 | after a sign-in the session is authenticated with the new token, storage holds that token (and the user when given), and session and storage agree |
| AuthStore.FailureKeepsIdentity | ai-resume-web/src/store/auth.ts:54-58 | a failed action leaves the persisted part of the session unchanged |
| AuthStore.ClientFailuresCarryTheirMessage | ai-resume-web/src/store/auth.ts:55 | a failure from the client shows the client's own message, never the fallback |
| AuthStore.LogoutIdempotent | ai-resume-web/src/store/auth.ts:92-99 | logging out twice is the same as logging out once |
| AuthStore.LogoutIsAnonymous | ai-resume-web/src/store/auth.ts:92-99 | after logout there is no user, no token and no session, and no token is stored |
| AuthStore.PersistIgnoresTransientFields | ai-resume-web/src/store/auth.ts:130-134 | `isLoading` and `error` never reach persisted storage |
| AuthStore.ActionsPreserveConsistency | ai-resume-web/src/store/auth.ts:28-126 | every action keeps the invariant "the session holds a token iff it is authenticated, and that token is the stored one" |
| RegisterPage.ValidatePassword | ai-resume-web/src/pages/RegisterPage.tsx:15-20 | no message iff the password has at least six characters, a letter and a digit; a message is one of the three rule messages |
| RegisterPage.PageCheckAgreesWithValidator | ai-resume-web/src/pages/RegisterPage.tsx:15-20 | the page's password check gives the shared validator's message, and none iff the password is valid |
| RegisterPage.OptionalText | ai-resume-web/src/pages/RegisterPage.tsx:52-53 | `s \|\| undefined` is absent iff the text is empty |
| RegisterPage.HandleSubmit | ai-resume-web/src/pages/RegisterPage.tsx:37-54 | a registration is sent only with matching, valid passwords, and carries the form's e-mail and password and no phone number |
| RegisterPage.SubmitOnlyValidMatching | ai-resume-web/src/pages/RegisterPage.tsx:37-54 | a registration is sent iff the passwords match and the password is valid; it carries the form's fields, with empty optional ones left out |
| RegisterPage.RegisterDisabled | ai-resume-web/src/pages/RegisterPage.tsx:169-196 | the register button is disabled while loading and whenever the mismatch hint shows |
| RegisterPage.SendCodeDisabled | ai-resume-web/src/pages/RegisterPage.tsx:115-119 | an enabled send-code button has an e-mail to send to and reads '发送验证码' |
| RegisterPage.MismatchDisablesRegister | ai-resume-web/src/pages/RegisterPage.tsx:169-196 | when the mismatch hint shows, the register button is disabled; an enabled button means the passwords match |
| RegisterPage.MismatchExample | ai-resume-web/src/pages/RegisterPage.tsx:41-43 | 'password123' against 'different' shows the hint, disables the button and sends nothing |
| RegisterPage.Submit | ai-resume-web/src/pages/RegisterPage.tsx:37-59 | the error is cleared first; an invalid form sends nothing; a valid one sends the registration and navigates iff it succeeds |
| RegisterPage.SendCodeLabel | ai-resume-web/src/pages/RegisterPage.tsx:119 | the button reads '<n>秒' while counting down and '发送验证码' otherwise |
| RegisterPage.CountdownAfter | ai-resume-web/src/pages/RegisterPage.tsx:27-33 | after k ticks from n the countdown reads n - k, and the timer is cleared at the tick that reaches 0 |
| RegisterPage.CountdownClearsAfterSixty | ai-resume-web/src/pages/RegisterPage.tsx:24-33 | from 60, the 60th tick reaches 0 and clears the timer |
| RegisterPage.Countdown.constructor | ai-resume-web/src/pages/RegisterPage.tsx:13 | the countdown starts at 0 with no timer |
| RegisterPage.Countdown.ClickSendCode | ai-resume-web/src/pages/RegisterPage.tsx:22-35 | an enabled click sets the countdown to 60 and starts the timer |
| RegisterPage.Countdown.Tick | ai-resume-web/src/pages/RegisterPage.tsx:27-33 | a tick decrements the countdown, or sets it to 0 and clears the timer when it was at most 1 |
| RegisterPage.Countdown.RunDown | ai-resume-web/src/pages/RegisterPage.tsx:26-34 | running the timer out takes as many ticks as the countdown read, and ends at 0 with no timer |
| ResumeEditor.InitialContent | ai-resume-web/src/pages/ResumeEditorPage.tsx:19-34 | the editor starts with the eight basic-info keys, all empty, and four empty lists |
| ResumeEditor.WithList | ai-resume-web/src/pages/ResumeEditorPage.tsx:115-121 | the spread replaces one list and keeps every other field |
| ResumeEditor.Blank | ai-resume-web/src/pages/ResumeEditorPage.tsx:114-181 | every field of a new entry is an empty string or an empty list |
| ResumeEditor.AddEntry | ai-resume-web/src/pages/ResumeEditorPage.tsx:114-181 | an add makes the list one longer, with the blank entry at the end, and keeps the basic info |
| ResumeEditor.UpdateEntry | ai-resume-web/src/pages/ResumeEditorPage.tsx:124-179 | an update keeps the list's length and gives the entry the new value under the field |
| ResumeEditor.Without | ai-resume-web/src/pages/ResumeEditorPage.tsx:196 | filtering out an index in range removes one element, and any other index none |
| ResumeEditor.RemoveEntry | ai-resume-web/src/pages/ResumeEditorPage.tsx:193-198 | a remove shortens the list by one for an index in range, changes no length otherwise, and keeps the basic info |
| ResumeEditor.AddSkill | ai-resume-web/src/pages/ResumeEditorPage.tsx:183-191 | a cancelled prompt changes nothing, and any change appends exactly one skill |
| ResumeEditor.WithoutDeletes | ai-resume-web/src/pages/ResumeEditorPage.tsx:196 | `filter((_, i) => i !== index)` removes the element at an index in range, and nothing otherwise |
| ResumeEditor.AddAppendsBlank | ai-resume-web/src/pages/ResumeEditorPage.tsx:114-181 | adding an education, work or project entry appends one blank entry to that list and leaves everything else alone |
| ResumeEditor.UpdateChangesOneField | ai-resume-web/src/pages/ResumeEditorPage.tsx:124-179 | an update sets one field of one entry: the new list is the old list with entry i replaced by entry i with `field` set, so no key is added or removed elsewhere and the length is unchanged |
| ResumeEditor.RemoveDeletesOne | ai-resume-web/src/pages/ResumeEditorPage.tsx:193-198 | a remove deletes the entry at an index in range, leaves an absent list absent, and touches no other list |
| ResumeEditor.RemoveUndoesAdd | ai-resume-web/src/pages/ResumeEditorPage.tsx:114-198 | removing the entry just added restores the list |
| ResumeEditor.AddSkillOnlyWithName | ai-resume-web/src/pages/ResumeEditorPage.tsx:183-191 | a cancelled or empty prompt changes nothing; otherwise one `{name}` skill is appended and the other lists and `basicInfo` are unchanged |
| ResumeEditor.RouteParam | ai-resume-web/src/App.tsx:36-43 | the `:id` route gives its segment as the page's `id`; the static `/resumes/new` route gives none |
| ResumeEditor.ParseEditorId | ai-resume-web/src/pages/ResumeEditorPage.tsx:8-11 | the param 'new' gives a new résumé, an undefined param the `NaN` id, and any other accepted param is a decimal number |
| ResumeEditor.EditorIdAsWritten | ai-resume-web/src/pages/ResumeEditorPage.tsx:8-11 | as written, the page on `/resumes/new` has the `NaN` id, not a new résumé |
| ResumeEditor.EditorIdOf | ai-resume-web/src/pages/ResumeEditorPage.tsx:11 | as intended, `/resumes/new` is a new résumé, the id is never `NaN`, and `/resumes/:id` reads as written |
| ResumeEditor.NoLocationOpensNew | ai-resume-web/src/App.tsx:36-43 | as written, no location opens the editor on a new résumé |
| ResumeEditor.NewResumeLinkSelectsStaticRoute | ai-resume-web/src/App.tsx:36-39 | the path `/resumes/new` selects the static route |
| ResumeEditor.NaNUpdate | ai-resume-web/src/pages/ResumeEditorPage.tsx:56 | `updateResume(NaN, data)` is the update's call with 'NaN' in place of the id |
| ResumeEditor.NaNGenerate | ai-resume-web/src/pages/ResumeEditorPage.tsx:74-76 | `aiGenerateResume(NaN, data)` is the generation's call with 'NaN' in place of the id |
| ResumeEditor.SaveCall | ai-resume-web/src/pages/ResumeEditorPage.tsx:52-57 | a new résumé is created, an existing one is updated under its own id, and the `NaN` id is sent as a PUT on `/resumes/NaN` |
| ResumeEditor.SavedResumeIsUpdatedNext | ai-resume-web/src/pages/ResumeEditorPage.tsx:58-63 | after a new résumé is saved and the page moves to `/resumes/<id>`, the param reads as that id and the next save updates it |
| ResumeEditor.HandleAIGenerate | ai-resume-web/src/pages/ResumeEditorPage.tsx:96-105 | a generation call is made iff the résumé is not new and has a truthy job intention; the 'save first' alert shows iff it is new |
| ResumeEditor.GenerateGuards | ai-resume-web/src/pages/ResumeEditorPage.tsx:72-105 | generation runs iff the résumé is not new and has a job intention; that intention is the target position, so the fallback is never used; the call goes to the résumé's id, or to `/resumes/NaN` for the `NaN` id |
| ResumeEditor.ContentOrEmpty | ai-resume-web/src/pages/ResumeEditorPage.tsx:46 | missing content becomes `{}`, with no lists and no basic info |
| ResumeEditor.AiButtonDisabled | ai-resume-web/src/pages/ResumeEditorPage.tsx:238 | with the AI button enabled, no content leads the handler to the 'save first' alert |
| ResumeEditor.EnabledButtonNeverAsksToSave | ai-resume-web/src/pages/ResumeEditorPage.tsx:238 | an enabled AI button never reaches the "save first" alert |
| ResumeEditor.MissingContentAsksForJobIntention | ai-resume-web/src/pages/ResumeEditorPage.tsx:80 | after a generation that returned no content, the next click asks for a job intention |
| ResumeEditor.FreshContentAsksForJobIntention | ai-resume-web/src/pages/ResumeEditorPage.tsx:19-34 | a fresh résumé asks for a job intention before generating |
| ResumeEditor.NewRouteIsNotNew | ai-resume-web/src/pages/ResumeEditorPage.tsx:11-105 | as written, the editor on `/resumes/new` saves with a PUT on `/resumes/NaN`, has its AI button enabled, and with a job intention generates on `/resumes/NaN` |
| ResumeEditor.NewRouteCreates | ai-resume-web/src/pages/ResumeEditorPage.tsx:52-105 | as intended, the editor on `/resumes/new` creates the résumé, keeps the AI button disabled and asks to save first |
| Routes.NameRoundTrip | ai-resume-web/src/App.tsx:18-55 | every route name is recognised back as itself |
| Routes.NameSpellingsDistinct | ai-resume-web/src/App.tsx:18-55 | distinct route names have distinct spellings |
| Routes.Match | ai-resume-web/src/App.tsx:18-58 | more than two segments match no route, and `/resumes/:id` takes the second segment, which is non-empty and not 'new', as its id |
| Routes.MatchInvertsSegments | ai-resume-web/src/App.tsx:18-58 | a route's own segments match that route; a matched location's segments are exactly the route's; with no '/' in a segment, whatever matches is a well-formed route |
| Routes.RouteElement | ai-resume-web/src/App.tsx:18-58 | a page renders only for a matched route, and a protected one exactly with a session; with a session every redirect goes to '/' |
| Routes.PublicRoutes | ai-resume-web/src/App.tsx:18-25 | /login and /register render their page iff there is no session, and otherwise redirect to '/' |
| Routes.ProtectedRoutes | ai-resume-web/src/App.tsx:28-55 | each protected route renders its page iff there is a session, and otherwise redirects to /login |
| Routes.BothEditorRoutes | ai-resume-web/src/App.tsx:36-43 | with a session, /resumes/new and /resumes/<id> both open the editor |
| Routes.DropTrailingEmpty | ai-resume-web/src/App.tsx:18-58 | the kept pieces are a prefix ending in a non-empty piece, and only empty pieces are dropped |
| Routes.Segments | ai-resume-web/src/App.tsx:18-58 | a location that fits a pattern is read as non-empty segments |
| Routes.Selected | ai-resume-web/src/App.tsx:58 | a location that fits no pattern falls to the catch-all |
| Routes.Navigate | ai-resume-web/src/App.tsx:58 | the catch-all redirects to '/' |
| Routes.SegmentsOfPath | ai-resume-web/src/App.tsx:18-58 | a path of non-empty segments is read back as those segments |
| Routes.TrailingSlashIgnored | ai-resume-web/src/App.tsx:18-58 | a trailing slash does not change the segments a location is read as |
| Routes.EmptyPieceUnmatched | ai-resume-web/src/App.tsx:18-58 | an empty segment before the last ('//resumes', '/resumes//5') fits no pattern and falls to the catch-all |
| Routes.TargetSegments | ai-resume-web/src/App.tsx:20-30 | the redirect targets '/' and '/login' read as no segments and as ['login'] |
| Routes.Follow | ai-resume-web/src/App.tsx:18-58 | a landing takes at most the redirect budget, and a landing without redirects is the page the location renders |
| Routes.RootLands | ai-resume-web/src/App.tsx:28-31 | '/' shows the home page with a session, and reaches the login page in one redirect without one |
| Routes.LoginTargetLands | ai-resume-web/src/App.tsx:18-21 | '/login' shows the login page without a session, and reaches the home page in one redirect with one |
| Routes.RedirectsSettle | ai-resume-web/src/App.tsx:18-58 | every location settles within two redirects; without a session it ends on the login page, or on the register page when that was asked for; with one it never ends on either |

## Left out

- The network, axios internals, timers and `Promise` scheduling. Each request's exchange is an input value, and the asynchronous steps are modelled in order as one step.
- The HTTP verb helpers' `params` and `data` serialisation, `FormData` encoding, and `upload` with its progress callback. These are axios and browser behaviour.
- `ApiClient.instance`: it exposes the axios instance, which is not modelled.
- The client models the `onUnauthorized` callback and the token getter by whether they were supplied. A getter's result is an input of each request.
- JSON numbers are integers. Floating point and `Number` of a non-decimal id are left out; the `NaN` of an absent param is `EditorId.NaNId`.
- ResumeEditor.ParseEditorId: reads a param only when it is 'new', a string of ASCII digits, or absent (`NaN`). It rejects every other string, but `Number(id)` also reads forms such as '0x10', '1e3', ' 7' and '+7' as numbers, and gives `NaN` only for the rest.
- Text.ParseDecimal: reads only non-empty strings of ASCII digits. The hexadecimal, binary, octal, exponent, signed, fractional and white-space-padded forms that `Number()` accepts are not modelled.
- Types.Stringify: states only the outer shape of the stored user. `JSON.stringify`'s escaping and key order are not modelled.
- Client.HandleErrorFollowsTaxonomy: its `ApiException` equivalence is about the corrected handler. On a server-side rejection with a null or undefined body, the code as written throws a `TypeError`; the lemma states that case through `HandleErrorAsWritten`.
- Client.ServerStatusesClassified: its `ApiException` result is the corrected handler's. With a null or undefined body, the code as written throws a `TypeError` instead; the lemma states that case through `OutcomeAsWritten`.
- Client.ApiClient.Send: its result is the corrected handler's. Where the code as written throws a `TypeError` (a 5xx answer with a null or undefined body), the method returns the corrected `ApiException` instead.
- RegisterPage.HandleSubmit: the browser's own form validation is not modelled. The required e-mail and password fields, `type="email"` and the required terms checkbox (ai-resume-web/src/pages/RegisterPage.tsx:87-92, 145-178) can stop the submit before `handleSubmit` runs. The model states what the handler does once it runs.
- Strings are sequences of characters. UTF-16 code units versus code points are not distinguished.
- zustand's `persist` rehydration and React Query's caching, invalidation and mutation state: only `partialize` is modelled.
- JSX rendering, `alert`, `prompt` and navigation are modelled as results. The prompt's answer is an input; `navigate` becomes a returned target or flag.
- The other formatting utilities (`formatDate`, `formatDateTime`, `generateId`, `debounce`, `throttle`, `downloadFile`, `copyToClipboard`, `formatFileSize`). They concern I/O, time or randomness.
- The other pages, the desktop shell and the end-to-end tests.
- react-router's case-insensitive matching and URL decoding. Its handling of trailing slashes and of empty segments is modelled by `Routes.Segments`.
- Routes.RedirectsSettle: `Follow` is bounded by a redirect budget (fuel). The lemma proves that every location settles within two redirects. It does not model an unbounded chain.
- ResumeEditor.UpdateChangesOneField: requires the index to be in range. JavaScript would grow the array with holes for a larger index, but the UI only updates entries it displays.
- Validators.FileExtensionIsAfterLastDot: requires the file name to be at most 2^32 characters long. This is the range on which `>>> 0` is exact.
- Facade.EndpointRoundTrip: the decoder stands in for the backend. The lemma shows the calls are unambiguous, not what the real server does.

## Findings

| source | as written | input that shows it | evidently intended | confidence | as-written member | corrected member |
|---|---|---|---|---|---|---|
| ai-resume-shared/src/api/client.ts:113-114 | `typeof data === 'object'` also holds for `null`, so `data.message` is read on null; and `data.detail` at line 134 is read on an undefined body | a response with status 500 whose JSON body is `null`, i.e. `HttpResponse(500, Null)` | a server error whose body is null or missing is reported as `ApiException('请求失败', 500)`, not as a `TypeError` thrown from inside the handler | not executed | Client.NullBodyCrashesHandler | Client.ServerError |
| ai-resume-web/src/pages/ResumeEditorPage.tsx:11 | `isNew` is `id === 'new'`, but on the static route `/resumes/new` (App.tsx:36-39) `useParams()` gives no `id`, so `isNew` is false and `Number(id)` is `NaN` | opening `/resumes/new`, the page's link for a new résumé, and pressing save | the page on `/resumes/new` creates the résumé (`createResume`), and its AI button stays disabled until it is saved | not executed | ResumeEditor.NewRouteIsNotNew | ResumeEditor.EditorIdOf |
