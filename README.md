# Twidder in Dafny

Twidder is a small social wall. A JavaScript single-page client talks to a
Flask server: users register, sign in with HTTP Basic credentials, post
messages (optionally with a media file) on their own wall or on another
user's wall, and receive live statistics over a WebSocket push channel.

This project models the logic both sides of that conversation rely on:

- the client `Session` object (`client.dfy`): the session token, held in
  memory and under the localStorage key "sessionToken"; the push channel;
  and the callback chains (sign-up then sign-in, profile lookup then post).
  Responses arrive as events, and `Session.Resume` runs the callback that
  was registered for them. The same file holds the media classification
  of `Wall.createPosts` and the password checks of the welcome forms;
- the request wrapper `XhrSender`, the push channel `WebsocketChannel` and
  the endpoint catalog `Server` of the current client (`flaskserver.dfy`),
  and of the earlier copy of the same file (`legacy_flaskserver.dfy`);
- Base64 (section 4 of RFC 4648) and the Basic credentials header (section
  2 of RFC 7617) the sign-in request carries (`base64.dfy`);
- the template loader's fan-in barrier (`templates.dfy`);
- the router's view switch and route table (`router.dfy`);
- the DOM and password helpers of `common.js` (`common.dfy`);
- the statistics chart's data conversion and update rule (`donutchart.dfy`);
- the server's domain rules (`twidder_server.dfy`): the field validators,
  the e-mail pattern, the order of checks in `User._validate`, sessions,
  media naming, the message guard, the user-info projection, the request
  data checks and the registry of connected push sockets;
- the points where client and server must agree (`agreement.dfy`).

The browser objects (XMLHttpRequest, WebSocket, localStorage, location) are
small classes in `browser.dfy` that record what was asked of them, and
JavaScript values, truthiness, `String()` and object-literal lookups are in
`js_values.dfy`. Object-literal lookups matter here: `videoFormats[ext]`,
the chart's name table and `templates[name]` all find members inherited from
`Object.prototype` (for example "toString"), and the model follows that.

The code does the following, which a reader of its names might not expect;
the model follows the code:

- `XhrSender.send` has no guard of its own against a second call. The
  XMLHttpRequest refuses it instead: once sent, the request is no longer
  configurable, so a second round throws InvalidStateError and sends
  nothing. The current catalog throws at its first `setRequestHeader`, and
  the legacy one at `xhr.send`.
- A response that is not JSON makes `JSON.parse` throw inside the handler,
  so no callback runs. The failure is not routed to the error callback.
- `WebsocketChannel` installs no message handler. `client.js` passes the
  statistics function where the endpoint goes, so the channel URL is that
  function's source text followed by "/messages".
- `Templates.compile` fetches every queued name again, compiled or not. A
  failed fetch leaves the name absent, and `use` then returns undefined.
- `signOut` never clears the stored token. A lost channel only signs out
  from the server; the session keeps its token.
- The server validates the password *hash*, so the length of the password
  typed is never checked at registration.
- The legacy `postMessage(token, content, toEmail)` takes three parameters,
  and the client passes four: token, message, media, recipient. The media
  argument therefore lands in `toEmail`. The URL ends in "undefined" or
  "[object File]", the recipient is lost and no file is sent.

## Model

| member | source | states |
|---|---|---|
| JsValues.ReadLiteral | twidder/static/js/donutchart.js:21-27 | an object-literal read yields the own value, an inherited Object.prototype member for those names, and nothing otherwise |
| JsValues.Get | twidder/static/js/client.js:442-446 | a property read throws exactly on undefined and null |
| JsValues.LastIndexOf | twidder/static/js/client.js:91 | the position of the last occurrence of a character; none exactly when the character is absent |
| JsValues.StringCoercionFacts | twidder/static/js/flaskserver.js:32-34 | `String()` of a string is itself, and distinct numbers have distinct string forms |
| JsValues.NatToStringInjective | twidder/static/js/client.js:347-348 | the decimal form of a natural number determines the number |
| Base64.SymbolIndexInverse | twidder/static/js/flaskserver.js:130 | decoding a Base64 symbol gives back its sextet |
| Base64.JoinSplit | twidder/static/js/flaskserver.js:130 | splitting three octets into four sextets and joining them back is the identity |
| Base64.DecodeEncode | twidder/static/js/flaskserver.js:130 | decoding the encoding of any octet sequence gives it back |
| Base64.Btoa | twidder/static/js/flaskserver.js:130 | `btoa` succeeds exactly on Latin-1 strings |
| Base64.AtobBtoa | twidder/static/js/flaskserver.js:130 | `atob(btoa(s)) == s` for every Latin-1 string |
| BasicAuth.Authorization | twidder/static/js/flaskserver.js:127-133 | the header exists exactly when `user:password` is Latin-1, and starts with "Basic " |
| BasicAuth.FirstColonOf | twidder/twidder.py:303-316 | in `user:password` with no colon in the user, the first colon is the separator |
| BasicAuth.CredentialsRoundTrip | twidder/twidder.py:303-316 | the server reads back exactly the credentials the client encoded, unless the user name holds a colon |
| Browser.Xhr.constructor | twidder/static/js/flaskserver.js:128 | a new request is unopened: nothing set, nothing sent, not configurable |
| Browser.Xhr.Open | twidder/static/js/flaskserver.js:129 | records the method and URL, clears the headers and makes the request configurable |
| Browser.Xhr.SetRequestHeader | twidder/static/js/flaskserver.js:29-33 | appends the header exactly when the request is configurable; otherwise it throws and changes nothing |
| Browser.Xhr.Send | twidder/static/js/flaskserver.js:51 | sends the body once and ends configurability; on a request not configurable it throws and sends nothing |
| Browser.LocalStorage.GetItem | twidder/static/js/client.js:410 | a stored key gives its string, a missing key gives null |
| Browser.LocalStorage.SetItem | twidder/static/js/client.js:425-428 | stores the string form of the value under the key and changes no other key |
| FlaskServer.SentBody | twidder/static/js/flaskserver.js:51 | the body sent is the content when it is truthy, and "" otherwise |
| FlaskServer.TokenHeader | twidder/static/js/flaskserver.js:32-34 | the X-Session-Token header is added exactly when the token is truthy, carrying its string form |
| FlaskServer.XhrSender.constructor | twidder/static/js/flaskserver.js:9-14 | both callbacks start as the no-op, the mode is JSON and no handler is installed |
| FlaskServer.XhrSender.OnSuccess | twidder/static/js/flaskserver.js:58-63 | a falsy argument keeps the previous success callback; returns the same sender and changes nothing else |
| FlaskServer.XhrSender.OnError | twidder/static/js/flaskserver.js:68-73 | as OnSuccess, for the error callback |
| FlaskServer.XhrSender.AsText | twidder/static/js/flaskserver.js:75-78 | switches to text mode, keeps both callbacks, returns the same sender |
| FlaskServer.XhrSender.Send | twidder/static/js/flaskserver.js:20-52 | on a configurable request: adds the token header for a truthy token, installs the handler and sends the content, or the empty string, once; a second call throws and changes nothing |
| FlaskServer.XhrSender.ReadyStateChange | twidder/static/js/flaskserver.js:40-49 | no dispatch before DONE or before send; on DONE a parse failure throws, otherwise exactly one callback runs, chosen by 200 <= status < 400, on the raw text in text mode or the parsed body |
| FlaskServer.IsStatusValid | twidder/static/js/flaskserver.js:16-18 | `isStatusValid`; how it picks the callback is stated by FlaskServer.XhrSender.ReadyStateChange |
| FlaskServer.ChannelUrl | twidder/static/js/flaskserver.js:95 | the channel URL is the endpoint (or ws://host) followed by "/messages"; a function argument contributes its source text |
| FlaskServer.AuthenticateFrame | twidder/static/js/flaskserver.js:98-104 | the frame's type is "authenticate" and its data is the token |
| FlaskServer.WebsocketChannel.constructor | twidder/static/js/flaskserver.js:92-96 | opens one socket to ChannelUrl with no sub-protocol; the close callback defaults to the no-op |
| FlaskServer.WebsocketChannel.OnOpen | twidder/static/js/flaskserver.js:98-104 | sends exactly one frame, the authentication frame |
| FlaskServer.WebsocketChannel.OnClose | twidder/static/js/flaskserver.js:106-108 | every close event runs the close callback |
| FlaskServer.WebsocketChannel.Close | twidder/static/js/flaskserver.js:111-113 | asks the socket to close once and sends nothing |
| FlaskServer.SignInRequest | twidder/static/js/flaskserver.js:127-133 | sign-in is POST <endpoint>/login with one Authorization header that decodes to the e-mail and password, and is built exactly when btoa accepts them |
| FlaskServer.SessionTokenOnTheWire | twidder/static/js/flaskserver.js:135-195 | every call but sign-in and sign-up carries the caller's token; the token header reaches the wire exactly for those calls with a truthy token |
| FlaskServer.RequestShape | twidder/static/js/flaskserver.js:121-195 | GET requests send an empty body, Content-Type JSON is set exactly for JSON bodies, and every URL is the endpoint followed by a path |
| FlaskServer.Server.constructor | twidder/static/js/flaskserver.js:119 | the default endpoint is protocol//host/api |
| FlaskServer.Server.SignIn | twidder/static/js/flaskserver.js:127-133 | returns an unsent sender for POST /login with the Basic header, or nothing when btoa throws |
| FlaskServer.Server.SignOut | twidder/static/js/flaskserver.js:135-139 | an unsent sender for POST /logout carrying the token |
| FlaskServer.Server.SignUp | twidder/static/js/flaskserver.js:141-147 | an unsent sender for POST /register with the form as JSON and no token |
| FlaskServer.Server.GetUserMessagesByToken | twidder/static/js/flaskserver.js:149-153 | an unsent sender for GET /messages carrying the token |
| FlaskServer.Server.GetUserMessagesByEmail | twidder/static/js/flaskserver.js:155-159 | an unsent sender for GET /messages/<email> carrying the token |
| FlaskServer.Server.PostMessage | twidder/static/js/flaskserver.js:161-170 | an unsent sender for POST /messages/<email> with a form of message and media |
| FlaskServer.Server.GetUserDataByToken | twidder/static/js/flaskserver.js:172-176 | an unsent sender for GET /profile carrying the token |
| FlaskServer.Server.GetUserDataByEmail | twidder/static/js/flaskserver.js:178-182 | an unsent sender for GET /profile/<email> carrying the token |
| FlaskServer.Server.ChangePassword | twidder/static/js/flaskserver.js:184-195 | an unsent sender for PUT /changePassword with both passwords as JSON |
| LegacyFlaskServer.LegacySender.constructor | twidder/static/flaskserver.js:8-11 | both callbacks start as the no-op and no handler is installed |
| LegacyFlaskServer.LegacySender.OnSuccess | twidder/static/flaskserver.js:36-41 | a falsy argument keeps the previous callback; returns the same sender |
| LegacyFlaskServer.LegacySender.OnError | twidder/static/flaskserver.js:46-51 | as OnSuccess, for the error callback |
| LegacyFlaskServer.LegacySender.Send | twidder/static/flaskserver.js:17-30 | installs the handler and sends the body once, leaving the headers as set; a second call throws at `xhr.send` and sends nothing |
| LegacyFlaskServer.LegacySender.ReadyStateChange | twidder/static/flaskserver.js:17-30 | only DONE dispatches; the body is always JSON-parsed, and exactly one callback runs, chosen by 200 <= status < 400 |
| LegacyFlaskServer.LegacyChannel.constructor | twidder/static/flaskserver.js:65-69 | opens one socket with the sub-protocol "protocolOne" |
| LegacyFlaskServer.LegacyChannel.OnOpen | twidder/static/flaskserver.js:71-77 | sends exactly one authentication frame carrying the token |
| LegacyFlaskServer.LegacyChannel.OnClose | twidder/static/flaskserver.js:79-81 | every close event runs the close callback |
| LegacyFlaskServer.LegacyChannel.Close | twidder/static/flaskserver.js:84-86 | asks the socket to close once |
| LegacyFlaskServer.LegacyTokenHeader | twidder/static/flaskserver.js:108-114 | the token header is always set, to the token's string form ("undefined" for an absent token) |
| LegacyFlaskServer.CatalogsAgree | twidder/static/flaskserver.js:100-181 | apart from posting, both catalogs put the same verb, URL, body and headers on the wire for a truthy token; for a falsy one the legacy catalog sends one header more |
| LegacyFlaskServer.LegacyPost | twidder/static/flaskserver.js:140-151 | POST to "/messages/" and the third argument's string form, with the token and JSON content-type headers and the body {"message": content} |
| LegacyFlaskServer.LegacyPostsJson | twidder/static/flaskserver.js:140-151 | called with the client's four arguments, the post goes to "/messages/undefined" without a file and "/messages/[object File]" with one, with the JSON body {"message": text}, whatever the recipient |
| LegacyFlaskServer.LegacyLosesRecipient | twidder/static/flaskserver.js:140-142 | for a string recipient and no file, the legacy URL differs from the current catalog's for every recipient other than the text "undefined" |
| LegacyFlaskServer.LegacyServer.constructor | twidder/static/flaskserver.js:92 | the default endpoint is protocol//host, with no /api |
| LegacyFlaskServer.LegacyServer.SignIn | twidder/static/flaskserver.js:100-106 | an unsent sender for POST /login with the Basic header, or nothing when btoa throws |
| LegacyFlaskServer.LegacyServer.SignOut | twidder/static/flaskserver.js:108-114 | an unsent sender for POST /logout with the token header |
| LegacyFlaskServer.LegacyServer.SignUp | twidder/static/flaskserver.js:116-122 | an unsent sender for POST /register with JSON |
| LegacyFlaskServer.LegacyServer.GetUserMessagesByToken | twidder/static/flaskserver.js:124-130 | an unsent sender for GET /messages with the token header |
| LegacyFlaskServer.LegacyServer.GetUserMessagesByEmail | twidder/static/flaskserver.js:132-138 | an unsent sender for GET /messages/<email> with the token header |
| LegacyFlaskServer.LegacyServer.PostMessage | twidder/static/flaskserver.js:140-151 | an unsent sender for POST /messages/<third argument> with the token header and a JSON body (LegacyPost) |
| LegacyFlaskServer.LegacyServer.GetUserDataByToken | twidder/static/flaskserver.js:153-159 | an unsent sender for GET /profile with the token header |
| LegacyFlaskServer.LegacyServer.GetUserDataByEmail | twidder/static/flaskserver.js:161-167 | an unsent sender for GET /profile/<email> with the token header |
| LegacyFlaskServer.LegacyServer.ChangePassword | twidder/static/flaskserver.js:169-181 | an unsent sender for PUT /changePassword with the token header and JSON |
| TemplateLoader.TemplateUrl | twidder/static/js/templates.js:3 | a template is fetched from "templates/" + name + ".hbs" |
| TemplateLoader.FetchAll | twidder/static/js/templates.js:18-33 | one fetch per queued name, last added first |
| TemplateLoader.Templates.constructor | twidder/static/js/templates.js:5-9 | the counter is zero, and the queue and the template table are empty |
| TemplateLoader.Templates.Add | twidder/static/js/templates.js:36-41 | queues the name, raises the counter by one, returns the same loader |
| TemplateLoader.Templates.Compile | twidder/static/js/templates.js:43-47 | empties the queue, starting one fetch per name (already compiled names included) and leaving the counter alone |
| TemplateLoader.Templates.Complete | twidder/static/js/templates.js:11-16 | each answer lowers the counter by one, stores a loaded template under its name, and fires the completion callback exactly when the counter reaches zero with nothing queued |
| TemplateLoader.Templates.Use | twidder/static/js/templates.js:49-56 | undefined for an unknown name; otherwise the template applied to `context` or `{}` |
| TemplateLoader.RunBarrier | twidder/static/js/templates.js:11-47 | after N adds and one compile, the callback fires on the N-th completion and on no other, never with no names, and exactly the names with a loaded fetch end up compiled |
| TemplateLoader.AnswerAll | twidder/static/js/templates.js:11-17 | once one compile has started every fetch, the callback fires only on the answer that brings the count to zero, and the loaded names are exactly the compiled ones |
| Common.Without | twidder/static/js/common.js:18-23 | the class list without the token, every other class kept |
| Common.WithoutKeepsDistinct | twidder/static/js/common.js:18-23 | removing a class keeps a class list free of duplicates |
| Common.AddClass | twidder/static/js/common.js:11-16 | false and no change on a non-element or a present class; otherwise the class is appended, or the add throws on an invalid token |
| Common.RemoveClass | twidder/static/js/common.js:18-23 | false and no change on a non-element or an absent class; otherwise exactly that class is removed |
| Common.RemoveUndoesAdd | twidder/static/js/common.js:11-23 | adding an absent class and removing it gives back the class list |
| Common.RemoveAllChild | twidder/static/js/common.js:36-44 | a non-element gives false; an element ends with no children and its classes unchanged |
| Common.CreateElement | twidder/static/js/common.js:25-34 | a new element with the parsed children, given the class exactly when it is a non-empty string |
| Common.Utf16Length | twidder/static/js/common.js:46-48 | the JavaScript length lies between the character count and twice it, and equals it within the Basic Multilingual Plane |
| Common.PasswordLengthRule | twidder/static/js/common.js:46-48 | non-strings are rejected, six characters or more always pass, and within the Basic Multilingual Plane the check is exactly length >= 6 |
| Common.IsPasswordLengthValid | twidder/static/js/common.js:46-48 | `isPasswordLengthValid`; its meaning is stated by Common.PasswordLengthRule |
| Common.AstralPasswordPasses | twidder/static/js/common.js:46-48 | three characters outside the Basic Multilingual Plane pass the six-character check |
| Router.MatchRoute | twidder/static/js/router.js:26-53 | "/", "/browse" and "/account" match exactly, "/browse/:email" matches one non-empty segment, and anything else is the catch-all |
| Router.Continuation | twidder/static/js/router.js:26-53 | every route but the catch-all has a continuation |
| Router.BrowseRoutes | twidder/static/js/router.js:32-42 | "/browse/:email" passes the e-mail to displayUser, "/browse" passes none |
| Router.DisplayedViews | twidder/static/js/router.js:5-12 | the displayed views are drawn from the recorded effects |
| Router.OtherEffectKeepsScreen | twidder/static/js/router.js:5-12 | an effect that displays nothing keeps the screen invariant |
| Router.DisplayKeepsScreen | twidder/static/js/router.js:10-11 | displaying a view other than the current one keeps the screen invariant with that view current |
| Router.Twidder.constructor | twidder/static/js/router.js:1-3 | no view is current and nothing has happened |
| Router.Twidder.ChangeTo | twidder/static/js/router.js:5-12 | the current view again does nothing; another view is displayed once and becomes current |
| Router.Twidder.IfSignedIn | twidder/static/js/router.js:14-24 | records one session probe with its continuation and changes no view |
| Router.Twidder.Navigate | twidder/static/js/router.js:26-53 | a matched route probes with its continuation; the catch-all probes for the home page and then shows the error |
| Router.Twidder.ProbeAnswered | twidder/static/js/router.js:14-24 | each probe is answered once; signed in switches to the signed-in view and then runs the continuation; not signed in switches to the welcome view and never runs it |
| DonutChart.FindName | twidder/static/js/donutchart.js:21-27 | the three known statistics get their human names, other keys stay as they are, inherited member names find the member |
| DonutChart.EntryAt | twidder/static/js/donutchart.js:33-37 | entry i carries the label of key i, colour i mod 3 and the value unchanged |
| DonutChart.ConvertData | twidder/static/js/donutchart.js:17-43 | one entry per own key in key order, or a throw when a key shadows hasOwnProperty |
| DonutChart.ConvertedEntries | twidder/static/js/donutchart.js:17-43 | the known keys get their human names, colours repeat every three entries, values are carried over |
| DonutChart.Labels | twidder/static/js/donutchart.js:47-51 | the chart's labels, one per segment |
| DonutChart.Chart.constructor | twidder/static/js/donutchart.js:66 | a chart starts with no segments |
| DonutChart.Chart.UpdateChart | twidder/static/js/donutchart.js:45-62 | the segments become those of the add-or-update rule applied to the entries |
| DonutChart.ApplyKeepsSegments | twidder/static/js/donutchart.js:49-59 | segments are never removed or relabelled |
| DonutChart.ApplyCoversLabels | twidder/static/js/donutchart.js:49-59 | after an update that did not throw every entry's label is a segment label |
| DonutChart.Apply | twidder/static/js/donutchart.js:49-59 | the update loop; what it keeps and covers is stated by ApplyKeepsSegments and ApplyCoversLabels |
| DonutChart.SameLabelsUpdateInPlace | twidder/static/js/donutchart.js:49-59 | entries with the segments' labels in order update each value in place and add nothing |
| DonutChart.OverwriteFollowsPosition | twidder/static/js/donutchart.js:53-58 | the write goes to the entry's position, not to the segment with its label |
| TwidderServer.ValidatorsAccept | twidder/twidder.py:200-205 | a password is valid exactly when at least six long; a gender exactly when "m" or "f" |
| TwidderServer.IsPasswordValid | twidder/twidder.py:200-201 | `is_password_valid`; its meaning is stated by ValidatorsAccept |
| TwidderServer.IsGenderValid | twidder/twidder.py:204-205 | `is_gender_valid`; its meaning is stated by ValidatorsAccept |
| TwidderServer.WithoutFinalNewline | twidder/twidder.py:208-209 | drops one trailing newline, which the pattern's `$` allows |
| TwidderServer.SplitAtFirstAt | twidder/twidder.py:208-209 | a split of an address into local part, domain and tail places "@" at its first occurrence |
| TwidderServer.SplitAtFirstDot | twidder/twidder.py:208-209 | the dot after the domain is the first dot after "@" |
| TwidderServer.HasEmailShapeIff | twidder/twidder.py:208-209 | the executable shape check holds exactly when some split matches the pattern |
| TwidderServer.SplitEndsInTailChar | twidder/twidder.py:208-209 | a matching string ends in a tail character, never in a newline |
| TwidderServer.EmailValidIffPattern | twidder/twidder.py:208-209 | `is_email_valid` holds exactly when the string, or the string without one final newline, matches the pattern |
| TwidderServer.IsEmailValid | twidder/twidder.py:208-209 | `is_email_valid`; its meaning is stated by EmailValidIffPattern |
| TwidderServer.EmailExamples | twidder/twidder.py:208-209 | "a@b.c" and "a@b.c\n" are accepted, "a@bc" is not |
| TwidderServer.Escape | twidder/twidder.py:289 | escaping never shortens a field and leaves none of < > " ' in it |
| TwidderServer.EscapePlain | twidder/twidder.py:289 | a field with none of the special characters is left as it is |
| TwidderServer.ValidateUser | twidder/twidder.py:118-131 | valid exactly when every check passes; otherwise the first failing check decides: missing field, gender, password (a KeyError), e-mail |
| TwidderServer.FirstFailureWins | twidder/twidder.py:118-131 | a missing field hides a bad gender, a bad gender hides a short password, and a short password raises before the e-mail is checked |
| TwidderServer.CreateUserToRegister | twidder/twidder.py:287-298 | with exactly the seven fields, the escaped user with the hash as password is registered exactly when it validates, and each failing check gives its message (the `{min_char}` KeyError becomes "User not valid."); any other key set is "User not valid." |
| TwidderServer.EscapedUser | twidder/twidder.py:289-290 | every field is the escaped input, and the password is the hash |
| TwidderServer.RegistrationIgnoresPasswordLength | twidder/twidder.py:287-298 | with a hash of six characters or more, registration does not depend on the password typed |
| TwidderServer.NewSession | twidder/twidder.py:50-62 | a session exists exactly for a real user with a non-empty token; a missing or empty token is replaced by the fresh id |
| TwidderServer.ExtractExtension | twidder/twidder.py:241-242 | the text after the last "."; no extension (IndexError) exactly when there is no "." |
| TwidderServer.PostMediaName | twidder/twidder.py:225-229 | a name exists exactly for an allowed file, and is the media id, ".", and the extension |
| TwidderServer.AllowedMedia | twidder/twidder.py:237-238 | `Media._allowed_media`; its meaning is stated by PostMediaName |
| TwidderServer.MediaNameKeepsExtension | twidder/twidder.py:225-242 | the stored name has the uploaded file's extension, which is an allowed one |
| JsValues.LastIndexOfSeparator | twidder/twidder.py:242 | the last "." of id "." extension, for an extension without a dot, is the one just before the extension |
| TwidderServer.PostMessage | twidder/twidder.py:143-161 | posts exactly when there is a recipient, a message or a truthy file, an existing recipient, and no file or an allowed one; a file is stored under PostMediaName |
| TwidderServer.CreateUserInfo | twidder/twidder.py:377-379 | exactly the six public keys, each bound to the user's own field, never the password |
| TwidderServer.UserInfoHidesPassword | twidder/twidder.py:377-379 | the projection does not depend on the password |
| TwidderServer.IsPasswordDataValid | twidder/twidder.py:351-355 | a non-object raises; an object is accepted exactly when both passwords are truthy; a missing old or new password is a refusal |
| TwidderServer.Registry.constructor | twidder/twidder.py:531 | the registry starts empty |
| TwidderServer.Registry.PopUser | twidder/twidder.py:585-591 | an unknown token returns false and changes nothing; otherwise the user's socket, if any, is closed and dropped |
| TwidderServer.Registry.AuthenticateUser | twidder/twidder.py:576-582 | a valid token closes the user's previous socket and registers the new one in its place, so one socket per user |
| TwidderServer.Registry.SendStatistics | twidder/twidder.py:594-602 | frames go out in iteration order, each counting the registry size as connected users, until the first socket already closed elsewhere, whose send raises; it raises exactly when such a socket is registered |
| TwidderServer.OneFramePerUser | twidder/twidder.py:594-602 | in a run that does not raise, every registered user gets exactly one statistics frame |
| TwidderServer.CardinalityOfListing | twidder/twidder.py:599 | a listing without repeats has as many keys as entries |
| TwidderServer.EqualCardinalitySubset | twidder/twidder.py:596-599 | a subset of the same size is the whole set |
| Client.Extension | twidder/static/js/client.js:91 | the text after the last ".", or the whole name when there is none |
| Client.FormatOf | twidder/static/js/client.js:94-101 | the format a truthy literal read gives |
| Client.Classified | twidder/static/js/client.js:88-107 | a post without media is unchanged; otherwise the format is set and at most one of video, audio and image, to the media name |
| Client.ClassifyKnown | twidder/static/js/client.js:83-104 | mp4 sets video with format "mp4"; mp3 and wav set audio with "mpeg" and "wav"; jpg and png set image with the extension as format |
| Client.KnownReads | twidder/static/js/client.js:83-85 | the video table holds mp4, the audio table mp3 as "mpeg" and wav, jpg and png are image extensions, and none of them reaches an inherited member |
| Client.ClassifyOther | twidder/static/js/client.js:93-104 | any other extension sets only the format, except Object.prototype names, which the video lookup finds |
| Client.ClassifyIdempotent | twidder/static/js/client.js:88-107 | classifying a post twice is classifying it once |
| Client.Post.constructor | twidder/static/js/client.js:87-89 | a post starts with none of the written fields |
| Client.Post.Classify | twidder/static/js/client.js:89-105 | writes on the post exactly the fields Classified gives |
| Client.CreatePosts | twidder/static/js/client.js:87-109 | returns the same posts in the same order, each classified once |
| Client.Marked | twidder/static/js/client.js:321-354 | marking adds "invalid_input" and keeps every class |
| Client.ValidateLoginForm | twidder/static/js/client.js:321-334 | accepts exactly an existing field with a valid length, clearing its mark; otherwise marks it and shows the error |
| Client.ValidateSignupFormData | twidder/static/js/client.js:336-354 | accepts exactly a non-empty valid password equal to its repetition, clearing both marks; otherwise marks both and shows the error |
| Client.InvalidInputIsToken | twidder/static/js/client.js:325-346 | the error mark is a non-empty class token without whitespace, so adding it never throws |
| Client.FormRules | twidder/static/js/client.js:321-354 | both forms refuse a short password; only sign-up looks at the repetition |
| Client.CallbackOf | twidder/static/js/client.js:497-527 | a missing callback is the no-op, a given one is that caller's function |
| Client.CallerEffect | twidder/static/js/client.js:465 | the caller's callback runs once when there is one |
| Client.IssueEffects | twidder/static/js/client.js:473-477 | a request is sent exactly when it can be built, otherwise the call throws |
| Client.NextToken | twidder/static/js/client.js:460-462 | only a successful sign-in changes the token, to the response's data |
| Client.Reaction | twidder/static/js/client.js:439-540 | a registered function does something, a throw ends it, and a channel is opened exactly on sign-in success |
| Client.Session.constructor | twidder/static/js/client.js:407-415 | the token is read back from storage and a channel opened exactly when it is truthy |
| Client.Session.CreateChannel | twidder/static/js/client.js:417-423 | a new channel for the token held, whose closing signs out, with the statistics function as endpoint |
| Client.Session.Issue | twidder/static/js/client.js:473-477 | builds the request, registers both callbacks and sends it, or throws when it cannot be built |
| Client.Session.Build | twidder/static/js/client.js:473-476 | a fresh, unsent sender exists exactly when the request can be built, and it carries that request |
| Client.Session.SignUp | twidder/static/js/client.js:439-453 | sends the registration with the sign-in-on-success and show-error continuations |
| Client.Session.SignIn | twidder/static/js/client.js:455-478 | sends the sign-in with the session's success and error continuations |
| Client.Session.IsSignedIn | twidder/static/js/client.js:480-488 | a profile request with the current token, answered straight to the caller's callbacks |
| Client.Session.SignOutFromServer | twidder/static/js/client.js:430-436 | signs out with the current token and refreshes on either answer |
| Client.Session.SignOut | twidder/static/js/client.js:490-495 | closes the channel if there is one, then signs out from the server; the token stays in memory and in storage |
| Client.Session.ChangePassword | twidder/static/js/client.js:497-503 | sends the current token and both passwords, answered to the caller's callbacks |
| Client.Session.GetCurrentUserData | twidder/static/js/client.js:505-511 | the profile request with the current token and the caller's callbacks |
| Client.Session.GetCurrentUserMessages | twidder/static/js/client.js:513-519 | the messages request with the current token and the caller's callbacks |
| Client.Session.PostMessage | twidder/static/js/client.js:521-527 | the post request with the current token and the caller's callbacks |
| Client.Session.PostMessageOnWall | twidder/static/js/client.js:529-540 | first looks up the current user's profile, with the post as its success continuation |
| Client.Session.GetOtherUserDataByEmail | twidder/static/js/client.js:542-548 | the other user's profile request with the current token |
| Client.Session.GetOtherUserMessagesByEmail | twidder/static/js/client.js:550-556 | the other user's messages request with the current token |
| Client.Session.Resume | twidder/static/js/client.js:439-540 | running a continuation adds its Reaction; only sign-in success changes state: the token is stored and held, and a new channel opened |
| Client.Session.SignUpSucceededOn | twidder/static/js/client.js:442-445 | sign-up success adds its reaction, a sign-in with the form's credentials, and leaves the token and channel alone |
| Client.Session.SignInSucceededOn | twidder/static/js/client.js:460-466 | sign-in success stores and holds the response's token and opens a new channel for it; a throw changes neither |
| Client.Session.LookupSucceededOn | twidder/static/js/client.js:534-535 | a successful profile lookup posts the message to the returned e-mail, or throws on a missing field, leaving the token and channel alone |
| Client.SignUpThenSignIn | twidder/static/js/client.js:442-446 | sign-up success signs in with the form's e-mail and password before showing the message; sign-up failure sends nothing |
| Client.SignInOutcomes | twidder/static/js/client.js:460-471 | success opens the channel, then refreshes, then calls back; failure shows the error, calls back and keeps the token |
| Client.SignOutAlwaysNotifies | twidder/static/js/client.js:430-436 | sign-out refreshes the page on success and on error, and keeps the token |
| Client.PostOnWallTarget | twidder/static/js/client.js:529-540 | the post goes to the e-mail the lookup returned; a failed lookup posts nothing and hands its response to the error callback |
| Agreement.PasswordRulesAgree | twidder/static/js/common.js:46-48 | the server's password rule implies the client's length check, and they agree within the Basic Multilingual Plane |
| Agreement.ExtensionsAgree | twidder/twidder.py:241-242 | for a name with a ".", the client's extension is the server's |
| Agreement.StoredMediaKeepsExtension | twidder/twidder.py:225-229 | the client classifies stored media by the extension it was uploaded with |
| Agreement.SignInHeaderAccepted | twidder/twidder.py:321-325 | the header sign-in sends passes the server's credentials check exactly when e-mail and password are non-empty |
| TwidderServer.IsAuthDataValid | twidder/twidder.py:321-325 | `_is_auth_data_valid`; its meaning for the header the client sends is stated by Agreement.SignInHeaderAccepted |

## Left out

- HMAC and timestamp headers (`appendHmac`, twidder/security.py): cryptographic library calls. The header the client names (X-Request-Hmac) differs from the one the server reads (X-Request-Digest); neither is modelled.
- Handlebars and Chart.js: foreign libraries. A compiled template is kept as its text, and the chart as its segment list.
- DOM rendering and event wiring (messages, views, wall handlers, app start-up): browser I/O.
- page.js details (case folding, trailing slashes, URL decoding): the route table is matched exactly.
- Flask routing and request handlers other than the helpers modelled, the sqlite database, password hashing, uuid generation and file saving: their results are parameters (`hashed`, `freshId`, `mediaId`, `recipientExists`, `sessions`, `posts`, `views`).
- The WebSocket receive loop `_websocket_connection`: gevent concurrency; only the registry operations it calls are modelled.
- ALLOWED_MEDIA: imported from twidder/__init__.py, which does not define it; it is a parameter.
- Dictionary and `Object.keys` iteration orders are parameters (`order`, `props`).
- The `except A, B` clause of `User.post_message` catches only the first type; a database insert failure is not modelled, and posting succeeds once the media name is allowed.
- `setRequestHeader` rejecting values that are not byte strings is not modelled.
- TwidderServer.CreateUserToRegister: takes the registration fields as strings. A JSON value that is not a string (null, a number, a boolean) is escaped as its Python text, for example "None", which passes the all-fields check; such values are not modelled.
- Client.Session.SignOut: the browser-side socket teardown after `close()` is asynchronous and not modelled; the channel only records close requests.
- Client.Session.CreateChannel: a second sign-in drops the previous channel without closing it; the model records this but not the orphaned socket's later events.
- Whether a browser accepts the function source text as a WebSocket URL is not modelled; the URL is recorded as built.
- Common.PasswordLengthRule: counts UTF-16 units as JavaScript does; Python's `len` (TwidderServer.IsPasswordValid) counts code points.
- The File object the client passes to the legacy `postMessage` is modelled only through its string form, "[object File]".
