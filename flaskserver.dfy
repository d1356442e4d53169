/** The request wrapper, the push channel and the endpoint catalog of
    twidder/static/js/flaskserver.js. */
module FlaskServer {
  import opened JsValues
  import opened Browser
  import BasicAuth
  import Base64

  /** A callback as the client stores it: the shared no-op function
      `noCallback`, or a function the caller supplied (a label of type C). */
  datatype Callback<C> = NoOp | Call(c: C)

  /** What one `onreadystatechange` event does: nothing, throw out of the
      handler (JSON.parse failed), or invoke one callback with the response. */
  datatype Dispatch<C> = Ignored | Threw | Invoked(callback: Callback<C>, succeeded: bool, response: Value)

  /** `isStatusValid`: 2xx and 3xx statuses select the success callback. */
  predicate IsStatusValid(status: int) {
    status >= 200 && status < 400
  }

  /** The body `xhr.send(content || "")` hands over. */
  function SentBody(content: Option<Body>): (b: Body)
    ensures content.Some? && BodyTruthy(content.value) ==> b == content.value
    ensures !(content.Some? && BodyTruthy(content.value)) ==> b == Text("")
  {
    if content.Some? && BodyTruthy(content.value) then content.value else Text("")
  }

  /** The header `appendHmac` adds for the session token: only when the
      token is truthy, with the token's string form as value. */
  function TokenHeader(token: Value): (h: seq<(string, string)>)
    ensures |h| <= 1
    ensures h != [] <==> Truthy(token)
    ensures h != [] ==> h[0] == ("X-Session-Token", ToJsString(token))
  {
    if Truthy(token) then [("X-Session-Token", ToJsString(token))] else []
  }

  /** A request wrapper around one XMLHttpRequest. The callbacks and the
      text mode are read when the response arrives, so whatever was
      registered last before that moment is what runs. */
  class XhrSender<C> {
    const xhr: Xhr
    const content: Option<Body>
    const sessionToken: Value
    var onSuccessCallback: Callback<C>
    var onErrorCallback: Callback<C>
    var isText: bool
    /** Whether `send` has installed the `onreadystatechange` handler. */
    var listening: bool

    constructor (xhr: Xhr, content: Option<Body>, sessionToken: Value)
      ensures this.xhr == xhr && this.content == content && this.sessionToken == sessionToken
      ensures onSuccessCallback == NoOp && onErrorCallback == NoOp
      ensures !isText && !listening
    {
      this.xhr, this.content, this.sessionToken := xhr, content, sessionToken;
      onSuccessCallback, onErrorCallback := NoOp, NoOp;
      isText, listening := false, false;
    }

    /** `onSuccess(callback)`: a falsy argument (None) keeps the previous
        callback; returns the same object for chaining. */
    method OnSuccess(callback: Option<Callback<C>>) returns (self: XhrSender<C>)
      modifies this
      ensures self == this
      ensures onSuccessCallback == (if callback.Some? then callback.value else old(onSuccessCallback))
      ensures onErrorCallback == old(onErrorCallback) && isText == old(isText) && listening == old(listening)
    {
      if callback.Some? {
        onSuccessCallback := callback.value;
      }
      self := this;
    }

    /** `onError(callback)`: as OnSuccess, for the error callback. */
    method OnError(callback: Option<Callback<C>>) returns (self: XhrSender<C>)
      modifies this
      ensures self == this
      ensures onErrorCallback == (if callback.Some? then callback.value else old(onErrorCallback))
      ensures onSuccessCallback == old(onSuccessCallback) && isText == old(isText) && listening == old(listening)
    {
      if callback.Some? {
        onErrorCallback := callback.value;
      }
      self := this;
    }

    /** `asText()`: hand the raw response text to the callbacks. */
    method AsText() returns (self: XhrSender<C>)
      modifies this
      ensures self == this && isText
      ensures onSuccessCallback == old(onSuccessCallback) && onErrorCallback == old(onErrorCallback)
      ensures listening == old(listening)
    {
      isText := true;
      self := this;
    }

    /** `send()`: sets the request headers, installs the ready-state
        handler and sends. There is no guard of its own, but the request
        object refuses a second round: once sent, the first
        `setRequestHeader` throws InvalidStateError (`ok` false) before the
        handler is reinstalled, and nothing more is set or sent. (The HMAC
        and timestamp headers, set first, are not part of this model.) */
    method Send() returns (ok: bool)
      modifies this, xhr
      ensures ok <==> old(xhr.configurable)
      ensures ok ==> listening && !xhr.configurable
      ensures ok ==> xhr.headers == old(xhr.headers) + TokenHeader(sessionToken)
      ensures ok ==> xhr.sent == old(xhr.sent) + [SentBody(content)]
      ensures !ok ==> listening == old(listening) && xhr.headers == old(xhr.headers) && xhr.sent == old(xhr.sent)
      ensures xhr.verb == old(xhr.verb) && xhr.url == old(xhr.url)
      ensures onSuccessCallback == old(onSuccessCallback) && onErrorCallback == old(onErrorCallback)
      ensures isText == old(isText)
    {
      if !xhr.configurable {
        return false;
      }
      if Truthy(sessionToken) {
        var _ := xhr.SetRequestHeader("X-Session-Token", ToJsString(sessionToken));
      }
      listening := true;
      ok := xhr.Send(if content.Some? && BodyTruthy(content.value) then content.value else Text(""));
    }

    /** The installed handler, for an event reporting `readyState`, and, on
        DONE, the `status` and the response text. `parse` is JSON.parse
        (None: it throws, and the exception leaves the handler, so neither
        callback runs). */
    method ReadyStateChange(readyState: int, status: int, response: string, parse: string -> Option<Value>)
      returns (d: Dispatch<C>)
      ensures !listening || readyState != DONE ==> d == Ignored
      ensures listening && readyState == DONE && !isText && parse(response).None? ==> d == Threw
      ensures listening && readyState == DONE && (isText || parse(response).Some?) ==>
        && d.Invoked?
        && d.response == (if isText then Str(response) else parse(response).value)
        && (d.succeeded <==> IsStatusValid(status))
        && d.callback == (if IsStatusValid(status) then onSuccessCallback else onErrorCallback)
    {
      if !listening || readyState != DONE {
        return Ignored;
      }
      var body: Value;
      if isText {
        body := Str(response);
      } else {
        var parsed := parse(response);
        if parsed.None? {
          return Threw;
        }
        body := parsed.value;
      }
      if IsStatusValid(status) {
        d := Invoked(onSuccessCallback, true, body);
      } else {
        d := Invoked(onErrorCallback, false, body);
      }
    }
  }

  /** The third argument of `WebsocketChannel`: absent, a string, or (as
      client.js passes it) a function, whose string form is its source
      text. */
  datatype EndpointArg = NoEndpoint | EndpointText(text: string) | FunctionArg(source: string)

  /** `(endpoint || ("ws://" + location.host)) + "/messages"`. */
  function ChannelUrl(endpoint: EndpointArg, loc: Location): (url: string)
    ensures endpoint.NoEndpoint? || endpoint == EndpointText("") ==> url == "ws://" + loc.host + "/messages"
    ensures endpoint.FunctionArg? ==> url == endpoint.source + "/messages"
  {
    match endpoint
    case NoEndpoint => "ws://" + loc.host + "/messages"
    case EndpointText(t) => (if t != "" then t else "ws://" + loc.host) + "/messages"
    case FunctionArg(src) => src + "/messages"
  }

  /** The object `JSON.stringify` writes for the authentication frame;
      a property whose value is `undefined` is dropped. */
  function AuthenticateFrame(token: Value): (frame: Value)
    ensures Get(frame, "type") == Some(Str("authenticate"))
    ensures Get(frame, "data") == Some(token)
  {
    if token == Undefined then Obj([("type", Str("authenticate"))])
    else
      var props := [("type", Str("authenticate")), ("data", token)];
      assert props[..1] == [("type", Str("authenticate"))];
      assert "data"[0] != "type"[0];
      assert Lookup(props, "type") == Lookup(props[..1], "type") == Str("authenticate");
      Obj(props)
  }

  /** The push channel: a WebSocket that authenticates on open and reports
      its closing. It installs no message handler, so frames the server
      pushes are dropped. */
  class WebsocketChannel<C> {
    const socket: WebSocket
    const sessionToken: Value
    const onCloseCallback: Callback<C>

    constructor (sessionToken: Value, onClose: Option<Callback<C>>, endpoint: EndpointArg, loc: Location)
      ensures fresh(socket)
      ensures socket.url == ChannelUrl(endpoint, loc) && socket.protocols == []
      ensures socket.frames == [] && socket.closeRequests == 0
      ensures this.sessionToken == sessionToken
      ensures onCloseCallback == (if onClose.Some? then onClose.value else NoOp)
    {
      this.sessionToken := sessionToken;
      onCloseCallback := if onClose.Some? then onClose.value else NoOp;
      socket := new WebSocket(ChannelUrl(endpoint, loc), []);
    }

    /** `socket.onopen`: exactly one frame, the authentication frame. */
    method OnOpen()
      modifies socket
      ensures socket.frames == old(socket.frames) + [AuthenticateFrame(sessionToken)]
      ensures socket.closeRequests == old(socket.closeRequests)
    {
      socket.Send(AuthenticateFrame(sessionToken));
    }

    /** `socket.onclose`: every close event runs the close callback. */
    method OnClose() returns (invoked: Callback<C>)
      ensures invoked == onCloseCallback
    {
      invoked := onCloseCallback;
    }

    method Close()
      modifies socket
      ensures socket.closeRequests == old(socket.closeRequests) + 1
      ensures socket.frames == old(socket.frames)
    {
      socket.Close();
    }
  }

  /** The calls the endpoint catalog offers. Tokens are whatever value
      the caller holds; e-mail addresses used in paths are coerced with
      `String`. */
  datatype Op =
    | SignIn(email: string, password: string)
    | SignOut(token: Value)
    | SignUp(data: Value)
    | GetUserMessagesByToken(token: Value)
    | GetUserMessagesByEmail(token: Value, owner: Value)
    | PostMessage(token: Value, message: string, media: Option<string>, toEmail: Value)
    | GetUserDataByToken(token: Value)
    | GetUserDataByEmail(token: Value, owner: Value)
    | ChangePassword(token: Value, oldPassword: string, newPassword: string)
  {
    /** The calls that do not act on behalf of a session. */
    predicate Anonymous() {
      SignIn? || SignUp?
    }
  }

  /** An opened, unsent request: how the XMLHttpRequest was opened, the
      headers set so far, and what its wrapper was given. */
  datatype Prepared = Prepared(verb: string, url: string, headers: seq<(string, string)>, content: Option<Body>, token: Value)

  /** `FormData` with "message" and "media"; a missing file is appended as
      the text "undefined". */
  function MessageForm(message: string, media: Option<string>): Body {
    Form([("message", FormText(message)),
          ("media", if media.Some? then FormFile(media.value) else FormText("undefined"))])
  }

  /** What each catalog method builds; None when `btoa` throws. */
  function Request(endpoint: string, op: Op): (r: Option<Prepared>)
  {
    match op
    case SignIn(email, password) =>
      (match BasicAuth.Authorization(email, password)
       case None => None
       case Some(auth) => Some(Prepared("POST", endpoint + "/login", [("Authorization", auth)], None, Undefined)))
    case SignOut(token) =>
      Some(Prepared("POST", endpoint + "/logout", [], Some(Text("")), token))
    case SignUp(data) =>
      Some(Prepared("POST", endpoint + "/register", [("Content-Type", "application/json")], Some(JsonText(data)), Undefined))
    case GetUserMessagesByToken(token) =>
      Some(Prepared("GET", endpoint + "/messages", [], Some(Text("")), token))
    case GetUserMessagesByEmail(token, email) =>
      Some(Prepared("GET", endpoint + "/messages/" + ToJsString(email), [], Some(Text("")), token))
    case PostMessage(token, message, media, toEmail) =>
      Some(Prepared("POST", endpoint + "/messages/" + ToJsString(toEmail), [], Some(MessageForm(message, media)), token))
    case GetUserDataByToken(token) =>
      Some(Prepared("GET", endpoint + "/profile", [], Some(Text("")), token))
    case GetUserDataByEmail(token, email) =>
      Some(Prepared("GET", endpoint + "/profile/" + ToJsString(email), [], Some(Text("")), token))
    case ChangePassword(token, oldPassword, newPassword) =>
      Some(Prepared("PUT", endpoint + "/changePassword", [("Content-Type", "application/json")],
                    Some(JsonText(Obj([("oldPassword", Str(oldPassword)), ("newPassword", Str(newPassword))]))), token))
  }

  /** The headers that reach the wire once the request is sent. */
  function WireHeaders(p: Prepared): seq<(string, string)> {
    p.headers + TokenHeader(p.token)
  }

  /** `signIn` sends `Authorization: Basic base64(email ":" password)`
      (section 2 of RFC 7617) to POST /login, and nothing else; the server
      reads back exactly these credentials unless the e-mail address holds
      a colon. It fails only when `btoa` throws. */
  lemma {:induction false} SignInRequest(endpoint: string, email: string, password: string)
    ensures Request(endpoint, SignIn(email, password)).Some? <==> Base64.Latin1(email + ":" + password)
    ensures Request(endpoint, SignIn(email, password)).Some? ==>
      var p := Request(endpoint, SignIn(email, password)).value;
      && p.verb == "POST" && p.url == endpoint + "/login"
      && |WireHeaders(p)| == 1 && WireHeaders(p)[0].0 == "Authorization"
      && (BasicAuth.Credentials(WireHeaders(p)[0].1) == Some((email, password)) <==> ':' !in email)
  {
    if Base64.Latin1(email + ":" + password) {
      BasicAuth.CredentialsRoundTrip(email, password);
      var p := Request(endpoint, SignIn(email, password)).value;
      assert WireHeaders(p) == p.headers;
    }
  }

  /** Every call but sign-in and sign-up is built, carries the caller's
      token, and puts the X-Session-Token header on the wire exactly when
      that token is truthy; sign-in and sign-up never send one. */
  lemma SessionTokenOnTheWire(endpoint: string, op: Op)
    requires Request(endpoint, op).Some?
    ensures !op.Anonymous() ==> Request(endpoint, op).value.token == op.token
    ensures var p := Request(endpoint, op).value;
      (exists i :: 0 <= i < |WireHeaders(p)| && WireHeaders(p)[i].0 == "X-Session-Token")
      <==> !op.Anonymous() && Truthy(op.token)
  {
    var p := Request(endpoint, op).value;
    assert forall i :: 0 <= i < |p.headers| ==> p.headers[i].0 != "X-Session-Token";
    if !op.Anonymous() && Truthy(op.token) {
      assert WireHeaders(p)[|p.headers|].0 == "X-Session-Token";
    }
  }

  /** GET requests carry no body; a Content-Type header is set exactly for
      the calls whose body is JSON text, and every URL extends the
      endpoint with a path. */
  lemma {:induction false} RequestShape(endpoint: string, op: Op)
    requires Request(endpoint, op).Some?
    ensures var p := Request(endpoint, op).value;
      && (p.verb == "GET" ==> SentBody(p.content) == Text(""))
      && ((exists i :: 0 <= i < |p.headers| && p.headers[i] == ("Content-Type", "application/json"))
          <==> p.content.Some? && p.content.value.JsonText?)
      && |p.url| > |endpoint| + 1 && p.url[..|endpoint| + 1] == endpoint + "/"
  {
    var p := Request(endpoint, op).value;
    if op.SignIn? {
      assert p.headers[0].0 == "Authorization";
    }
    if op.SignUp? || op.ChangePassword? {
      assert p.headers[0] == ("Content-Type", "application/json");
    }
    match op
    case SignIn(_, _) =>
      PathPrefix(endpoint, "login");
    case SignOut(_) =>
      PathPrefix(endpoint, "logout");
    case SignUp(_) =>
      PathPrefix(endpoint, "register");
    case GetUserMessagesByToken(_) =>
      PathPrefix(endpoint, "messages");
    case GetUserMessagesByEmail(_, e) =>
      PathPrefix(endpoint, "messages/" + ToJsString(e));
    case PostMessage(_, _, _, e) =>
      PathPrefix(endpoint, "messages/" + ToJsString(e));
    case GetUserDataByToken(_) =>
      PathPrefix(endpoint, "profile");
    case GetUserDataByEmail(_, e) =>
      PathPrefix(endpoint, "profile/" + ToJsString(e));
    case ChangePassword(_, _, _) =>
      PathPrefix(endpoint, "changePassword");
  }

  lemma PathPrefix(endpoint: string, path: string)
    requires path != ""
    ensures endpoint + "/" + path == endpoint + ("/" + path)
    ensures |endpoint + "/" + path| > |endpoint| + 1
    ensures (endpoint + "/" + path)[..|endpoint| + 1] == endpoint + "/"
  {
  }

  /** What a sender looks like as a prepared request. */
  ghost function Shape<C>(s: XhrSender<C>): Prepared
    reads s, s.xhr
  {
    Prepared(s.xhr.verb, s.xhr.url, s.xhr.headers, s.content, s.sessionToken)
  }

  /** A sender as a catalog method returns it: fresh, nothing registered,
      not sent. */
  ghost predicate Unsent<C>(s: XhrSender<C>)
    reads s, s.xhr
  {
    s.onSuccessCallback == NoOp && s.onErrorCallback == NoOp && !s.isText && !s.listening && s.xhr.sent == [] && s.xhr.configurable
  }

  /** The endpoint catalog. */
  class Server {
    const endpoint: string

    /** `endpoint || (location.protocol + "//" + location.host + "/api")`. */
    constructor (endpoint: Option<string>, loc: Location)
      ensures this.endpoint ==
        if endpoint.Some? && endpoint.value != "" then endpoint.value
        else loc.protocol + "//" + loc.host + "/api"
    {
      this.endpoint := if endpoint.Some? && endpoint.value != "" then endpoint.value
                       else loc.protocol + "//" + loc.host + "/api";
    }

    method SignIn<C>(email: string, password: string) returns (r: Option<XhrSender<C>>)
      ensures r.Some? <==> Request(endpoint, Op.SignIn(email, password)).Some?
      ensures r.Some? ==> fresh(r.value) && fresh(r.value.xhr) && Unsent(r.value)
      ensures r.Some? ==> Shape(r.value) == Request(endpoint, Op.SignIn(email, password)).value
    {
      var xhr := new Xhr();
      xhr.Open("POST", endpoint + "/login");
      var auth := BasicAuth.Authorization(email, password);
      if auth.None? {
        return None;
      }
      var _ := xhr.SetRequestHeader("Authorization", auth.value);
      var s := new XhrSender(xhr, None, Undefined);
      r := Some(s);
    }

    method SignOut<C>(token: Value) returns (r: XhrSender<C>)
      ensures fresh(r) && fresh(r.xhr) && Unsent(r)
      ensures Shape(r) == Request(endpoint, Op.SignOut(token)).value
    {
      var xhr := new Xhr();
      xhr.Open("POST", endpoint + "/logout");
      r := new XhrSender(xhr, Some(Text("")), token);
    }

    method SignUp<C>(data: Value) returns (r: XhrSender<C>)
      ensures fresh(r) && fresh(r.xhr) && Unsent(r)
      ensures Shape(r) == Request(endpoint, Op.SignUp(data)).value
    {
      var xhr := new Xhr();
      xhr.Open("POST", endpoint + "/register");
      var _ := xhr.SetRequestHeader("Content-Type", "application/json");
      r := new XhrSender(xhr, Some(JsonText(data)), Undefined);
    }

    method GetUserMessagesByToken<C>(token: Value) returns (r: XhrSender<C>)
      ensures fresh(r) && fresh(r.xhr) && Unsent(r)
      ensures Shape(r) == Request(endpoint, Op.GetUserMessagesByToken(token)).value
    {
      var xhr := new Xhr();
      xhr.Open("GET", endpoint + "/messages");
      r := new XhrSender(xhr, Some(Text("")), token);
    }

    method GetUserMessagesByEmail<C>(token: Value, email: Value) returns (r: XhrSender<C>)
      ensures fresh(r) && fresh(r.xhr) && Unsent(r)
      ensures Shape(r) == Request(endpoint, Op.GetUserMessagesByEmail(token, email)).value
    {
      var xhr := new Xhr();
      xhr.Open("GET", endpoint + "/messages/" + ToJsString(email));
      r := new XhrSender(xhr, Some(Text("")), token);
    }

    method PostMessage<C>(token: Value, message: string, media: Option<string>, toEmail: Value) returns (r: XhrSender<C>)
      ensures fresh(r) && fresh(r.xhr) && Unsent(r)
      ensures Shape(r) == Request(endpoint, Op.PostMessage(token, message, media, toEmail)).value
    {
      var xhr := new Xhr();
      xhr.Open("POST", endpoint + "/messages/" + ToJsString(toEmail));
      r := new XhrSender(xhr, Some(MessageForm(message, media)), token);
    }

    method GetUserDataByToken<C>(token: Value) returns (r: XhrSender<C>)
      ensures fresh(r) && fresh(r.xhr) && Unsent(r)
      ensures Shape(r) == Request(endpoint, Op.GetUserDataByToken(token)).value
    {
      var xhr := new Xhr();
      xhr.Open("GET", endpoint + "/profile");
      r := new XhrSender(xhr, Some(Text("")), token);
    }

    method GetUserDataByEmail<C>(token: Value, email: Value) returns (r: XhrSender<C>)
      ensures fresh(r) && fresh(r.xhr) && Unsent(r)
      ensures Shape(r) == Request(endpoint, Op.GetUserDataByEmail(token, email)).value
    {
      var xhr := new Xhr();
      xhr.Open("GET", endpoint + "/profile/" + ToJsString(email));
      r := new XhrSender(xhr, Some(Text("")), token);
    }

    method ChangePassword<C>(token: Value, oldPassword: string, newPassword: string) returns (r: XhrSender<C>)
      ensures fresh(r) && fresh(r.xhr) && Unsent(r)
      ensures Shape(r) == Request(endpoint, Op.ChangePassword(token, oldPassword, newPassword)).value
    {
      var xhr := new Xhr();
      xhr.Open("PUT", endpoint + "/changePassword");
      var _ := xhr.SetRequestHeader("Content-Type", "application/json");
      var data := Obj([("oldPassword", Str(oldPassword)), ("newPassword", Str(newPassword))]);
      r := new XhrSender(xhr, Some(JsonText(data)), token);
    }
  }
}
