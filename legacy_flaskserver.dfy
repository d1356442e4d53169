/** The earlier request wrapper and endpoint catalog of
    twidder/static/flaskserver.js: responses are always parsed as JSON,
    the session token is set as a header by every authenticated call
    (whatever its value), messages are posted as JSON, and the default
    endpoint has no "/api" prefix. */
module LegacyFlaskServer {
  import opened JsValues
  import opened Browser
  import opened FlaskServer
  import BasicAuth

  /** The request wrapper: no text mode and no session token of its own. */
  class LegacySender<C> {
    const xhr: Xhr
    const content: Option<Body>
    var onSuccessCallback: Callback<C>
    var onErrorCallback: Callback<C>
    var listening: bool

    constructor (xhr: Xhr, content: Option<Body>)
      ensures this.xhr == xhr && this.content == content
      ensures onSuccessCallback == NoOp && onErrorCallback == NoOp && !listening
    {
      this.xhr, this.content := xhr, content;
      onSuccessCallback, onErrorCallback := NoOp, NoOp;
      listening := false;
    }

    method OnSuccess(callback: Option<Callback<C>>) returns (self: LegacySender<C>)
      modifies this
      ensures self == this
      ensures onSuccessCallback == (if callback.Some? then callback.value else old(onSuccessCallback))
      ensures onErrorCallback == old(onErrorCallback) && listening == old(listening)
    {
      if callback.Some? {
        onSuccessCallback := callback.value;
      }
      self := this;
    }

    method OnError(callback: Option<Callback<C>>) returns (self: LegacySender<C>)
      modifies this
      ensures self == this
      ensures onErrorCallback == (if callback.Some? then callback.value else old(onErrorCallback))
      ensures onSuccessCallback == old(onSuccessCallback) && listening == old(listening)
    {
      if callback.Some? {
        onErrorCallback := callback.value;
      }
      self := this;
    }

    /** `send()`: installs the handler and sends `content || ""`; headers
        are left as the catalog set them. A second call reinstalls the
        same handler, and `xhr.send` throws InvalidStateError (`ok`
        false): nothing more is sent. */
    method Send() returns (ok: bool)
      modifies this, xhr
      ensures ok <==> old(xhr.configurable)
      ensures listening && !xhr.configurable
      ensures xhr.sent == if ok then old(xhr.sent) + [SentBody(content)] else old(xhr.sent)
      ensures xhr.headers == old(xhr.headers) && xhr.verb == old(xhr.verb) && xhr.url == old(xhr.url)
      ensures onSuccessCallback == old(onSuccessCallback) && onErrorCallback == old(onErrorCallback)
    {
      listening := true;
      ok := xhr.Send(if content.Some? && BodyTruthy(content.value) then content.value else Text(""));
    }

    /** The handler: on DONE the response is always given to JSON.parse,
        so a non-JSON response throws before either callback runs. */
    method ReadyStateChange(readyState: int, status: int, response: string, parse: string -> Option<Value>)
      returns (d: Dispatch<C>)
      ensures !listening || readyState != DONE ==> d == Ignored
      ensures listening && readyState == DONE && parse(response).None? ==> d == Threw
      ensures listening && readyState == DONE && parse(response).Some? ==>
        && d.Invoked?
        && d.response == parse(response).value
        && (d.succeeded <==> IsStatusValid(status))
        && d.callback == (if IsStatusValid(status) then onSuccessCallback else onErrorCallback)
    {
      if !listening || readyState != DONE {
        return Ignored;
      }
      var parsed := parse(response);
      if parsed.None? {
        return Threw;
      }
      if IsStatusValid(status) {
        d := Invoked(onSuccessCallback, true, parsed.value);
      } else {
        d := Invoked(onErrorCallback, false, parsed.value);
      }
    }
  }

  /** The push channel, which asks for the sub-protocol "protocolOne". */
  class LegacyChannel<C> {
    const socket: WebSocket
    const sessionToken: Value
    const onCloseCallback: Callback<C>

    constructor (sessionToken: Value, onClose: Option<Callback<C>>, endpoint: EndpointArg, loc: Location)
      ensures fresh(socket)
      ensures socket.url == ChannelUrl(endpoint, loc) && socket.protocols == ["protocolOne"]
      ensures socket.frames == [] && socket.closeRequests == 0
      ensures this.sessionToken == sessionToken
      ensures onCloseCallback == (if onClose.Some? then onClose.value else NoOp)
    {
      this.sessionToken := sessionToken;
      onCloseCallback := if onClose.Some? then onClose.value else NoOp;
      socket := new WebSocket(ChannelUrl(endpoint, loc), ["protocolOne"]);
    }

    method OnOpen()
      modifies socket
      ensures socket.frames == old(socket.frames) + [AuthenticateFrame(sessionToken)]
      ensures socket.closeRequests == old(socket.closeRequests)
    {
      socket.Send(AuthenticateFrame(sessionToken));
    }

    method OnClose() returns (invoked: Callback<C>)
      ensures invoked == onCloseCallback
    {
      invoked := onCloseCallback;
    }

    method Close()
      modifies socket
      ensures socket.closeRequests == old(socket.closeRequests) + 1
      ensures socket.frames == old(socket.frames)
    {
      socket.Close();
    }
  }

  /** `setRequestHeader("X-Session-Token", token)`: the header value is
      `String(token)`, so an absent token is sent as "undefined". */
  function LegacyTokenHeader(token: Value): (h: (string, string))
    ensures h.0 == "X-Session-Token"
    ensures token == Undefined ==> h.1 == "undefined"
    ensures token.Str? ==> h.1 == token.s
  {
    ("X-Session-Token", ToJsString(token))
  }

  const JsonContentType: (string, string) := ("Content-Type", "application/json")

  /** The legacy `postMessage(token, content, toEmail)`, by its own three
      parameters; `toEmail` is the string form of the third argument. */
  function LegacyPost(endpoint: string, token: Value, content: string, toEmail: string): (p: Prepared)
    ensures p.verb == "POST" && p.url == endpoint + "/messages/" + toEmail
    ensures p.headers == [LegacyTokenHeader(token), JsonContentType]
    ensures p.content.Some? && p.content.value.JsonText?
    ensures Get(p.content.value.json, "message") == Some(Str(content))
  {
    Prepared("POST", endpoint + "/messages/" + toEmail, [LegacyTokenHeader(token), JsonContentType],
             Some(JsonText(Obj([("message", Str(content))]))), Undefined)
  }

  /** `String(media.files[0])` for the media argument the client passes:
      `undefined` when no file was chosen, a File object otherwise. */
  function MediaArgumentText(media: Option<string>): (t: string)
    ensures media.None? <==> t == "undefined"
  {
    match media
    case None => "undefined"
    case Some(_) => "[object File]"
  }

  /** What each legacy catalog method builds when the client calls it as it
      calls the current catalog; None when `btoa` throws. The client passes
      `(token, message, media, toEmail)` to a `postMessage` of three
      parameters, so the media argument lands in `toEmail` and the
      recipient is dropped. All headers are set by the catalog (token
      Undefined). */
  function LegacyRequest(endpoint: string, op: Op): (r: Option<Prepared>)
  {
    match op
    case SignIn(email, password) =>
      (match BasicAuth.Authorization(email, password)
       case None => None
       case Some(auth) => Some(Prepared("POST", endpoint + "/login", [("Authorization", auth)], None, Undefined)))
    case SignOut(token) =>
      Some(Prepared("POST", endpoint + "/logout", [LegacyTokenHeader(token)], None, Undefined))
    case SignUp(data) =>
      Some(Prepared("POST", endpoint + "/register", [JsonContentType], Some(JsonText(data)), Undefined))
    case GetUserMessagesByToken(token) =>
      Some(Prepared("GET", endpoint + "/messages", [LegacyTokenHeader(token)], None, Undefined))
    case GetUserMessagesByEmail(token, email) =>
      Some(Prepared("GET", endpoint + "/messages/" + ToJsString(email), [LegacyTokenHeader(token)], None, Undefined))
    case PostMessage(token, message, media, _) =>
      Some(LegacyPost(endpoint, token, message, MediaArgumentText(media)))
    case GetUserDataByToken(token) =>
      Some(Prepared("GET", endpoint + "/profile", [LegacyTokenHeader(token)], None, Undefined))
    case GetUserDataByEmail(token, email) =>
      Some(Prepared("GET", endpoint + "/profile/" + ToJsString(email), [LegacyTokenHeader(token)], None, Undefined))
    case ChangePassword(token, oldPassword, newPassword) =>
      Some(Prepared("PUT", endpoint + "/changePassword", [LegacyTokenHeader(token), JsonContentType],
                    Some(JsonText(Obj([("oldPassword", Str(oldPassword)), ("newPassword", Str(newPassword))]))), Undefined))
  }

  /** Both catalogs build the same call on the wire — method, URL, body
      sent and headers (up to order) — for every operation except posting
      a message, as long as the token is truthy; with a falsy token the
      legacy catalog still sends the header and the current one does not. */
  lemma {:induction false} CatalogsAgree(endpoint: string, op: Op)
    requires !op.PostMessage?
    ensures LegacyRequest(endpoint, op).Some? <==> Request(endpoint, op).Some?
    ensures LegacyRequest(endpoint, op).Some? ==>
      var l, c := LegacyRequest(endpoint, op).value, Request(endpoint, op).value;
      && l.verb == c.verb && l.url == c.url
      && SentBody(l.content) == SentBody(c.content)
      && (op.Anonymous() || Truthy(op.token) ==> multiset(l.headers) == multiset(WireHeaders(c)))
      && (!op.Anonymous() && !Truthy(op.token) ==>
            LegacyTokenHeader(op.token) in l.headers && |WireHeaders(c)| + 1 == |l.headers|)
  {
    if op.Anonymous() {
      AnonymousAgree(endpoint, op);
    } else if op.ChangePassword? {
      ChangePasswordAgrees(endpoint, op);
    } else {
      TokenOnlyAgree(endpoint, op);
    }
  }

  /** The conclusion of CatalogsAgree for one operation. */
  ghost predicate WireAgree(endpoint: string, op: Op) {
    && (LegacyRequest(endpoint, op).Some? <==> Request(endpoint, op).Some?)
    && (LegacyRequest(endpoint, op).Some? ==>
      var l, c := LegacyRequest(endpoint, op).value, Request(endpoint, op).value;
      && l.verb == c.verb && l.url == c.url
      && SentBody(l.content) == SentBody(c.content)
      && (op.Anonymous() || Truthy(op.token) ==> multiset(l.headers) == multiset(WireHeaders(c)))
      && (!op.Anonymous() && !Truthy(op.token) ==>
            LegacyTokenHeader(op.token) in l.headers && |WireHeaders(c)| + 1 == |l.headers|))
  }

  lemma AnonymousAgree(endpoint: string, op: Op)
    requires op.Anonymous()
    ensures WireAgree(endpoint, op)
  {
  }

  lemma ChangePasswordAgrees(endpoint: string, op: Op)
    requires op.ChangePassword?
    ensures WireAgree(endpoint, op)
  {
    HeadersAgree(op.token, [JsonContentType]);
  }

  lemma TokenOnlyAgree(endpoint: string, op: Op)
    requires op.SignOut? || op.GetUserMessagesByToken? || op.GetUserMessagesByEmail?
      || op.GetUserDataByToken? || op.GetUserDataByEmail?
    ensures WireAgree(endpoint, op)
  {
    HeadersAgree(op.token, []);
  }

  /** The legacy headers, token first, against the current ones, token last. */
  lemma HeadersAgree(token: Value, extra: seq<(string, string)>)
    ensures Truthy(token) ==> multiset([LegacyTokenHeader(token)] + extra) == multiset(extra + TokenHeader(token))
    ensures !Truthy(token) ==> extra + TokenHeader(token) == extra
  {
  }

  /** Called as the client calls it, the legacy catalog posts the JSON
      object {"message": text} to "/messages/undefined" when no file was
      chosen and to "/messages/[object File]" when one was: the recipient
      never reaches the request. */
  lemma LegacyPostsJson(endpoint: string, token: Value, message: string, media: Option<string>, toEmail: Value)
    ensures var l := LegacyRequest(endpoint, PostMessage(token, message, media, toEmail));
      && l.Some? && l.value.content.Some? && l.value.content.value.JsonText?
      && Get(l.value.content.value.json, "message") == Some(Str(message))
      && (media.None? ==> l.value.url == endpoint + "/messages/undefined")
      && (media.Some? ==> l.value.url == endpoint + "/messages/[object File]")
      && (forall other: Value :: l == LegacyRequest(endpoint, PostMessage(token, message, media, other)))
  {
  }

  /** For a message to a string recipient without a file, the current
      catalog posts to "/messages/<recipient>" and the legacy one to
      "/messages/undefined": the two URLs differ for every recipient other
      than the text "undefined". */
  lemma {:induction false} LegacyLosesRecipient(endpoint: string, token: Value, message: string, email: string)
    requires email != "undefined"
    ensures LegacyRequest(endpoint, PostMessage(token, message, None, Str(email))).value.url
         != Request(endpoint, PostMessage(token, message, None, Str(email))).value.url
  {
    var prefix := endpoint + "/messages/";
    var legacy := LegacyRequest(endpoint, PostMessage(token, message, None, Str(email))).value.url;
    var current := Request(endpoint, PostMessage(token, message, None, Str(email))).value.url;
    assert legacy[|prefix|..] == "undefined";
    assert current[|prefix|..] == email;
  }

  ghost function LegacyShape<C>(s: LegacySender<C>): Prepared
    reads s, s.xhr
  {
    Prepared(s.xhr.verb, s.xhr.url, s.xhr.headers, s.content, Undefined)
  }

  ghost predicate LegacyUnsent<C>(s: LegacySender<C>)
    reads s, s.xhr
  {
    s.onSuccessCallback == NoOp && s.onErrorCallback == NoOp && !s.listening && s.xhr.sent == [] && s.xhr.configurable
  }

  class LegacyServer {
    const endpoint: string

    /** `endpoint || (location.protocol + "//" + location.host)`. */
    constructor (endpoint: Option<string>, loc: Location)
      ensures this.endpoint ==
        if endpoint.Some? && endpoint.value != "" then endpoint.value
        else loc.protocol + "//" + loc.host
    {
      this.endpoint := if endpoint.Some? && endpoint.value != "" then endpoint.value
                       else loc.protocol + "//" + loc.host;
    }

    method SignIn<C>(email: string, password: string) returns (r: Option<LegacySender<C>>)
      ensures r.Some? <==> LegacyRequest(endpoint, Op.SignIn(email, password)).Some?
      ensures r.Some? ==> fresh(r.value) && fresh(r.value.xhr) && LegacyUnsent(r.value)
      ensures r.Some? ==> LegacyShape(r.value) == LegacyRequest(endpoint, Op.SignIn(email, password)).value
    {
      var xhr := new Xhr();
      xhr.Open("POST", endpoint + "/login");
      var auth := BasicAuth.Authorization(email, password);
      if auth.None? {
        return None;
      }
      var _ := xhr.SetRequestHeader("Authorization", auth.value);
      var s := new LegacySender(xhr, None);
      r := Some(s);
    }

    method SignOut<C>(token: Value) returns (r: LegacySender<C>)
      ensures fresh(r) && fresh(r.xhr) && LegacyUnsent(r)
      ensures LegacyShape(r) == LegacyRequest(endpoint, Op.SignOut(token)).value
    {
      var xhr := new Xhr();
      xhr.Open("POST", endpoint + "/logout");
      var _ := xhr.SetRequestHeader("X-Session-Token", ToJsString(token));
      r := new LegacySender(xhr, None);
    }

    method SignUp<C>(data: Value) returns (r: LegacySender<C>)
      ensures fresh(r) && fresh(r.xhr) && LegacyUnsent(r)
      ensures LegacyShape(r) == LegacyRequest(endpoint, Op.SignUp(data)).value
    {
      var xhr := new Xhr();
      xhr.Open("POST", endpoint + "/register");
      var _ := xhr.SetRequestHeader("Content-Type", "application/json");
      r := new LegacySender(xhr, Some(JsonText(data)));
    }

    method GetUserMessagesByToken<C>(token: Value) returns (r: LegacySender<C>)
      ensures fresh(r) && fresh(r.xhr) && LegacyUnsent(r)
      ensures LegacyShape(r) == LegacyRequest(endpoint, Op.GetUserMessagesByToken(token)).value
    {
      var xhr := new Xhr();
      xhr.Open("GET", endpoint + "/messages");
      var _ := xhr.SetRequestHeader("X-Session-Token", ToJsString(token));
      r := new LegacySender(xhr, None);
    }

    method GetUserMessagesByEmail<C>(token: Value, email: Value) returns (r: LegacySender<C>)
      ensures fresh(r) && fresh(r.xhr) && LegacyUnsent(r)
      ensures LegacyShape(r) == LegacyRequest(endpoint, Op.GetUserMessagesByEmail(token, email)).value
    {
      var xhr := new Xhr();
      xhr.Open("GET", endpoint + "/messages/" + ToJsString(email));
      var _ := xhr.SetRequestHeader("X-Session-Token", ToJsString(token));
      r := new LegacySender(xhr, None);
    }

    method PostMessage<C>(token: Value, message: string, toEmail: Value) returns (r: LegacySender<C>)
      ensures fresh(r) && fresh(r.xhr) && LegacyUnsent(r)
      ensures LegacyShape(r) == LegacyPost(endpoint, token, message, ToJsString(toEmail))
    {
      var xhr := new Xhr();
      xhr.Open("POST", endpoint + "/messages/" + ToJsString(toEmail));
      var _ := xhr.SetRequestHeader("X-Session-Token", ToJsString(token));
      var _ := xhr.SetRequestHeader("Content-Type", "application/json");
      r := new LegacySender(xhr, Some(JsonText(Obj([("message", Str(message))]))));
    }

    method GetUserDataByToken<C>(token: Value) returns (r: LegacySender<C>)
      ensures fresh(r) && fresh(r.xhr) && LegacyUnsent(r)
      ensures LegacyShape(r) == LegacyRequest(endpoint, Op.GetUserDataByToken(token)).value
    {
      var xhr := new Xhr();
      xhr.Open("GET", endpoint + "/profile");
      var _ := xhr.SetRequestHeader("X-Session-Token", ToJsString(token));
      r := new LegacySender(xhr, None);
    }

    method GetUserDataByEmail<C>(token: Value, email: Value) returns (r: LegacySender<C>)
      ensures fresh(r) && fresh(r.xhr) && LegacyUnsent(r)
      ensures LegacyShape(r) == LegacyRequest(endpoint, Op.GetUserDataByEmail(token, email)).value
    {
      var xhr := new Xhr();
      xhr.Open("GET", endpoint + "/profile/" + ToJsString(email));
      var _ := xhr.SetRequestHeader("X-Session-Token", ToJsString(token));
      r := new LegacySender(xhr, None);
    }

    method ChangePassword<C>(token: Value, oldPassword: string, newPassword: string) returns (r: LegacySender<C>)
      ensures fresh(r) && fresh(r.xhr) && LegacyUnsent(r)
      ensures LegacyShape(r) == LegacyRequest(endpoint, Op.ChangePassword(token, oldPassword, newPassword)).value
    {
      var xhr := new Xhr();
      xhr.Open("PUT", endpoint + "/changePassword");
      var _ := xhr.SetRequestHeader("X-Session-Token", ToJsString(token));
      var _ := xhr.SetRequestHeader("Content-Type", "application/json");
      var data := Obj([("oldPassword", Str(oldPassword)), ("newPassword", Str(newPassword))]);
      r := new LegacySender(xhr, Some(JsonText(data)));
    }
  }
}
