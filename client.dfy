/** The application logic of twidder/static/js/client.js: the media
    classification of `Wall.createPosts`, the password checks of the
    welcome view's forms, and the `Session` object, which keeps the
    session token (in memory and in localStorage) and the push channel,
    and chains requests on their outcomes. Responses arrive as events:
    the sender of a request dispatches to one of its callbacks (see
    FlaskServer.XhrSender.ReadyStateChange), and `Session.Resume` runs
    the callback the session had registered. */
module Client {
  import opened JsValues
  import opened Browser
  import opened FlaskServer
  import Common

  // ---------------------------------------------------------------------
  // Wall.createPosts

  /** A post's `format`: a string, or the inherited `Object.prototype`
      member an object-literal lookup found. */
  datatype Format = FormatText(text: string) | FormatMember(member: string)

  /** The fields `createPosts` writes on a post; None where the post has no
      such property. */
  datatype PostFields = PostFields(format: Option<Format>, video: Option<string>, audio: Option<string>, image: Option<string>)

  const VideoFormats: map<string, string> := map["mp4" := "mp4"]
  const AudioFormats: map<string, string> := map["mp3" := "mpeg", "wav" := "wav"]
  const ImageFormats: seq<string> := ["jpg", "png"]

  /** `media.substr(media.lastIndexOf(".") + 1)`: the text after the last
      ".", or the whole name when there is none. */
  function Extension(media: string): (ext: string)
    ensures '.' !in ext && |ext| <= |media|
    ensures '.' !in media ==> ext == media
    ensures '.' in media ==> |ext| < |media| && media == media[..|media| - |ext| - 1] + "." + ext
  {
    match LastIndexOf(media, '.')
    case None => media
    case Some(i) => media[i + 1..]
  }

  /** The format a truthy literal read gives. */
  function FormatOf(r: LiteralRead): (f: Format)
    requires ReadTruthy(r)
    ensures r.Own? ==> f == FormatText(r.text)
    ensures r.Inherited? ==> f == FormatMember(r.member)
  {
    match r
    case Own(t) => FormatText(t)
    case Inherited(m) => FormatMember(m)
  }

  /** What the `map` callback of `createPosts` makes of a post with media
      `media` whose fields were `before`. */
  function Classified(media: Option<string>, before: PostFields): (after: PostFields)
    ensures media.None? || media.value == "" ==> after == before
    ensures media.Some? && media.value != "" ==> after.format.Some?
    ensures after.video == before.video || (after.audio == before.audio && after.image == before.image)
    ensures after.audio == before.audio || after.image == before.image
    ensures after.video != before.video ==> after.video == media
    ensures after.audio != before.audio ==> after.audio == media
    ensures after.image != before.image ==> after.image == media
  {
    if media.None? || media.value == "" then before
    else
      var ext := Extension(media.value);
      var video := ReadLiteral(VideoFormats, ext);
      var audio := ReadLiteral(AudioFormats, ext);
      if ReadTruthy(video) then before.(format := Some(FormatOf(video)), video := media)
      else if ReadTruthy(audio) then before.(format := Some(FormatOf(audio)), audio := media)
      else if ext in ImageFormats then before.(format := Some(FormatText(ext)), image := media)
      else before.(format := Some(FormatText(ext)))
  }

  /** The classification rules for the known extensions. */
  lemma ClassifyKnown(media: string, before: PostFields)
    requires media != ""
    ensures var ext := Extension(media); var after := Classified(Some(media), before);
      && (ext == "mp4" ==> after == before.(format := Some(FormatText("mp4")), video := Some(media)))
      && (ext == "mp3" ==> after == before.(format := Some(FormatText("mpeg")), audio := Some(media)))
      && (ext == "wav" ==> after == before.(format := Some(FormatText("wav")), audio := Some(media)))
      && (ext == "jpg" || ext == "png" ==> after == before.(format := Some(FormatText(ext)), image := Some(media)))
  {
    KnownReads();
  }

  /** What the three format tables give for the known extensions. */
  lemma KnownReads()
    ensures ReadLiteral(VideoFormats, "mp4") == Own("mp4")
    ensures ReadLiteral(VideoFormats, "mp3") == Missing && ReadLiteral(AudioFormats, "mp3") == Own("mpeg")
    ensures ReadLiteral(VideoFormats, "wav") == Missing && ReadLiteral(AudioFormats, "wav") == Own("wav")
    ensures ReadLiteral(VideoFormats, "jpg") == Missing && ReadLiteral(AudioFormats, "jpg") == Missing
    ensures ReadLiteral(VideoFormats, "png") == Missing && ReadLiteral(AudioFormats, "png") == Missing
    ensures "jpg" in ImageFormats && "png" in ImageFormats
  {
    ShortKeyNotInherited("mp3");
    ShortKeyNotInherited("wav");
    ShortKeyNotInherited("jpg");
    ShortKeyNotInherited("png");
  }

  /** Any other extension sets only the format, except one that names an
      `Object.prototype` member ("toString", say): the video lookup finds
      that member, and the post is taken for a video. */
  lemma ClassifyOther(media: string, before: PostFields)
    requires media != ""
    ensures var ext := Extension(media); var after := Classified(Some(media), before);
      && (ext in ObjectPrototypeMembers ==> after == before.(format := Some(FormatMember(ext)), video := Some(media)))
      && (ext !in {"mp4", "mp3", "wav", "jpg", "png"} && ext !in ObjectPrototypeMembers ==>
            after == before.(format := Some(FormatText(ext))))
  {
    ShortKeyNotInherited("mp4");
    ShortKeyNotInherited("mp3");
    ShortKeyNotInherited("wav");
  }

  /** Classifying a post twice is classifying it once; a post listed twice
      in the array therefore ends as if it had been listed once. */
  lemma ClassifyIdempotent(media: Option<string>, before: PostFields)
    ensures Classified(media, Classified(media, before)) == Classified(media, before)
  {
  }

  /** A post as the client holds it, after JSON.parse: `media` is the
      stored media name (None for null). */
  class Post {
    const media: Option<string>
    var format: Option<Format>
    var video: Option<string>
    var audio: Option<string>
    var image: Option<string>

    constructor (media: Option<string>)
      ensures this.media == media && Fields() == PostFields(None, None, None, None)
    {
      this.media := media;
      format, video, audio, image := None, None, None, None;
    }

    function Fields(): PostFields
      reads this
    {
      PostFields(format, video, audio, image)
    }

    /** The body of the `map` callback, writing on the post itself. */
    method Classify()
      modifies this
      ensures Fields() == Classified(media, old(Fields()))
    {
      if media.Some? && media.value != "" {
        var ext := Extension(media.value);
        format := Some(FormatText(ext));
        var video := ReadLiteral(VideoFormats, ext);
        var audio := ReadLiteral(AudioFormats, ext);
        if ReadTruthy(video) {
          this.video := media;
          format := Some(FormatOf(video));
        } else if ReadTruthy(audio) {
          this.audio := media;
          format := Some(FormatOf(audio));
        } else if ext in ImageFormats {
          image := media;
        }
      }
    }
  }

  /** `createPosts(data)`: the same array of the same posts, each post
      classified once (a post listed several times is classified again,
      which changes nothing more). */
  method CreatePosts(data: seq<Post>) returns (r: seq<Post>)
    modifies set p | p in data
    ensures r == data
    ensures forall p :: p in data ==> p.Fields() == Classified(p.media, old(p.Fields()))
  {
    ghost var orig := map p | p in data :: p.Fields();
    ghost var done: set<Post> := {};
    var i := 0;
    while i < |data|
      invariant 0 <= i <= |data|
      invariant forall j :: 0 <= j < i ==> data[j] in done
      invariant forall p :: p in done ==> p in data
      invariant forall p :: p in done ==> p.Fields() == Classified(p.media, orig[p])
      invariant forall p :: p in data && p !in done ==> p.Fields() == orig[p]
    {
      var post := data[i];
      if post in done {
        ClassifyIdempotent(post.media, orig[post]);
      }
      post.Classify();
      done := done + {post};
      i := i + 1;
    }
    r := data;
  }

  // ---------------------------------------------------------------------
  // The welcome view's form checks

  const InvalidInput := "invalid_input"

  /** The error mark is a class token `addClass` accepts. */
  lemma InvalidInputIsToken()
    ensures Common.ValidToken(InvalidInput)
  {
    assert forall i :: 0 <= i < |InvalidInput| ==> InvalidInput[i] in "abcdefghijklmnopqrstuvwxyz_";
  }

  const LoginErrorMessage := "Password is empty or too short, try again!"

  const SignupErrorMessage := "Password input is invalid, be sure to have a valid (more than "
    + NatToString(Common.MinPasswordLength) + " characters) and that both field are the same!"

  /** The condition of `validateLoginForm`: the password field exists and
      its value passes the length check. */
  predicate LoginFormValid(hasPasswordField: bool, password: string) {
    hasPasswordField && Common.IsPasswordLengthValid(Str(password))
  }

  /** The condition of `validateSignupFormData`: a non-empty password of
      valid length, identical to its repetition. */
  predicate SignupFormValid(password: string, repeated: string) {
    password != "" && Common.IsPasswordLengthValid(Str(password)) && password == repeated
  }

  /** The class list after `addClass(element, "invalid_input")`. */
  function Marked(classes: seq<string>): (r: seq<string>)
    ensures InvalidInput in r
    ensures forall c :: c in classes ==> c in r
  {
    if InvalidInput in classes then classes else classes + [InvalidInput]
  }

  /** `validateLoginForm(form)`: `field` is `form.user_password` (null
      when the form has none) and `value` its value. A valid password
      clears the field's error mark; otherwise the field is marked, the
      error message is shown and the form is refused. */
  method ValidateLoginForm(field: Common.Element?, value: string) returns (ok: bool, shown: Option<string>)
    requires field != null ==> field.Valid()
    modifies field
    ensures ok <==> LoginFormValid(field != null, value)
    ensures ok ==> shown.None? && field.classes == Common.Without(old(field.classes), InvalidInput)
    ensures !ok ==> shown == Some(LoginErrorMessage)
    ensures !ok && field != null ==> field.classes == Marked(old(field.classes))
    ensures field != null ==> field.Valid() && field.children == old(field.children)
  {
    InvalidInputIsToken();
    if field != null && Common.IsPasswordLengthValid(Str(value)) {
      var _ := Common.RemoveClass(field, InvalidInput);
      return true, None;
    }
    var _ := Common.AddClass(field, InvalidInput);
    ok, shown := false, Some(LoginErrorMessage);
  }

  /** `validateSignupFormData(form)` on the password field, its repetition
      field and their values. */
  method ValidateSignupFormData(field: Common.Element, repeatField: Common.Element, value: string, repeated: string)
    returns (ok: bool, shown: Option<string>)
    requires field != repeatField && field.Valid() && repeatField.Valid()
    modifies field, repeatField
    ensures ok <==> SignupFormValid(value, repeated)
    ensures ok ==> shown.None?
    ensures ok ==> field.classes == Common.Without(old(field.classes), InvalidInput)
    ensures ok ==> repeatField.classes == Common.Without(old(repeatField.classes), InvalidInput)
    ensures !ok ==> shown == Some(SignupErrorMessage)
    ensures !ok ==> field.classes == Marked(old(field.classes)) && repeatField.classes == Marked(old(repeatField.classes))
    ensures field.Valid() && repeatField.Valid()
  {
    InvalidInputIsToken();
    if value != "" && Common.IsPasswordLengthValid(Str(value)) && value == repeated {
      var _ := Common.RemoveClass(field, InvalidInput);
      var _ := Common.RemoveClass(repeatField, InvalidInput);
      return true, None;
    }
    var _ := Common.AddClass(field, InvalidInput);
    var _ := Common.AddClass(repeatField, InvalidInput);
    ok, shown := false, Some(SignupErrorMessage);
  }

  /** Both forms refuse a short password; the sign-up form also refuses a
      repetition that differs, which the login form does not look at. */
  lemma FormRules(password: string, repeated: string)
    ensures |password| < Common.MinPasswordLength && (forall i :: 0 <= i < |password| ==> password[i] as int < 0x10000) ==>
      !LoginFormValid(true, password) && !SignupFormValid(password, repeated)
    ensures SignupFormValid(password, repeated) ==> LoginFormValid(true, password) && repeated == password
    ensures password != repeated ==> !SignupFormValid(password, repeated)
  {
    Common.PasswordLengthRule(Str(password));
  }

  // ---------------------------------------------------------------------
  // Session

  const TokenKey := "sessionToken"

  /** The source text of the statistics function `createChannel` passes
      as the channel's endpoint. */
  const StatisticsSource := "function(statistics){\n            chart.update(statistics);\n        }"

  /** The functions a session registers as callbacks. `Caller(id)` is a
      function its caller supplied; the others are the session's own
      closures. */
  datatype Cont =
    | NotifyChange                                  // notifySessionChange (displayView)
    | Caller(id: nat)
    | SignUpSucceeded(form: Value)                  // loginSuccess in signUp
    | SignUpFailed                                  // loginError in signUp
    | SignInSucceeded(onSuccess: Option<nat>)       // signInSuccess
    | SignInFailed(onError: Option<nat>)            // signInError
    | LookupSucceeded(message: string, media: Option<string>, onSuccess: Option<nat>, onError: Option<nat>)
    | LookupFailed(onError: Option<nat>)
    | ChannelLost                                   // the channel's onClose

  /** What the session does, in order. */
  datatype Effect =
    | Sent(op: Op, onSuccess: Callback<Cont>, onError: Callback<Cont>)
    | ChannelOpened(token: Value)
    | ChannelClosed
    | ShowedError(message: Value)
    | ShowedSuccess(message: Value)
    | Notified
    | CalledBack(id: nat, response: Value)
    | Thrown

  /** A caller's callback argument as registered: `cb || noCallback`, or
      the raw argument, which `onSuccess`/`onError` ignore when falsy. */
  function CallbackOf(cb: Option<nat>): (r: Callback<Cont>)
    ensures r == NoOp <==> cb.None?
    ensures cb.Some? ==> r == Call(Caller(cb.value))
  {
    if cb.Some? then Call(Caller(cb.value)) else NoOp
  }

  /** Calling a caller's callback, when there is one. */
  function CallerEffect(cb: Option<nat>, response: Value): (r: seq<Effect>)
    ensures |r| <= 1 && (r != [] <==> cb.Some?)
    ensures cb.Some? ==> r == [CalledBack(cb.value, response)]
  {
    if cb.Some? then [CalledBack(cb.value, response)] else []
  }

  /** Building, registering and sending one request: `btoa` may throw
      while `signIn` builds its request, and then nothing is sent. */
  function IssueEffects(endpoint: string, op: Op, onSuccess: Callback<Cont>, onError: Callback<Cont>): (r: seq<Effect>)
    ensures |r| == 1
    ensures r[0].Sent? <==> Request(endpoint, op).Some?
    ensures r[0].Sent? ==> r[0] == Sent(op, onSuccess, onError)
    ensures !r[0].Sent? ==> r[0] == Thrown
  {
    if Request(endpoint, op).Some? then [Sent(op, onSuccess, onError)] else [Thrown]
  }

  /** The request `signIn(username, password)` builds: the values are
      concatenated, so they take their string form. */
  function SignInOp(username: Value, password: Value): Op {
    Op.SignIn(ToJsString(username), ToJsString(password))
  }

  /** `signOutFromServer()`: sign out with the token held, and refresh the
      page whatever the answer. */
  function SignOutEffects(token: Value): seq<Effect> {
    [Sent(Op.SignOut(token), Call(NotifyChange), Call(NotifyChange))]
  }

  /** Whether running `cont` on `response` signs the session in. */
  predicate SignsIn(cont: Cont, response: Value) {
    cont.SignInSucceeded? && Get(response, "data").Some?
  }

  /** The session token after running `cont` on `response`. */
  function NextToken(cont: Cont, response: Value, token: Value): (t: Value)
    ensures SignsIn(cont, response) ==> t == Get(response, "data").value
    ensures !SignsIn(cont, response) ==> t == token
  {
    if SignsIn(cont, response) then Get(response, "data").value else token
  }

  /** What running the registered function `cont` on `response` does,
      with `token` the session token held and `endpoint` the server's. A
      property read on null throws (Get is None), as does calling an
      absent error callback; a throw ends the callback. */
  function Reaction(cont: Cont, response: Value, token: Value, endpoint: string): (r: seq<Effect>)
    ensures r != [] && forall i :: 0 <= i < |r| - 1 ==> r[i] != Thrown
    ensures (exists i :: 0 <= i < |r| && r[i].ChannelOpened?) <==> SignsIn(cont, response)
  {
    match cont
    case NotifyChange => [Notified]
    case Caller(id) => [CalledBack(id, response)]
    case SignUpSucceeded(form) =>
      (match (Get(form, "email"), Get(form, "password"))
       case (Some(email), Some(password)) =>
         var issued := IssueEffects(endpoint, SignInOp(email, password), Call(SignInSucceeded(None)), Call(SignInFailed(None)));
         if issued == [Thrown] then issued
         else issued + (match Get(response, "message")
                        case None => [Thrown]
                        case Some(m) => [ShowedSuccess(m)])
       case _ => [Thrown])
    case SignUpFailed =>
      (match Get(response, "message")
       case None => [Thrown]
       case Some(m) => [ShowedError(m)])
    case SignInSucceeded(onSuccess) =>
      (match Get(response, "data")
       case None => [Thrown]
       case Some(data) =>
         var r := [ChannelOpened(data), Notified] + CallerEffect(onSuccess, response);
         assert r[0].ChannelOpened?;
         r)
    case SignInFailed(onError) =>
      (match Get(response, "message")
       case None => [Thrown]
       case Some(m) => [ShowedError(m)] + CallerEffect(onError, response))
    case LookupSucceeded(message, media, onSuccess, onError) =>
      (match Get(response, "data")
       case None => [Thrown]
       case Some(data) =>
         (match Get(data, "email")
          case None => [Thrown]
          case Some(email) => [Sent(Op.PostMessage(token, message, media, email), CallbackOf(onSuccess), CallbackOf(onError))]))
    case LookupFailed(onError) =>
      if onError.Some? then [CalledBack(onError.value, response)] else [Thrown]
    case ChannelLost => SignOutEffects(token)
  }

  /** The sender of a request once it is registered and sent; it cannot be
      sent again. */
  ghost predicate Sending(s: XhrSender<Cont>, p: Prepared, onSuccess: Callback<Cont>, onError: Callback<Cont>)
    reads s, s.xhr
  {
    && s.listening && !s.isText
    && s.onSuccessCallback == onSuccess && s.onErrorCallback == onError
    && s.xhr.verb == p.verb && s.xhr.url == p.url
    && s.xhr.headers == WireHeaders(p) && s.xhr.sent == [SentBody(p.content)]
    && !s.xhr.configurable
  }

  /** The object `Session(server, notifySessionChange)` returns, with its
      closure variables as fields. `notifySessionChange` is NotifyChange. */
  class Session {
    const server: Server
    const storage: LocalStorage
    /** `window.location`. */
    const loc: Location
    var sessionToken: Value
    var channel: Option<WebsocketChannel<Cont>>
    var effects: seq<Effect>

    /** The stored token is the string form of the token held, and a
        channel carries the token held and reports its closing to the
        session. */
    ghost predicate Valid()
      reads this, storage
    {
      && (TokenKey in storage.items ==> storage.items[TokenKey] == ToJsString(sessionToken))
      && (TokenKey !in storage.items ==> sessionToken == Null)
      && (channel.Some? ==> channel.value.sessionToken == sessionToken && channel.value.onCloseCallback == Call(ChannelLost))
    }

    /** The constructor: the token is read back from localStorage, and a
        channel is opened exactly when it is truthy. */
    constructor (server: Server, storage: LocalStorage, loc: Location)
      ensures this.server == server && this.storage == storage && this.loc == loc
      ensures Valid()
      ensures sessionToken == storage.GetItem(TokenKey)
      ensures channel.Some? <==> Truthy(sessionToken)
      ensures channel.Some? ==> fresh(channel.value) && fresh(channel.value.socket)
      ensures channel.Some? ==> channel.value.socket.url == ChannelUrl(FunctionArg(StatisticsSource), loc)
      ensures channel.Some? ==> channel.value.socket.frames == [] && channel.value.socket.closeRequests == 0
      ensures effects == if Truthy(sessionToken) then [ChannelOpened(sessionToken)] else []
    {
      this.server, this.storage, this.loc := server, storage, loc;
      sessionToken := storage.GetItem(TokenKey);
      channel := None;
      effects := [];
      new;
      if Truthy(sessionToken) {
        CreateChannel();
      }
    }

    /** `createChannel()`: a new channel for the token held, whose closing
        signs out from the server, with the statistics function where the
        endpoint goes. A previous channel is dropped, not closed. */
    method CreateChannel()
      modifies this
      ensures channel.Some? && fresh(channel.value) && fresh(channel.value.socket)
      ensures channel.value.sessionToken == sessionToken && channel.value.onCloseCallback == Call(ChannelLost)
      ensures channel.value.socket.url == ChannelUrl(FunctionArg(StatisticsSource), loc)
      ensures channel.value.socket.protocols == [] && channel.value.socket.frames == []
      ensures channel.value.socket.closeRequests == 0
      ensures effects == old(effects) + [ChannelOpened(sessionToken)]
      ensures sessionToken == old(sessionToken)
    {
      var c := new WebsocketChannel(sessionToken, Some(Call(ChannelLost)), FunctionArg(StatisticsSource), loc);
      channel := Some(c);
      effects := effects + [ChannelOpened(sessionToken)];
    }

    /** The catalog method for `op`: an unsent sender for the request, or
        nothing when building it throws. */
    method Build(op: Op) returns (sender: Option<XhrSender<Cont>>)
      ensures sender.Some? <==> Request(server.endpoint, op).Some?
      ensures sender.Some? ==> fresh(sender.value) && fresh(sender.value.xhr) && Unsent(sender.value)
      ensures sender.Some? ==> Shape(sender.value) == Request(server.endpoint, op).value
    {
      match op {
        case SignIn(email, password) =>
          sender := server.SignIn(email, password);
        case SignOut(token) =>
          var s := server.SignOut(token);
          sender := Some(s);
        case SignUp(data) =>
          var s := server.SignUp(data);
          sender := Some(s);
        case GetUserMessagesByToken(token) =>
          var s := server.GetUserMessagesByToken(token);
          sender := Some(s);
        case GetUserMessagesByEmail(token, email) =>
          var s := server.GetUserMessagesByEmail(token, email);
          sender := Some(s);
        case PostMessage(token, message, media, toEmail) =>
          var s := server.PostMessage(token, message, media, toEmail);
          sender := Some(s);
        case GetUserDataByToken(token) =>
          var s := server.GetUserDataByToken(token);
          sender := Some(s);
        case GetUserDataByEmail(token, email) =>
          var s := server.GetUserDataByEmail(token, email);
          sender := Some(s);
        case ChangePassword(token, oldPassword, newPassword) =>
          var s := server.ChangePassword(token, oldPassword, newPassword);
          sender := Some(s);
      }
    }

    /** One request through the catalog: build it, register the
        callbacks, send it. */
    method Issue(op: Op, onSuccess: Callback<Cont>, onError: Callback<Cont>) returns (sender: Option<XhrSender<Cont>>)
      modifies this
      ensures sender.Some? <==> Request(server.endpoint, op).Some?
      ensures sender.Some? ==> fresh(sender.value) && fresh(sender.value.xhr)
      ensures sender.Some? ==> Sending(sender.value, Request(server.endpoint, op).value, onSuccess, onError)
      ensures effects == old(effects) + IssueEffects(server.endpoint, op, onSuccess, onError)
      ensures sessionToken == old(sessionToken) && channel == old(channel)
    {
      sender := Build(op);
      if sender.None? {
        effects := effects + [Thrown];
        return;
      }
      var s := sender.value;
      var _ := s.OnSuccess(Some(onSuccess));
      var _ := s.OnError(Some(onError));
      var _ := s.Send();
      effects := effects + [Sent(op, onSuccess, onError)];
    }

    /** `signUp(userForm)`: on success, sign in with the form's e-mail
        address and password; on failure, show the error. */
    method SignUp(userForm: Value)
      modifies this
      ensures effects == old(effects) + [Sent(Op.SignUp(userForm), Call(SignUpSucceeded(userForm)), Call(SignUpFailed))]
      ensures sessionToken == old(sessionToken) && channel == old(channel)
    {
      var _ := Issue(Op.SignUp(userForm), Call(SignUpSucceeded(userForm)), Call(SignUpFailed));
    }

    /** `signIn(username, password, onSuccess, onError)`; `sent` is false
        when building the request threw. */
    method SignIn(username: Value, password: Value, onSuccess: Option<nat>, onError: Option<nat>) returns (sent: bool)
      modifies this
      ensures sent <==> Request(server.endpoint, SignInOp(username, password)).Some?
      ensures effects == old(effects) +
        IssueEffects(server.endpoint, SignInOp(username, password), Call(SignInSucceeded(onSuccess)), Call(SignInFailed(onError)))
      ensures sessionToken == old(sessionToken) && channel == old(channel)
    {
      var s := Issue(SignInOp(username, password), Call(SignInSucceeded(onSuccess)), Call(SignInFailed(onError)));
      sent := s.Some?;
    }

    /** `isSignedIn(signedIn, notSignedIn)`: a profile request with the
        token held, answered straight to the caller's callbacks. */
    method IsSignedIn(signedIn: Option<nat>, notSignedIn: Option<nat>)
      modifies this
      ensures effects == old(effects) + [Sent(Op.GetUserDataByToken(old(sessionToken)), CallbackOf(signedIn), CallbackOf(notSignedIn))]
      ensures sessionToken == old(sessionToken) && channel == old(channel)
    {
      var _ := Issue(Op.GetUserDataByToken(sessionToken), CallbackOf(signedIn), CallbackOf(notSignedIn));
    }

    /** `signOutFromServer()`. */
    method SignOutFromServer()
      modifies this
      ensures effects == old(effects) + SignOutEffects(old(sessionToken))
      ensures sessionToken == old(sessionToken) && channel == old(channel)
    {
      var _ := Issue(Op.SignOut(sessionToken), Call(NotifyChange), Call(NotifyChange));
    }

    /** `signOut()`: close the channel if there is one, then sign out from
        the server. The token stays, in memory and in localStorage. */
    method SignOut()
      requires Valid()
      modifies this, if channel.Some? then {channel.value.socket} else {}
      ensures Valid()
      ensures effects == old(effects) + (if old(channel).Some? then [ChannelClosed] else []) + SignOutEffects(old(sessionToken))
      ensures old(channel).Some? ==> old(channel).value.socket.closeRequests == old(channel.value.socket.closeRequests) + 1
      ensures sessionToken == old(sessionToken) && channel == old(channel) && storage.items == old(storage.items)
    {
      if channel.Some? {
        channel.value.Close();
        effects := effects + [ChannelClosed];
      }
      SignOutFromServer();
    }

    /** `changePassword(oldPassword, newPassword, onSuccess, onError)`. */
    method ChangePassword(oldPassword: string, newPassword: string, onSuccess: Option<nat>, onError: Option<nat>)
      modifies this
      ensures effects == old(effects) +
        [Sent(Op.ChangePassword(old(sessionToken), oldPassword, newPassword), CallbackOf(onSuccess), CallbackOf(onError))]
      ensures sessionToken == old(sessionToken) && channel == old(channel)
    {
      var _ := Issue(Op.ChangePassword(sessionToken, oldPassword, newPassword), CallbackOf(onSuccess), CallbackOf(onError));
    }

    /** `getCurrentUserData(onSuccess, onError)`. */
    method GetCurrentUserData(onSuccess: Option<nat>, onError: Option<nat>)
      modifies this
      ensures effects == old(effects) + [Sent(Op.GetUserDataByToken(old(sessionToken)), CallbackOf(onSuccess), CallbackOf(onError))]
      ensures sessionToken == old(sessionToken) && channel == old(channel)
    {
      var _ := Issue(Op.GetUserDataByToken(sessionToken), CallbackOf(onSuccess), CallbackOf(onError));
    }

    /** `getCurrentUserMessages(onSuccess, onError)`. */
    method GetCurrentUserMessages(onSuccess: Option<nat>, onError: Option<nat>)
      modifies this
      ensures effects == old(effects) + [Sent(Op.GetUserMessagesByToken(old(sessionToken)), CallbackOf(onSuccess), CallbackOf(onError))]
      ensures sessionToken == old(sessionToken) && channel == old(channel)
    {
      var _ := Issue(Op.GetUserMessagesByToken(sessionToken), CallbackOf(onSuccess), CallbackOf(onError));
    }

    /** `postMessage(message, media, toEmail, onSuccess, onError)`. */
    method PostMessage(message: string, media: Option<string>, toEmail: Value, onSuccess: Option<nat>, onError: Option<nat>)
      modifies this
      ensures effects == old(effects) +
        [Sent(Op.PostMessage(old(sessionToken), message, media, toEmail), CallbackOf(onSuccess), CallbackOf(onError))]
      ensures sessionToken == old(sessionToken) && channel == old(channel)
    {
      var _ := Issue(Op.PostMessage(sessionToken, message, media, toEmail), CallbackOf(onSuccess), CallbackOf(onError));
    }

    /** `postMessageOnWall(message, media, onSuccess, onError)`: look up
        the signed-in user's profile first; the post goes out from the
        lookup's success callback. */
    method PostMessageOnWall(message: string, media: Option<string>, onSuccess: Option<nat>, onError: Option<nat>)
      modifies this
      ensures effects == old(effects) +
        [Sent(Op.GetUserDataByToken(old(sessionToken)), Call(LookupSucceeded(message, media, onSuccess, onError)), Call(LookupFailed(onError)))]
      ensures sessionToken == old(sessionToken) && channel == old(channel)
    {
      var _ := Issue(Op.GetUserDataByToken(sessionToken), Call(LookupSucceeded(message, media, onSuccess, onError)), Call(LookupFailed(onError)));
    }

    /** `getOtherUserDataByEmail(email, onSuccess, onError)`. */
    method GetOtherUserDataByEmail(email: Value, onSuccess: Option<nat>, onError: Option<nat>)
      modifies this
      ensures effects == old(effects) + [Sent(Op.GetUserDataByEmail(old(sessionToken), email), CallbackOf(onSuccess), CallbackOf(onError))]
      ensures sessionToken == old(sessionToken) && channel == old(channel)
    {
      var _ := Issue(Op.GetUserDataByEmail(sessionToken, email), CallbackOf(onSuccess), CallbackOf(onError));
    }

    /** `getOtherUserMessagesByEmail(email, onSuccess, onError)`. */
    method GetOtherUserMessagesByEmail(email: Value, onSuccess: Option<nat>, onError: Option<nat>)
      modifies this
      ensures effects == old(effects) + [Sent(Op.GetUserMessagesByEmail(old(sessionToken), email), CallbackOf(onSuccess), CallbackOf(onError))]
      ensures sessionToken == old(sessionToken) && channel == old(channel)
    {
      var _ := Issue(Op.GetUserMessagesByEmail(sessionToken, email), CallbackOf(onSuccess), CallbackOf(onError));
    }

    /** A registered function runs on a response (or, for ChannelLost, on
        the channel's close event). Only a successful sign-in changes the
        state: the token is stored and held, and a new channel opened. */
    method Resume(cont: Cont, response: Value)
      requires Valid()
      modifies this, storage
      ensures Valid()
      ensures effects == old(effects) + Reaction(cont, response, old(sessionToken), server.endpoint)
      ensures sessionToken == NextToken(cont, response, old(sessionToken))
      ensures SignsIn(cont, response) ==>
        && storage.items == old(storage.items)[TokenKey := ToJsString(sessionToken)]
        && channel.Some? && fresh(channel.value) && fresh(channel.value.socket)
        && channel.value.socket.url == ChannelUrl(FunctionArg(StatisticsSource), loc)
        && channel.value.socket.frames == []
      ensures !SignsIn(cont, response) ==> storage.items == old(storage.items) && channel == old(channel)
    {
      match cont {
        case NotifyChange =>
          effects := effects + [Notified];
        case Caller(id) =>
          effects := effects + [CalledBack(id, response)];
        case SignUpSucceeded(form) =>
          SignUpSucceededOn(form, response);
        case SignUpFailed =>
          var m := Get(response, "message");
          effects := effects + (if m.None? then [Thrown] else [ShowedError(m.value)]);
        case SignInSucceeded(onSuccess) =>
          SignInSucceededOn(onSuccess, response);
        case SignInFailed(onError) =>
          var m := Get(response, "message");
          effects := effects + (if m.None? then [Thrown] else [ShowedError(m.value)] + CallerEffect(onError, response));
        case LookupSucceeded(message, media, onSuccess, onError) =>
          LookupSucceededOn(message, media, onSuccess, onError, response);
        case LookupFailed(onError) =>
          effects := effects + (if onError.Some? then [CalledBack(onError.value, response)] else [Thrown]);
        case ChannelLost =>
          SignOutFromServer();
      }
    }

    /** `loginSuccess` of `signUp`. */
    method SignUpSucceededOn(form: Value, response: Value)
      modifies this
      ensures effects == old(effects) + Reaction(SignUpSucceeded(form), response, old(sessionToken), server.endpoint)
      ensures sessionToken == old(sessionToken) && channel == old(channel)
    {
      var email, password := Get(form, "email"), Get(form, "password");
      if email.None? || password.None? {
        effects := effects + [Thrown];
        return;
      }
      var sent := SignIn(email.value, password.value, None, None);
      if !sent {
        return;
      }
      var m := Get(response, "message");
      effects := effects + (if m.None? then [Thrown] else [ShowedSuccess(m.value)]);
    }

    /** `signInSuccess` of `signIn`: `changeToken`, `createChannel`,
        `notifySessionChange`, then the caller's callback. */
    method SignInSucceededOn(onSuccess: Option<nat>, response: Value)
      requires Valid()
      modifies this, storage
      ensures Valid()
      ensures effects == old(effects) + Reaction(SignInSucceeded(onSuccess), response, old(sessionToken), server.endpoint)
      ensures sessionToken == NextToken(SignInSucceeded(onSuccess), response, old(sessionToken))
      ensures SignsIn(SignInSucceeded(onSuccess), response) ==>
        && storage.items == old(storage.items)[TokenKey := ToJsString(sessionToken)]
        && channel.Some? && fresh(channel.value) && fresh(channel.value.socket)
        && channel.value.socket.url == ChannelUrl(FunctionArg(StatisticsSource), loc)
        && channel.value.socket.frames == []
      ensures !SignsIn(SignInSucceeded(onSuccess), response) ==> storage.items == old(storage.items) && channel == old(channel)
    {
      var data := Get(response, "data");
      if data.None? {
        effects := effects + [Thrown];
        return;
      }
      storage.SetItem(TokenKey, data.value);
      sessionToken := data.value;
      CreateChannel();
      effects := effects + [Notified] + CallerEffect(onSuccess, response);
    }

    /** The success callback of the profile lookup in `postMessageOnWall`. */
    method LookupSucceededOn(message: string, media: Option<string>, onSuccess: Option<nat>, onError: Option<nat>, response: Value)
      modifies this
      ensures effects == old(effects) + Reaction(LookupSucceeded(message, media, onSuccess, onError), response, old(sessionToken), server.endpoint)
      ensures sessionToken == old(sessionToken) && channel == old(channel)
    {
      var data := Get(response, "data");
      if data.None? {
        effects := effects + [Thrown];
        return;
      }
      var email := Get(data.value, "email");
      if email.None? {
        effects := effects + [Thrown];
        return;
      }
      PostMessage(message, media, email.value, onSuccess, onError);
    }
  }

  /** Sign-up success signs in with the e-mail address and password of the
      form that was sent, with no callbacks of the caller, and only then
      shows the success message; sign-up failure never signs in. */
  lemma SignUpThenSignIn(form: Value, response: Value, token: Value, endpoint: string)
    requires Get(form, "email").Some? && Get(form, "password").Some?
    ensures var op := SignInOp(Get(form, "email").value, Get(form, "password").value);
      var r := Reaction(SignUpSucceeded(form), response, token, endpoint);
      && (Request(endpoint, op).Some? ==> r[0] == Sent(op, Call(SignInSucceeded(None)), Call(SignInFailed(None))))
      && (Request(endpoint, op).Some? && Get(response, "message").Some? ==> r == [r[0], ShowedSuccess(Get(response, "message").value)])
      && (Request(endpoint, op).None? ==> r == [Thrown])
    ensures forall e :: e in Reaction(SignUpFailed, response, token, endpoint) ==> !e.Sent?
  {
  }

  /** Sign-in success: the channel is opened for the new token, then the
      page is refreshed, and only then the caller's callback runs. Sign-in
      failure shows the error and then runs the caller's error callback,
      leaving the token as it was. */
  lemma SignInOutcomes(onSuccess: Option<nat>, onError: Option<nat>, response: Value, token: Value, endpoint: string)
    requires Get(response, "data").Some? && Get(response, "message").Some?
    ensures Reaction(SignInSucceeded(onSuccess), response, token, endpoint) ==
      [ChannelOpened(Get(response, "data").value), Notified] + CallerEffect(onSuccess, response)
    ensures NextToken(SignInSucceeded(onSuccess), response, token) == Get(response, "data").value
    ensures Reaction(SignInFailed(onError), response, token, endpoint) ==
      [ShowedError(Get(response, "message").value)] + CallerEffect(onError, response)
    ensures NextToken(SignInFailed(onError), response, token) == token
  {
  }

  /** Signing out refreshes the page whichever way the server answers,
      and never changes the token. */
  lemma SignOutAlwaysNotifies(token: Value, response: Value, endpoint: string)
    ensures var e := SignOutEffects(token)[0];
      e.Sent? && e.onSuccess == Call(NotifyChange) && e.onError == Call(NotifyChange)
      && Reaction(e.onSuccess.c, response, token, endpoint) == [Notified]
      && Reaction(e.onError.c, response, token, endpoint) == [Notified]
      && NextToken(e.onSuccess.c, response, token) == token
  {
  }

  /** The wall post goes to the e-mail address the profile lookup
      returned, with the token held and the caller's callbacks; a failed
      lookup posts nothing and hands its response to the caller's error
      callback (throwing when there is none). */
  lemma PostOnWallTarget(message: string, media: Option<string>, onSuccess: Option<nat>, onError: Option<nat>,
                         response: Value, token: Value, endpoint: string)
    ensures var data := Get(response, "data");
      data.Some? && Get(data.value, "email").Some? ==>
        Reaction(LookupSucceeded(message, media, onSuccess, onError), response, token, endpoint) ==
        [Sent(Op.PostMessage(token, message, media, Get(data.value, "email").value), CallbackOf(onSuccess), CallbackOf(onError))]
    ensures forall e :: e in Reaction(LookupFailed(onError), response, token, endpoint) ==> !e.Sent?
    ensures Reaction(LookupFailed(onError), response, token, endpoint) ==
      if onError.Some? then [CalledBack(onError.value, response)] else [Thrown]
  {
  }
}
