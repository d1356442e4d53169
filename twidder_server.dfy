/** The domain rules of the Flask server, twidder/twidder.py: the field
    validators, the order of checks when a user is built, session
    construction, media naming, the message guard, the user-info
    projection, the request-data checks and the registry of connected
    push sockets. The database, password hashing, uuid generation and the
    sockets themselves are outside the model: their results are
    parameters. */
module TwidderServer {
  import opened JsValues

  const MinPasswordLength := 6

  /** `is_password_valid`: non-empty and at least six characters (code
      points, as Python counts them). */
  predicate IsPasswordValid(password: string) {
    password != "" && |password| >= MinPasswordLength
  }

  /** `is_gender_valid`. */
  predicate IsGenderValid(gender: string) {
    gender != "" && (gender == "m" || gender == "f")
  }

  lemma ValidatorsAccept(password: string, gender: string)
    ensures IsPasswordValid(password) <==> |password| >= 6
    ensures IsGenderValid(gender) <==> gender in {"m", "f"}
  {
  }

  predicate IsLetterOrDigit(c: char) {
    ('a' <= c <= 'z') || ('A' <= c <= 'Z') || ('0' <= c <= '9')
  }

  /** The three character classes of the e-mail pattern:
      [a-zA-Z0-9_.+-], [a-zA-Z0-9-] and [a-zA-Z0-9-.]. */
  predicate LocalChar(c: char) {
    IsLetterOrDigit(c) || c == '_' || c == '.' || c == '+' || c == '-'
  }

  predicate DomainChar(c: char) {
    IsLetterOrDigit(c) || c == '-'
  }

  predicate TailChar(c: char) {
    IsLetterOrDigit(c) || c == '-' || c == '.'
  }

  predicate LocalChars(s: string) {
    forall k :: 0 <= k < |s| ==> LocalChar(s[k])
  }

  predicate DomainChars(s: string) {
    forall k :: 0 <= k < |s| ==> DomainChar(s[k])
  }

  predicate TailChars(s: string) {
    forall k :: 0 <= k < |s| ==> TailChar(s[k])
  }

  /** `t` is local "@" domain "." tail with the "@" at i and the "." at j,
      each part non-empty and drawn from its class. */
  predicate SplitsAt(t: string, i: int, j: int) {
    && 0 < i && i + 1 < j && j + 1 < |t|
    && LocalChars(t[..i]) && t[i] == '@'
    && DomainChars(t[i + 1..j]) && t[j] == '.'
    && TailChars(t[j + 1..])
  }

  /** Some split of `t` has the shape. */
  ghost predicate HasSplit(t: string) {
    exists i, j :: SplitsAt(t, i, j)
  }

  /** What `re.match` with the pattern accepts: the whole string has the
      shape, or the shape followed by one final newline, which `$` lets
      through. */
  ghost predicate MatchesEmailPattern(s: string) {
    HasSplit(s) || (|s| > 0 && s[|s| - 1] == '\n' && HasSplit(s[..|s| - 1]))
  }

  /** The string without one final newline. */
  function WithoutFinalNewline(s: string): (t: string)
    ensures |s| > 0 && s[|s| - 1] == '\n' ==> t == s[..|s| - 1]
    ensures !(|s| > 0 && s[|s| - 1] == '\n') ==> t == s
  {
    if |s| > 0 && s[|s| - 1] == '\n' then s[..|s| - 1] else s
  }

  /** The shape, checked by splitting at the first "@" and then at the
      first "." after it (the first part cannot hold "@", the second
      cannot hold "."). */
  predicate HasEmailShape(t: string) {
    '@' in t &&
    var i := FirstIndexOf(t, '@');
    '.' in t[i + 1..] &&
    SplitsAt(t, i, i + 1 + FirstIndexOf(t[i + 1..], '.'))
  }

  /** `is_email_valid`. */
  predicate IsEmailValid(email: string) {
    email != "" && HasEmailShape(WithoutFinalNewline(email))
  }

  /** In a split, the "@" is the first one. */
  lemma SplitAtFirstAt(t: string, i: int, j: int)
    requires SplitsAt(t, i, j)
    ensures '@' in t && FirstIndexOf(t, '@') == i
  {
    assert forall k :: 0 <= k < i ==> t[k] == t[..i][k];
    assert forall k :: 0 <= k < i ==> t[k] != '@';
    FirstIndexOfIsFirst(t, '@', i);
  }

  /** In a split, the "." is the first one after the "@". */
  lemma SplitAtFirstDot(t: string, i: int, j: int)
    requires SplitsAt(t, i, j)
    ensures '.' in t[i + 1..] && FirstIndexOf(t[i + 1..], '.') == j - i - 1
  {
    var r := t[i + 1..];
    assert r[j - i - 1] == '.';
    assert forall k :: 0 <= k < j - i - 1 ==> r[k] == t[i + 1..j][k];
    assert forall k :: 0 <= k < j - i - 1 ==> r[k] != '.';
    FirstIndexOfIsFirst(r, '.', j - i - 1);
  }

  lemma HasEmailShapeIff(t: string)
    ensures HasEmailShape(t) <==> HasSplit(t)
  {
    if HasSplit(t) {
      var i, j :| SplitsAt(t, i, j);
      SplitAtFirstAt(t, i, j);
      SplitAtFirstDot(t, i, j);
    }
  }

  /** A split ends in a tail character, so never in a newline. */
  lemma SplitEndsInTailChar(t: string)
    requires HasSplit(t)
    ensures TailChar(t[|t| - 1])
  {
    var i, j :| SplitsAt(t, i, j);
    assert t[|t| - 1] == t[j + 1..][|t| - j - 2];
  }

  /** `is_email_valid` accepts exactly what the pattern matches, including
      a single trailing newline. */
  lemma EmailValidIffPattern(email: string)
    ensures IsEmailValid(email) <==> MatchesEmailPattern(email)
  {
    HasEmailShapeIff(WithoutFinalNewline(email));
    if |email| > 0 && email[|email| - 1] == '\n' {
      if HasSplit(email) {
        SplitEndsInTailChar(email);
      }
    }
  }

  /** Two strings the pattern tells apart: a plain address, the same
      address with a final newline (accepted), and an address with no
      dot after the "@" (rejected). */
  lemma EmailExamples()
    ensures IsEmailValid("a@b.c")
    ensures IsEmailValid("a@b.c\n")
    ensures !IsEmailValid("a@bc")
  {
    PlainAddressAccepted();
    NewlineAddressAccepted();
    NoDotRejected();
  }

  lemma PlainAddressSplits()
    ensures HasSplit("a@b.c")
  {
    var t := "a@b.c";
    assert t[..1] == "a" && t[2..3] == "b" && t[4..] == "c";
    assert LocalChar('a') && DomainChar('b') && TailChar('c');
    assert SplitsAt(t, 1, 3);
  }

  lemma PlainAddressAccepted()
    ensures IsEmailValid("a@b.c")
  {
    assert WithoutFinalNewline("a@b.c") == "a@b.c";
    PlainAddressSplits();
    HasEmailShapeIff("a@b.c");
  }

  lemma NewlineAddressAccepted()
    ensures IsEmailValid("a@b.c\n")
  {
    assert WithoutFinalNewline("a@b.c\n") == "a@b.c" by {
      assert "a@b.c\n"[..5] == "a@b.c";
    }
    PlainAddressSplits();
    HasEmailShapeIff("a@b.c");
  }

  lemma NoDotRejected()
    ensures !IsEmailValid("a@bc")
  {
    assert '.' !in "a@bc";
    HasEmailShapeIff("a@bc");
  }

  /** `markupsafe.escape`, applied to every registration field. */
  function Escape(s: string): (r: string)
    ensures |r| >= |s|
    ensures forall k :: 0 <= k < |r| ==> r[k] != '<' && r[k] != '>' && r[k] != '"' && r[k] != '\''
  {
    if s == [] then ""
    else
      var c := s[0];
      var e := if c == '&' then "&amp;" else if c == '<' then "&lt;" else if c == '>' then "&gt;"
               else if c == '\'' then "&#39;" else if c == '"' then "&#34;" else [c];
      e + Escape(s[1..])
  }

  /** A string without the five special characters is left as it is. */
  lemma {:induction false} EscapePlain(s: string)
    requires forall k :: 0 <= k < |s| ==> s[k] !in "&<>'\""
    ensures Escape(s) == s
  {
    if s != [] {
      EscapePlain(s[1..]);
    }
  }

  datatype User = User(email: string, password: string, firstName: string, familyName: string,
                       gender: string, city: string, country: string)

  predicate AllFieldsPresent(u: User) {
    u.email != "" && u.password != "" && u.firstName != "" && u.familyName != ""
    && u.gender != "" && u.city != "" && u.country != ""
  }

  /** The outcome of `User._validate`. The password message is built with
      the placeholder {min_char} but formatted with the keyword
      min_chars, so that branch raises a KeyError instead of the
      intended UserNotValidError. */
  datatype Validation = ValidUser | NotValid(message: string) | FormatKeyError

  const UserNotValidMessage := "User not valid."
  const GenderMessage := "User gender is not valid."
  const EmailMessage := "Email is not valid."

  function ValidateUser(u: User): (r: Validation)
    ensures r == ValidUser <==>
      AllFieldsPresent(u) && IsGenderValid(u.gender) && IsPasswordValid(u.password) && IsEmailValid(u.email)
    ensures !AllFieldsPresent(u) ==> r == NotValid(UserNotValidMessage)
    ensures AllFieldsPresent(u) && !IsGenderValid(u.gender) ==> r == NotValid(GenderMessage)
    ensures AllFieldsPresent(u) && IsGenderValid(u.gender) && !IsPasswordValid(u.password) ==> r == FormatKeyError
    ensures AllFieldsPresent(u) && IsGenderValid(u.gender) && IsPasswordValid(u.password) && !IsEmailValid(u.email) ==>
      r == NotValid(EmailMessage)
  {
    if !AllFieldsPresent(u) then NotValid(UserNotValidMessage)
    else if !IsGenderValid(u.gender) then NotValid(GenderMessage)
    else if !IsPasswordValid(u.password) then FormatKeyError
    else if !IsEmailValid(u.email) then NotValid(EmailMessage)
    else ValidUser
  }

  /** The first failing check decides: a missing field hides a bad gender,
      a bad gender hides a short password, and a short password hides a
      bad address. */
  lemma FirstFailureWins(u: User)
    ensures u.email == "" ==> ValidateUser(u.(gender := "x", password := "p")) == NotValid(UserNotValidMessage)
    ensures AllFieldsPresent(u) && !IsGenderValid(u.gender) ==>
      ValidateUser(u.(password := "p", email := "e")) == NotValid(GenderMessage)
    ensures AllFieldsPresent(u) && IsGenderValid(u.gender) ==>
      ValidateUser(u.(password := "p", email := "e")) == FormatKeyError
  {
    assert !IsEmailValid("e") by {
      assert WithoutFinalNewline("e") == "e";
    }
  }

  const UserFieldNames: set<string> := {"email", "password", "first_name", "family_name", "gender", "city", "country"}

  /** The outcome of `_create_user_to_register`. */
  datatype Registration = Registered(user: User) | Rejected(message: string)

  /** `_create_user_to_register(data)`: every field is escaped, the
      password is replaced by its hash (`hashed`, the result of
      `User.create_password`), and the user is built. A missing password,
      a missing or extra field (TypeError) and the KeyError of the
      password branch all end as "User not valid.". Because the hash is
      what gets validated, the length of the password typed is never
      checked here. */
  function CreateUserToRegister(data: map<string, string>, hashed: string): (r: Registration)
    ensures data.Keys != UserFieldNames ==> r == Rejected(UserNotValidMessage)
    ensures data.Keys == UserFieldNames ==>
      var u := EscapedUser(data, hashed);
      && (r.Registered? <==> ValidateUser(u) == ValidUser)
      && (r.Registered? ==> r.user == u)
    ensures data.Keys == UserFieldNames && !AllFieldsPresent(EscapedUser(data, hashed)) ==>
      r == Rejected(UserNotValidMessage)
    ensures data.Keys == UserFieldNames && AllFieldsPresent(EscapedUser(data, hashed)) ==>
      && (!IsGenderValid(Escape(data["gender"])) ==> r == Rejected(GenderMessage))
      && (IsGenderValid(Escape(data["gender"])) && !IsPasswordValid(hashed) ==> r == Rejected(UserNotValidMessage))
      && (IsGenderValid(Escape(data["gender"])) && IsPasswordValid(hashed) && !IsEmailValid(Escape(data["email"])) ==>
            r == Rejected(EmailMessage))
  {
    if "password" !in data || data.Keys != UserFieldNames then Rejected(UserNotValidMessage)
    else
      match ValidateUser(EscapedUser(data, hashed))
      case ValidUser => Registered(EscapedUser(data, hashed))
      case NotValid(m) => Rejected(m)
      case FormatKeyError => Rejected(UserNotValidMessage)
  }

  /** The user built from a registration: every field escaped, the
      password replaced by its hash. */
  function EscapedUser(data: map<string, string>, hashed: string): (u: User)
    requires UserFieldNames <= data.Keys
    ensures u.password == hashed
    ensures u.email == Escape(data["email"]) && u.firstName == Escape(data["first_name"])
    ensures u.familyName == Escape(data["family_name"]) && u.gender == Escape(data["gender"])
    ensures u.city == Escape(data["city"]) && u.country == Escape(data["country"])
  {
    User(Escape(data["email"]), hashed, Escape(data["first_name"]), Escape(data["family_name"]),
         Escape(data["gender"]), Escape(data["city"]), Escape(data["country"]))
  }

  /** With a hash of six characters or more (as password hashes are),
      registration does not depend on the password typed: a one-letter
      password registers exactly when a long one does. */
  lemma RegistrationIgnoresPasswordLength(data: map<string, string>, hashed: string, p: string, q: string)
    requires |hashed| >= MinPasswordLength
    ensures CreateUserToRegister(data["password" := p], hashed) == CreateUserToRegister(data["password" := q], hashed)
  {
    if data["password" := p].Keys == UserFieldNames {
      assert data["password" := q].Keys == UserFieldNames;
    }
    if data["password" := q].Keys == UserFieldNames {
      assert data["password" := p].Keys == UserFieldNames;
    }
  }

  /** What `Session(user, token)` is given as user. */
  datatype SessionUser = FalsyUser | AUser(user: User) | NotAUser

  datatype SessionResult = SessionOk(user: User, token: string) | SessionNotValid

  /** `Session.__init__` and `Session._validate`: a missing or empty token
      is replaced by a fresh id (`freshId`, the string form of a uuid4). */
  function NewSession(user: SessionUser, token: Option<string>, freshId: string): (r: SessionResult)
    ensures r.SessionOk? <==> user.AUser? && ((token.Some? && token.value != "") || freshId != "")
    ensures r.SessionOk? ==> r.user == user.user && r.token != ""
    ensures r.SessionOk? && token.Some? && token.value != "" ==> r.token == token.value
    ensures r.SessionOk? && !(token.Some? && token.value != "") ==> r.token == freshId
  {
    var t := if token.Some? && token.value != "" then token.value else freshId;
    if user.FalsyUser? || t == "" then SessionNotValid
    else if user.NotAUser? then SessionNotValid
    else SessionOk(user.user, t)
  }

  /** `Media._extract_extension`: the text after the last "."; None where
      `rsplit` leaves one piece and indexing it raises an IndexError. */
  function ExtractExtension(filename: string): (r: Option<string>)
    ensures r.None? <==> '.' !in filename
    ensures r.Some? ==> '.' !in r.value && |r.value| < |filename|
    ensures r.Some? ==> filename == filename[..|filename| - |r.value| - 1] + "." + r.value
  {
    match LastIndexOf(filename, '.')
    case None => None
    case Some(i) => Some(filename[i + 1..])
  }

  /** `Media._allowed_media`: the "." test comes first, so the extension
      is only taken when there is one. `allowed` is ALLOWED_MEDIA, which
      twidder/__init__.py does not define. */
  predicate AllowedMedia(filename: string, allowed: set<string>) {
    '.' in filename && ExtractExtension(filename).value in allowed
  }

  /** `Media.post_media`: the stored name is the media id, ".", and the
      extension; None for CouldNotPostMediaError. */
  function PostMediaName(mediaId: string, filename: string, allowed: set<string>): (r: Option<string>)
    ensures r.Some? <==> AllowedMedia(filename, allowed)
    ensures r.Some? ==> r.value == mediaId + "." + ExtractExtension(filename).value
  {
    if AllowedMedia(filename, allowed) then Some(mediaId + "." + ExtractExtension(filename).value) else None
  }

  /** A stored media name keeps the uploaded file's extension, which is an
      allowed one, whatever the media id. */
  lemma MediaNameKeepsExtension(mediaId: string, filename: string, allowed: set<string>)
    requires AllowedMedia(filename, allowed)
    ensures var name := PostMediaName(mediaId, filename, allowed).value;
      ExtractExtension(name) == ExtractExtension(filename) && ExtractExtension(name).value in allowed
  {
    var ext := ExtractExtension(filename).value;
    LastIndexOfSeparator(mediaId, '.', ext);
    assert (mediaId + "." + ext)[|mediaId| + 1..] == ext;
  }

  /** An uploaded file, as werkzeug's FileStorage: absent, or present with
      a file name; a FileStorage with an empty file name is falsy. */
  datatype Upload = NoFile | File(filename: string)

  predicate UploadTruthy(u: Upload) {
    u.File? && u.filename != ""
  }

  datatype PostResult = CouldNotPost | Posted(media: Option<string>)

  /** `User.post_message`, given whether the recipient exists, the media
      id a new Media would get, and the allowed extensions. */
  function PostMessage(toEmail: string, message: string, media: Upload, recipientExists: bool,
                       mediaId: string, allowed: set<string>): (r: PostResult)
    ensures r.Posted? ==> toEmail != "" && (message != "" || UploadTruthy(media)) && recipientExists
    ensures toEmail == "" || (message == "" && !UploadTruthy(media)) ==> r == CouldNotPost
    ensures r.Posted? ==> (r.media.Some? <==> UploadTruthy(media))
    ensures r.Posted? && r.media.Some? ==> PostMediaName(mediaId, media.filename, allowed) == r.media
    ensures UploadTruthy(media) && !AllowedMedia(media.filename, allowed) ==> r == CouldNotPost
    ensures (toEmail != "" && (message != "" || UploadTruthy(media)) && recipientExists &&
             (!UploadTruthy(media) || AllowedMedia(media.filename, allowed))) ==> r.Posted?
  {
    if !(toEmail != "" && (message != "" || UploadTruthy(media))) then CouldNotPost
    else if !recipientExists then CouldNotPost
    else if UploadTruthy(media) then
      match PostMediaName(mediaId, media.filename, allowed)
      case None => CouldNotPost
      case Some(name) => Posted(Some(name))
    else Posted(None)
  }

  const UserInfoKeys: set<string> := {"email", "first_name", "family_name", "gender", "city", "country"}

  /** `_create_user_info`: the public fields, never the password. */
  function CreateUserInfo(u: User): (info: map<string, string>)
    ensures info.Keys == UserInfoKeys && "password" !in info
    ensures info["email"] == u.email && info["first_name"] == u.firstName && info["family_name"] == u.familyName
    ensures info["gender"] == u.gender && info["city"] == u.city && info["country"] == u.country
  {
    map["email" := u.email, "first_name" := u.firstName, "family_name" := u.familyName,
        "gender" := u.gender, "city" := u.city, "country" := u.country]
  }

  /** Nothing about the password reaches the projection. */
  lemma UserInfoHidesPassword(u: User, password: string)
    ensures CreateUserInfo(u.(password := password)) == CreateUserInfo(u)
  {
  }

  /** `_is_auth_data_valid(request.authorization)`: no parsed Basic
      credentials (None) raise an AttributeError and count as invalid;
      otherwise both parts must be non-empty. */
  predicate IsAuthDataValid(auth: Option<(string, string)>) {
    auth.Some? && auth.value.1 != "" && auth.value.0 != ""
  }

  /** Python truthiness of a JSON value: empty arrays and objects are
      falsy here, unlike in JavaScript. */
  predicate PyTruthy(v: Value) {
    match v
    case Undefined => false
    case Null => false
    case Bool(b) => b
    case Num(n) => n != 0
    case Str(s) => s != ""
    case Arr(items) => items != []
    case Obj(props) => props != []
  }

  datatype Check = Accepted | Refused | Raised

  /** `_is_password_data_valid(request.get_json())`: a missing key is a
      refusal (KeyError is caught); indexing anything but an object raises
      a TypeError, which is not caught. */
  function IsPasswordDataValid(data: Value): (r: Check)
    ensures r == Raised <==> !data.Obj?
    ensures data.Obj? ==>
      (r == Accepted <==> PyTruthy(Lookup(data.props, "oldPassword")) && PyTruthy(Lookup(data.props, "newPassword")))
    ensures data.Obj? && (forall i :: 0 <= i < |data.props| ==> data.props[i].0 != "oldPassword") ==> r == Refused
    ensures data.Obj? && (forall i :: 0 <= i < |data.props| ==> data.props[i].0 != "newPassword") ==> r == Refused
  {
    match data
    case Obj(props) =>
      var old_, new_ := Lookup(props, "oldPassword"), Lookup(props, "newPassword");
      if old_ == Undefined then Refused
      else if !PyTruthy(old_) then Refused
      else if new_ == Undefined then Refused
      else if PyTruthy(new_) then Accepted else Refused
    case _ => Raised
  }

  /** What a statistics frame carries. */
  datatype Statistics = Statistics(nbConnectedUsers: nat, nbPosts: nat, nbViews: nat)

  datatype Frame = Frame(socket: nat, stats: Statistics)

  /** A listing of the registry's keys, each once: the order in which the
      dictionary is iterated, which Python does not fix. */
  predicate ListsKeys(order: seq<string>, keys: set<string>) {
    |order| == |keys|
    && (forall i :: 0 <= i < |order| ==> order[i] in keys)
    && (forall i, j :: 0 <= i < j < |order| ==> order[i] != order[j])
  }

  /** The registry `connected_socket`: one socket (by id) per user, keyed
      by e-mail address because users compare and hash by address. */
  class Registry {
    var connected: map<string, nat>
    /** The sockets the registry has closed, in order. */
    var closed: seq<nat>
    /** The statistics frames sent, in order. */
    var frames: seq<Frame>

    constructor ()
      ensures connected == map[] && closed == [] && frames == []
    {
      connected, closed, frames := map[], [], [];
    }

    /** `pop_user(token)`: `sessions` maps live tokens to their user's
        address (Session.get_user). An unknown token returns None and
        changes nothing; otherwise the user's socket, if any, is closed
        and dropped. */
    method PopUser(token: string, sessions: map<string, string>) returns (r: Option<string>)
      modifies this
      ensures token !in sessions ==> r.None? && connected == old(connected) && closed == old(closed)
      ensures token in sessions ==> r == Some(sessions[token])
      ensures token in sessions ==> connected == old(connected) - {sessions[token]}
      ensures token in sessions ==>
        closed == old(closed) + (if sessions[token] in old(connected) then [old(connected)[sessions[token]]] else [])
      ensures frames == old(frames)
    {
      if token !in sessions {
        return None;
      }
      var user := sessions[token];
      if user in connected {
        closed := closed + [connected[user]];
        connected := connected - {user};
      }
      r := Some(user);
    }

    /** `_authenticate_user(token, ws)`: pops the user's previous socket
        (closing it) and registers `ws` in its place. */
    method AuthenticateUser(token: string, ws: nat, sessions: map<string, string>) returns (ok: bool)
      modifies this
      ensures ok <==> token in sessions
      ensures !ok ==> connected == old(connected) && closed == old(closed)
      ensures ok ==> connected == old(connected)[sessions[token] := ws]
      ensures ok ==>
        closed == old(closed) + (if sessions[token] in old(connected) then [old(connected)[sessions[token]]] else [])
      ensures frames == old(frames)
    {
      var user := PopUser(token, sessions);
      if user.None? {
        return false;
      }
      connected := connected[user.value := ws];
      ok := true;
    }

    /** `send_statistics()`: one frame to every registered socket, in
        iteration order `order`, carrying the registry size and that
        user's post and view counts (from the database: `posts`, `views`).
        `dead` holds the sockets closed outside the registry: the
        connection loop closes the socket of an expired session, and the
        registry keeps it. Sending on one raises WebSocketError, which
        ends the loop and leaves `send_statistics` (`raised`). */
    method SendStatistics(order: seq<string>, posts: string -> nat, views: string -> nat, dead: set<nat>)
      returns (raised: bool)
      requires ListsKeys(order, connected.Keys)
      modifies this
      ensures connected == old(connected) && closed == old(closed)
      ensures raised <==> exists i :: 0 <= i < |order| && connected[order[i]] in dead
      ensures |old(frames)| <= |frames| <= |old(frames)| + |order| && frames[..|old(frames)|] == old(frames)
      ensures forall i :: 0 <= i < |frames| - |old(frames)| ==>
        && connected[order[i]] !in dead
        && frames[|old(frames)| + i] == Frame(connected[order[i]], Statistics(|connected|, posts(order[i]), views(order[i])))
      ensures !raised ==> |frames| == |old(frames)| + |order|
      ensures raised ==> |frames| < |old(frames)| + |order| && connected[order[|frames| - |old(frames)|]] in dead
    {
      var i := 0;
      while i < |order|
        invariant 0 <= i <= |order|
        invariant connected == old(connected) && closed == old(closed)
        invariant |frames| == |old(frames)| + i && frames[..|old(frames)|] == old(frames)
        invariant forall k :: 0 <= k < i ==>
          && connected[order[k]] !in dead
          && frames[|old(frames)| + k] == Frame(connected[order[k]], Statistics(|connected|, posts(order[k]), views(order[k])))
      {
        var k := order[i];
        if connected[k] in dead {
          return true;
        }
        frames := frames + [Frame(connected[k], Statistics(|connected|, posts(k), views(k)))];
        i := i + 1;
      }
      raised := false;
    }
  }

  /** Every registered user gets exactly one statistics frame from a
      `send_statistics` run that does not raise. */
  lemma {:induction false} OneFramePerUser(order: seq<string>, keys: set<string>, user: string)
    requires ListsKeys(order, keys) && user in keys
    ensures exists i :: 0 <= i < |order| && order[i] == user
    ensures forall i, j :: 0 <= i < |order| && 0 <= j < |order| && order[i] == user && order[j] == user ==> i == j
  {
    var listed := set i | 0 <= i < |order| :: order[i];
    CardinalityOfListing(order);
    EqualCardinalitySubset(listed, keys);
    assert user in listed;
  }

  lemma {:induction false} CardinalityOfListing(order: seq<string>)
    requires forall i, j :: 0 <= i < j < |order| ==> order[i] != order[j]
    ensures |set i | 0 <= i < |order| :: order[i]| == |order|
  {
    if order != [] {
      var init := order[..|order| - 1];
      CardinalityOfListing(init);
      var s := set i | 0 <= i < |init| :: init[i];
      var t := set i | 0 <= i < |order| :: order[i];
      assert t == s + {order[|order| - 1]};
      assert order[|order| - 1] !in s;
    }
  }

  lemma EqualCardinalitySubset(a: set<string>, b: set<string>)
    requires a <= b && |a| == |b|
    ensures a == b
  {
    assert b == a + (b - a);
    assert |b - a| == 0;
  }
}
