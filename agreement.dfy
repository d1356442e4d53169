/** Where the client's rules meet the server's: the password length
    rule, the media extension a posted file keeps, and the Basic
    credentials the sign-in request carries. */
module Agreement {
  import opened JsValues
  import Common
  import Client
  import TwidderServer
  import BasicAuth
  import Base64

  /** The server's password rule implies the client's length check; the
      two agree on passwords within the Basic Multilingual Plane (outside
      it the client counts two units per character and accepts shorter
      passwords). */
  lemma {:induction false} PasswordRulesAgree(password: string)
    ensures TwidderServer.IsPasswordValid(password) ==> Common.IsPasswordLengthValid(Str(password))
    ensures (forall i :: 0 <= i < |password| ==> password[i] as int < 0x10000) ==>
      (TwidderServer.IsPasswordValid(password) <==> Common.IsPasswordLengthValid(Str(password)))
  {
    Common.PasswordLengthRule(Str(password));
  }

  /** For a name holding a ".", the client's extension is the server's. */
  lemma ExtensionsAgree(name: string)
    requires '.' in name
    ensures TwidderServer.ExtractExtension(name).Some?
    ensures Client.Extension(name) == TwidderServer.ExtractExtension(name).value
  {
  }

  /** A media file the server stores under a fresh id is classified by the
      client by the extension the file was uploaded with. */
  lemma {:induction false} StoredMediaKeepsExtension(mediaId: string, filename: string, allowed: set<string>)
    requires TwidderServer.AllowedMedia(filename, allowed)
    ensures var stored := TwidderServer.PostMediaName(mediaId, filename, allowed);
      stored.Some? && Client.Extension(stored.value) == TwidderServer.ExtractExtension(filename).value
  {
    var stored := TwidderServer.PostMediaName(mediaId, filename, allowed).value;
    TwidderServer.MediaNameKeepsExtension(mediaId, filename, allowed);
    assert stored[|mediaId|] == '.';
    ExtensionsAgree(stored);
  }

  /** The header the client's `signIn` sends passes the server's
      `_is_auth_data_valid` exactly when the e-mail address and the
      password are non-empty, provided the address holds no colon. */
  lemma {:induction false} SignInHeaderAccepted(email: string, password: string)
    requires Base64.Latin1(email + ":" + password) && ':' !in email
    ensures var header := BasicAuth.Authorization(email, password);
      header.Some? &&
      (TwidderServer.IsAuthDataValid(BasicAuth.Credentials(header.value)) <==> email != "" && password != "")
  {
    BasicAuth.CredentialsRoundTrip(email, password);
  }
}
