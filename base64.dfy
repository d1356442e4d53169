/** The base64 encoding of section 4 of RFC 4648, as the browser's `btoa`
    applies it to a string of Latin-1 characters, with the decoder that
    undoes it. */
module Base64 {
  import opened JsValues

  type Byte = x: int | 0 <= x < 256
  type Sextet = x: int | 0 <= x < 64

  /** The 64-character alphabet of RFC 4648, section 4 (Table 1). */
  function Symbol(i: Sextet): (c: char)
    ensures c != '='
  {
    if i < 26 then ('A' as int + i) as char
    else if i < 52 then ('a' as int + (i - 26)) as char
    else if i < 62 then ('0' as int + (i - 52)) as char
    else if i == 62 then '+'
    else '/'
  }

  /** Inverse of Symbol: None for a character outside the alphabet. */
  function SymbolIndex(c: char): (r: Option<Sextet>)
  {
    if 'A' <= c <= 'Z' then Some(c as int - 'A' as int)
    else if 'a' <= c <= 'z' then Some(c as int - 'a' as int + 26)
    else if '0' <= c <= '9' then Some(c as int - '0' as int + 52)
    else if c == '+' then Some(62)
    else if c == '/' then Some(63)
    else None
  }

  lemma SymbolIndexInverse(i: Sextet)
    ensures SymbolIndex(Symbol(i)) == Some(i)
  {
  }

  /** The four sextets of a group of three octets (missing octets count
      as zero bits). */
  function Split(b0: Byte, b1: Byte, b2: Byte): (r: (Sextet, Sextet, Sextet, Sextet))
  {
    (b0 / 4, (b0 % 4) * 16 + b1 / 16, (b1 % 16) * 4 + b2 / 64, b2 % 64)
  }

  /** The octets four sextets carry, most significant bit first. */
  function Join(e0: Sextet, e1: Sextet, e2: Sextet, e3: Sextet): (r: seq<Byte>)
  {
    [e0 * 4 + e1 / 16, (e1 % 16) * 16 + e2 / 4, (e2 % 4) * 64 + e3]
  }

  lemma JoinSplit(b0: Byte, b1: Byte, b2: Byte)
    ensures var e := Split(b0, b1, b2); Join(e.0, e.1, e.2, e.3) == [b0, b1, b2]
  {
  }

  /** Encoding: every group of three octets becomes four symbols; a final
      group of one or two octets is padded with "==" or "=". */
  function Encode(b: seq<Byte>): (r: string)
    decreases |b|
  {
    if |b| == 0 then []
    else
      var e := Split(b[0], if |b| > 1 then b[1] else 0, if |b| > 2 then b[2] else 0);
      if |b| == 1 then [Symbol(e.0), Symbol(e.1), '=', '=']
      else if |b| == 2 then [Symbol(e.0), Symbol(e.1), Symbol(e.2), '=']
      else [Symbol(e.0), Symbol(e.1), Symbol(e.2), Symbol(e.3)] + Encode(b[3..])
  }

  /** Decoding of a padded base64 text; None when the text is not a
      sequence of four-symbol groups over the alphabet. */
  function Decode(s: string): (r: Option<seq<Byte>>)
    decreases |s|
  {
    if |s| < 4 then (if |s| == 0 then Some([]) else None)
    else if SymbolIndex(s[0]).None? || SymbolIndex(s[1]).None? then None
    else
      var e0, e1 := SymbolIndex(s[0]).value, SymbolIndex(s[1]).value;
      if |s| == 4 && s[2] == '=' && s[3] == '=' then Some(Join(e0, e1, 0, 0)[..1])
      else if SymbolIndex(s[2]).None? then None
      else
        var e2 := SymbolIndex(s[2]).value;
        if |s| == 4 && s[3] == '=' then Some(Join(e0, e1, e2, 0)[..2])
        else if SymbolIndex(s[3]).None? then None
        else
          match Decode(s[4..])
          case Some(rest) => Some(Join(e0, e1, e2, SymbolIndex(s[3]).value) + rest)
          case None => None
  }

  /** Decoding undoes encoding, for every octet sequence. */
  lemma {:induction false} DecodeEncode(b: seq<Byte>)
    ensures Decode(Encode(b)) == Some(b)
    decreases |b|
  {
    if |b| > 0 {
      var b1, b2 := if |b| > 1 then b[1] else 0, if |b| > 2 then b[2] else 0;
      var e := Split(b[0], b1, b2);
      JoinSplit(b[0], b1, b2);
      SymbolIndexInverse(e.0);
      SymbolIndexInverse(e.1);
      SymbolIndexInverse(e.2);
      SymbolIndexInverse(e.3);
      var s := Encode(b);
      if |b| == 1 {
        assert b == Join(e.0, e.1, 0, 0)[..1];
      } else if |b| == 2 {
        assert b == Join(e.0, e.1, e.2, 0)[..2];
      } else {
        assert s == [Symbol(e.0), Symbol(e.1), Symbol(e.2), Symbol(e.3)] + Encode(b[3..]);
        assert s[4..] == Encode(b[3..]);
        DecodeEncode(b[3..]);
        assert b == Join(e.0, e.1, e.2, e.3) + b[3..];
      }
    }
  }

  /** Every character of the string fits in one octet, which `btoa`
      requires (otherwise it throws InvalidCharacterError). */
  predicate Latin1(s: string) {
    forall i :: 0 <= i < |s| ==> s[i] as int < 256
  }

  function Octets(s: string): (b: seq<Byte>)
    requires Latin1(s)
    ensures |b| == |s| && forall i :: 0 <= i < |s| ==> b[i] == s[i] as int
  {
    seq(|s|, i requires 0 <= i < |s| => s[i] as int)
  }

  function Chars(b: seq<Byte>): (s: string)
    ensures |s| == |b| && forall i :: 0 <= i < |b| ==> s[i] as int == b[i]
  {
    seq(|b|, i requires 0 <= i < |b| => b[i] as char)
  }

  /** `btoa(s)`: None stands for the InvalidCharacterError it throws on a
      character above U+00FF. */
  function Btoa(s: string): (r: Option<string>)
    ensures r.Some? <==> Latin1(s)
  {
    if Latin1(s) then Some(Encode(Octets(s))) else None
  }

  /** `atob` restricted to what `btoa` produces. */
  function Atob(s: string): (r: Option<string>)
  {
    match Decode(s)
    case Some(b) => Some(Chars(b))
    case None => None
  }

  lemma AtobBtoa(s: string)
    requires Latin1(s)
    ensures Btoa(s).Some? && Atob(Btoa(s).value) == Some(s)
  {
    DecodeEncode(Octets(s));
    assert Chars(Octets(s)) == s;
  }
}

/** The "Basic" HTTP authentication scheme of section 2 of RFC 7617: the
    credentials are user-id ":" password, base64-encoded. */
module BasicAuth {
  import opened JsValues
  import Base64

  /** "Basic " + btoa(user + ":" + password); None when btoa throws. */
  function Authorization(user: string, password: string): (r: Option<string>)
    ensures r.Some? <==> Base64.Latin1(user + ":" + password)
    ensures r.Some? ==> |r.value| >= 6 && r.value[..6] == "Basic "
  {
    match Base64.Btoa(user + ":" + password)
    case Some(t) => Some("Basic " + t)
    case None => None
  }

  /** What a server reads back from the header: the decoded text split at
      its first colon, as section 2 of RFC 7617 prescribes (a user-id
      cannot contain a colon; a password can). */
  function Credentials(header: string): (r: Option<(string, string)>)
  {
    if |header| < 6 || header[..6] != "Basic " then None
    else
      match Base64.Atob(header[6..])
      case None => None
      case Some(text) =>
        if ':' in text then
          var i := FirstIndexOf(text, ':');
          Some((text[..i], text[i + 1..]))
        else None
  }

  lemma FirstColonOf(user: string, password: string)
    requires ':' !in user
    ensures FirstIndexOf(user + ":" + password, ':') == |user|
  {
    var s := user + ":" + password;
    FirstIndexOfIsFirst(s, ':', |user|);
    assert forall k :: 0 <= k < |user| ==> s[k] == user[k];
  }

  /** The server gets back exactly the user and password the client
      encoded, and only when the user contains no colon; otherwise the
      split happens inside the user name. */
  lemma {:induction false} CredentialsRoundTrip(user: string, password: string)
    requires Base64.Latin1(user + ":" + password)
    ensures Authorization(user, password).Some?
    ensures Credentials(Authorization(user, password).value) == Some((user, password)) <==> ':' !in user
  {
    var text := user + ":" + password;
    var h := Authorization(user, password).value;
    Base64.AtobBtoa(text);
    assert h[6..] == Base64.Btoa(text).value;
    assert ':' in text by { assert text[|user|] == ':'; }
    var i := FirstIndexOf(text, ':');
    if ':' !in user {
      FirstColonOf(user, password);
      assert text[..i] == user;
      assert text[i + 1..] == password;
    } else {
      var j := FirstIndexOf(user, ':');
      assert text[j] == ':';
      FirstIndexOfIsFirst(text, ':', j);
      assert |text[..i]| < |user|;
    }
  }
}
