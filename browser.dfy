/** The browser objects the client drives, reduced to a record of what was
    done to them: an XMLHttpRequest remembers how it was opened, which
    headers were set, which bodies went out and whether it can still be
    configured; a WebSocket remembers its URL, its sub-protocols, the
    frames sent and how often `close` was called; localStorage is a
    string-to-string map. Network
    completion is not part of these objects: it reaches the client as
    events, which the modules above them take as parameters. */
module Browser {
  import opened JsValues

  /** `XMLHttpRequest.DONE`. */
  const DONE := 4

  /** A part of a multipart form: text, or a file (by its name). */
  datatype FormEntry = FormText(text: string) | FormFile(fileName: string)

  /** What `xhr.send` is given: a string, the JSON text of a value (before
      serialisation), or a FormData object. */
  datatype Body = Text(text: string) | JsonText(json: Value) | Form(entries: seq<(string, FormEntry)>)

  /** JavaScript truthiness of a request body: only the empty string is
      falsy; a JSON text is never empty and a FormData is an object. */
  predicate BodyTruthy(b: Body) {
    !(b.Text? && b.text == "")
  }

  /** `location.protocol` and `location.host` of the page. */
  datatype Location = Location(protocol: string, host: string)

  class Xhr {
    var verb: string
    var url: string
    var headers: seq<(string, string)>
    var sent: seq<Body>
    /** The request is OPENED with the send() flag unset: the only state in
        which `setRequestHeader` and `send` do not throw InvalidStateError.
        It is set by `open` and cleared by `send`. */
    var configurable: bool

    constructor ()
      ensures verb == "" && url == "" && headers == [] && sent == [] && !configurable
    {
      verb, url, headers, sent := "", "", [], [];
      configurable := false;
    }

    /** `open(m, u)`: a request that was never sent is made configurable,
        with no author headers. */
    method Open(m: string, u: string)
      modifies this
      ensures verb == m && url == u && headers == [] && configurable
      ensures sent == old(sent)
    {
      verb, url, headers := m, u, [];
      configurable := true;
    }

    /** `setRequestHeader(name, value)`; `ok` is false when it throws
        InvalidStateError, which changes nothing. */
    method SetRequestHeader(name: string, value: string) returns (ok: bool)
      modifies this
      ensures ok <==> old(configurable)
      ensures headers == if ok then old(headers) + [(name, value)] else old(headers)
      ensures verb == old(verb) && url == old(url) && sent == old(sent) && configurable == old(configurable)
    {
      if !configurable {
        return false;
      }
      headers := headers + [(name, value)];
      ok := true;
    }

    /** `send(body)`: the body goes out once; `ok` is false when it throws
        InvalidStateError (the request was not opened, or was already
        sent), which changes nothing. */
    method Send(body: Body) returns (ok: bool)
      modifies this
      ensures ok <==> old(configurable)
      ensures sent == if ok then old(sent) + [body] else old(sent)
      ensures !configurable
      ensures verb == old(verb) && url == old(url) && headers == old(headers)
    {
      if !configurable {
        return false;
      }
      sent := sent + [body];
      configurable := false;
      ok := true;
    }
  }

  class WebSocket {
    const url: string
    const protocols: seq<string>
    var frames: seq<Value>
    var closeRequests: nat

    constructor (url: string, protocols: seq<string>)
      ensures this.url == url && this.protocols == protocols
      ensures frames == [] && closeRequests == 0
    {
      this.url, this.protocols := url, protocols;
      frames, closeRequests := [], 0;
    }

    /** `socket.send(JSON.stringify(frame))`, recorded before serialisation. */
    method Send(frame: Value)
      modifies this
      ensures frames == old(frames) + [frame] && closeRequests == old(closeRequests)
    {
      frames := frames + [frame];
    }

    method Close()
      modifies this
      ensures closeRequests == old(closeRequests) + 1 && frames == old(frames)
    {
      closeRequests := closeRequests + 1;
    }
  }

  class LocalStorage {
    var items: map<string, string>

    constructor (items: map<string, string>)
      ensures this.items == items
    {
      this.items := items;
    }

    /** `localStorage.getItem(key)`: the stored string, or `null`. */
    function GetItem(key: string): (r: Value)
      reads this
      ensures r == Null <==> key !in items
      ensures key in items ==> r == Str(items[key])
    {
      if key in items then Str(items[key]) else Null
    }

    /** `localStorage.setItem(key, value)` stores `String(value)`. */
    method SetItem(key: string, value: Value)
      modifies this
      ensures items == old(items)[key := ToJsString(value)]
    {
      items := items[key := ToJsString(value)];
    }
  }
}
