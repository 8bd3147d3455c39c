/**
 * The IAM gateway's local logic: normalising the response's content type,
 * classifying a response as not found, an error or decoded data, and
 * building the payload that creates a one-time session.
 */
module Gateway {
  import opened Wrappers
  import opened Php
  import opened Users

  /** A character the pattern `\s` matches. */
  predicate IsSpace(c: char) {
    c == ' ' || c == '\t' || c == '\n' || c == '\r' || c == '\U{000B}' || c == '\U{000C}'
  }

  /** The index of the first `c` in `s`, or `|s|` when there is none. */
  function IndexOf(s: string, c: char): (r: nat)
    ensures r <= |s|
    ensures r < |s| ==> s[r] == c
    ensures c !in s[..r]
    ensures r == |s| <==> c !in s
  {
    if |s| == 0 then 0
    else if s[0] == c then 0
    else
      assert s[1..][..IndexOf(s[1..], c)] == s[1..IndexOf(s[1..], c) + 1];
      assert s[..IndexOf(s[1..], c) + 1] == [s[0]] + s[1..IndexOf(s[1..], c) + 1];
      1 + IndexOf(s[1..], c)
  }

  /** `s` without its trailing whitespace. */
  function TrimEnd(s: string): (r: string)
    ensures |r| <= |s| && r == s[..|r|]
    ensures forall i :: |r| <= i < |s| ==> IsSpace(s[i])
    ensures |r| > 0 ==> !IsSpace(r[|r| - 1])
  {
    if |s| == 0 || !IsSpace(s[|s| - 1]) then s
    else TrimEnd(s[..|s| - 1])
  }

  /**
   * `preg_replace('/\s*;.*$/', '', $header)`: everything from the first `;`
   * on is removed, together with the whitespace right before it.
   */
  function StripParameters(header: string): (r: string)
    ensures ';' !in header ==> r == header
    ensures ';' in header ==>
      var k := IndexOf(header, ';');
      |r| <= k && r == header[..|r|] &&
      (forall i :: |r| <= i < k ==> IsSpace(header[i])) &&
      (|r| > 0 ==> !IsSpace(r[|r| - 1]))
    ensures ';' !in r
  {
    var k := IndexOf(header, ';');
    if k == |header| then header
    else
      assert header[..k][..|TrimEnd(header[..k])|] == header[..|TrimEnd(header[..k])|];
      TrimEnd(header[..k])
  }

  /**
   * When the first `;` is not preceded by whitespace, the normalised content
   * type is exactly the text before it.
   */
  lemma StripParametersAt(header: string, k: nat)
    requires k < |header| && header[k] == ';' && ';' !in header[..k]
    requires k > 0 ==> !IsSpace(header[k - 1])
    ensures StripParameters(header) == header[..k]
  {
  }

  /** A charset parameter is dropped from a JSON content type. */
  lemma StripCharsetExample()
    ensures StripParameters("application/json; charset=utf-8") == "application/json"
  {
    var h := "application/json; charset=utf-8";
    assert h[..16] == "application/json";
    StripParametersAt(h, 16);
  }

  /** The outcome of a request. */
  datatype Response = NotFound | Failure(message: string) | Ok(data: Json)

  /** The prefix of every gateway error message. */
  function FailurePrefix(url: string): (r: string) {
    "Failed to fetch '" + url + "' from IAM: "
  }

  /** The two content types the gateway accepts. */
  predicate IsAccepted(contentType: string) {
    contentType == "application/json" || contentType == "text/plain"
  }

  /**
   * Classify a response by its status, its raw `Content-Type` header and
   * its body; `decode` is `json_decode`, giving `JNull` on malformed input.
   */
  function Classify(status: int, header: string, body: string, url: string, decode: string -> Json): (r: Response)
    ensures var t := StripParameters(header);
      (r.NotFound? <==> status == 404 && t == "text/plain") &&
      (r.Ok? <==> status < 300 && IsAccepted(t) && JsonTruthy(decode(body))) &&
      (r.Ok? ==> r.data == decode(body))
    ensures r.Failure? ==> var t := StripParameters(header);
      if status >= 300 || !IsAccepted(t) then
        r.message == FailurePrefix(url) +
          (if t == "text/plain" then body else "Server responded with a " + IntToString(status) + " status and " + t)
      else r.message == FailurePrefix(url) + "Corrupt JSON response"
  {
    var contentType := StripParameters(header);
    if status == 404 && contentType == "text/plain" then NotFound
    else if status >= 300 || !IsAccepted(contentType) then
      var message := if contentType == "text/plain" then body
        else "Server responded with a " + IntToString(status) + " status and " + contentType;
      Failure(FailurePrefix(url) + message)
    else
      var data := decode(body);
      if !JsonTruthy(data) then Failure(FailurePrefix(url) + "Corrupt JSON response")
      else Ok(data)
  }

  /** A 404 is "not found" only when it is plain text; as JSON it is an error naming the status. */
  lemma NotFoundNeedsPlainText(header: string, body: string, url: string, decode: string -> Json)
    requires StripParameters(header) == "application/json"
    ensures Classify(404, header, body, url, decode) ==
      Failure(FailurePrefix(url) + "Server responded with a " + IntToString(404) + " status and application/json")
  {
  }

  /** A plain-text error reports the body as its message. */
  lemma PlainTextErrorCarriesBody(status: int, header: string, body: string, url: string, decode: string -> Json)
    requires status >= 300 && status != 404
    requires StripParameters(header) == "text/plain"
    ensures Classify(status, header, body, url, decode) == Failure(FailurePrefix(url) + body)
  {
  }

  /** The party of a one-time session: a registered user or an external identity. */
  datatype Party = Registered(user: User) | External(party: Json)

  /** The `action` entry of the payload; `data: None` means the key is absent. */
  datatype Action = Action(state: string, data: Option<Json>)

  /**
   * The body of `POST /sessions`. `user` and `party` are the two possible
   * party keys; `None` means the key is absent.
   */
  datatype Payload = Payload(user: Option<User>, party: Option<Json>, action: Action)

  /** Build the one-time session payload entry by entry; `data` is `JNull` when not given. */
  method OneTimeSessionPayload(party: Party, state: string, data: Json) returns (payload: Payload)
    ensures payload.user.Some? <==> party.Registered?
    ensures payload.party.Some? <==> party.External?
    ensures !(payload.user.Some? && payload.party.Some?)
    ensures party.Registered? ==> payload.user == Some(party.user)
    ensures party.External? ==> payload.party == Some(party.party)
    ensures payload.action.state == state
    ensures payload.action.data.Some? <==> data != JNull
    ensures payload.action.data.Some? ==> payload.action.data.value == data
  {
    payload := Payload(None, None, Action("", None));
    match party {
      case Registered(u) => payload := payload.(user := Some(u));
      case External(p) => payload := payload.(party := Some(p));
    }
    payload := payload.(action := payload.action.(state := state));
    if data != JNull {
      payload := payload.(action := payload.action.(data := Some(data)));
    }
  }
}
