/** The `send-sos-sms` edge function: it authenticates the caller, checks the
    messaging-provider configuration and the payload, sends one WhatsApp message
    per contact through the provider, and reports per-contact outcomes and tallies.

    The calls it cannot see are parameters: the auth service's claims lookup
    (`getClaims`), the provider's message endpoint (`send`, given the position of
    the contact so that two identical requests may get different replies), and
    JavaScript's `toFixed(6)` rendering of a coordinate (`toFixed6`). */
module SendSos {
  import opened Js

  // ---------------------------------------------------------------------------
  // Data

  /** One recipient of the alert, as the request body lists it. */
  datatype Recipient = Recipient(name: string, phoneNumber: string)

  /** The JSON body of a request (interface SOSRequest); `contacts` and
      `userName` may be missing. */
  datatype SosRequest = SosRequest(
    latitude: real,
    longitude: real,
    mapsLink: string,
    contacts: Option<seq<Recipient>>,
    userName: Option<string>)

  /** An inbound request: its method, its Authorization header (if any), and
      what `req.json()` settles to. */
  datatype HttpRequest = HttpRequest(
    httpMethod: string,
    authorization: Option<string>,
    body: Settled<SosRequest>)

  /** The three provider settings read from the environment. */
  datatype Env = Env(
    accountSid: Option<string>,
    authToken: Option<string>,
    twilioPhone: Option<string>)

  /** The provider settings once all three are present and non-empty. */
  datatype Credentials = Credentials(accountSid: string, authToken: string, twilioPhone: string)

  /** What the auth service's `getClaims(token)` does: throw, or return an
      error flag and whether any claims came back. */
  datatype ClaimsReply =
    | ClaimsThrew(thrown: string)
    | ClaimsReturned(hasError: bool, hasClaims: bool)

  /** One outbound POST to the provider: endpoint, basic-auth credentials and
      the form fields in the order they were appended. */
  datatype ProviderRequest = ProviderRequest(
    url: string,
    accountSid: string,
    authToken: string,
    form: seq<(string, string)>)

  /** What one provider call does: `fetch` or `response.json()` throws, or a
      response arrives with its `ok` flag and the `sid` and `message` fields of
      its JSON (each possibly absent). */
  datatype ProviderReply =
    | Threw(thrown: string)
    | Replied(ok: bool, sid: Option<string>, message: Option<string>)

  /** The normalised outcome for one contact: `{contact, success: true, sid}`
      or `{contact, success: false, error}`. */
  datatype SendResult =
    | Delivered(contact: string, sid: Option<string>)
    | Failed(contact: string, error: Option<string>)

  /** A response body: none (preflight), `{error}`, or the dispatch summary. */
  datatype Body =
    | NoBody
    | ErrorJson(error: string)
    | SummaryJson(success: bool, sent: nat, failed: nat, results: seq<SendResult>)

  datatype Response = Response(status: nat, headers: seq<(string, string)>, body: Body)

  // ---------------------------------------------------------------------------
  // Constants

  const CorsHeaders: seq<(string, string)> := [
    ("Access-Control-Allow-Origin", "*"),
    ("Access-Control-Allow-Headers", "authorization, x-client-info, apikey, content-type")
  ]

  const JsonHeaders: seq<(string, string)> := CorsHeaders + [("Content-Type", "application/json")]

  const BearerPrefix: string := "Bearer "

  const ChannelPrefix: string := "whatsapp:"

  /** The answer to a CORS preflight: `new Response(null, {headers})`, whose
      status defaults to 200. */
  const PreflightResponse: Response := Response(200, CorsHeaders, NoBody)

  const UnauthorizedResponse: Response := Response(401, JsonHeaders, ErrorJson("Unauthorized"))

  const NotConfiguredResponse: Response := Response(500, JsonHeaders, ErrorJson("SMS service not configured"))

  const NoContactsResponse: Response := Response(400, JsonHeaders, ErrorJson("No contacts provided"))

  /** The reply of the outer `catch`: 500 with `String(error)`. */
  function CaughtResponse(thrown: string): Response {
    Response(500, JsonHeaders, ErrorJson(thrown))
  }

  // ---------------------------------------------------------------------------
  // Pre-flight checks

  /** `authHeader?.startsWith("Bearer ")`. */
  predicate BearerPresented(authorization: Option<string>) {
    authorization.Some? && StartsWith(authorization.value, BearerPrefix)
  }

  /** `authHeader.replace("Bearer ", "")`. */
  function BearerToken(header: string): string {
    RemoveFirst(header, BearerPrefix)
  }

  /** Claims were obtained: no error and some claims. */
  predicate ClaimsAccepted(reply: ClaimsReply) {
    reply.ClaimsReturned? && !reply.hasError && reply.hasClaims
  }

  /** All three provider settings are truthy. */
  predicate Configured(env: Env) {
    Truthy(env.accountSid) && Truthy(env.authToken) && Truthy(env.twilioPhone)
  }

  /** The outcome of the pre-flight checks: a response that ends the request,
      or the go-ahead with the credentials, the parsed body and its contacts. */
  datatype Gate =
    | Reject(response: Response)
    | Proceed(credentials: Credentials, request: SosRequest, contacts: seq<Recipient>)

  /** The checks of the handler, in the order it makes them: preflight, bearer
      header, claims, provider configuration, body, contacts. */
  function Preflight(req: HttpRequest, getClaims: string -> ClaimsReply, env: Env): (g: Gate)
    ensures g.Proceed? ==> g.contacts != []
  {
    if req.httpMethod == "OPTIONS" then Reject(PreflightResponse)
    else if !BearerPresented(req.authorization) then Reject(UnauthorizedResponse)
    else
      var claims := getClaims(BearerToken(req.authorization.value));
      if claims.ClaimsThrew? then Reject(CaughtResponse(claims.thrown))
      else if !ClaimsAccepted(claims) then Reject(UnauthorizedResponse)
      else if !Configured(env) then Reject(NotConfiguredResponse)
      else if req.body.Rejected? then Reject(CaughtResponse(req.body.reason))
      else
        var body := req.body.value;
        if body.contacts.None? || body.contacts.value == [] then Reject(NoContactsResponse)
        else Proceed(Credentials(env.accountSid.value, env.authToken.value, env.twilioPhone.value),
                     body, body.contacts.value)
  }

  // ---------------------------------------------------------------------------
  // Message and provider request

  const AlertHeader: string := "\U{1F6A8} EMERGENCY ALERT \U{1F6A8}\n\n"

  /** `userName || "Someone"`. */
  function ActorName(userName: Option<string>): (name: string)
    ensures name != ""
    ensures Truthy(userName) ==> name == userName.value
    ensures !Truthy(userName) ==> name == "Someone"
  {
    if Truthy(userName) then userName.value else "Someone"
  }

  /** The text between the actor name and the map link. */
  const ActorLineTail: string := " needs help!\n\nLocation: "

  /** The emergency message, with the coordinates already rendered by `toFixed(6)`:
      header, actor line and map link, then the coordinates and the instruction. */
  function Message(userName: Option<string>, mapsLink: string, latitude6: string, longitude6: string): string {
    (AlertHeader + ActorName(userName) + ActorLineTail) + mapsLink
      + ("\n\nCoordinates: " + latitude6 + ", " + longitude6
         + "\n\nPlease respond immediately or call emergency services.")
  }

  /** The message names the actor right after its fixed header, and the map
      link right after the actor line. */
  lemma MessageLayout(userName: Option<string>, mapsLink: string, latitude6: string, longitude6: string)
    ensures var m := Message(userName, mapsLink, latitude6, longitude6);
      var a := |AlertHeader| + |ActorName(userName)|;
      var l := a + |ActorLineTail|;
      && StartsWith(m, AlertHeader)
      && l + |mapsLink| <= |m|
      && m[|AlertHeader|..a] == ActorName(userName)
      && m[a..l] == ActorLineTail
      && m[l..l + |mapsLink|] == mapsLink
  {
    var name := ActorName(userName);
    var rest := "\n\nCoordinates: " + latitude6 + ", " + longitude6
      + "\n\nPlease respond immediately or call emergency services.";
    var p := AlertHeader + name + ActorLineTail;
    var m := Message(userName, mapsLink, latitude6, longitude6);
    assert m == p + mapsLink + rest;
    SliceOfConcat(p, mapsLink, rest);
    PrefixOfPrefix(p, mapsLink + rest, AlertHeader + name);
    SliceOfConcat(AlertHeader + name, ActorLineTail, []);
    PrefixOfPrefix(p, mapsLink + rest, AlertHeader);
    SliceOfConcat(AlertHeader, name, ActorLineTail);
  }

  lemma PrefixOfPrefix(x: string, y: string, q: string)
    requires |q| <= |x| && x[..|q|] == q
    ensures (x + y)[..|q|] == q
    ensures forall i, j :: 0 <= i <= j <= |x| ==> (x + y)[i..j] == x[i..j]
  {
  }

  lemma SliceOfConcat(x: string, y: string, z: string)
    ensures (x + y + z)[..|x|] == x
    ensures (x + y + z)[|x|..|x| + |y|] == y
  {
  }

  /** The message endpoint of the provider account. */
  function ProviderUrl(accountSid: string): string {
    "https://api.twilio.com/2010-04-01/Accounts/" + accountSid + "/Messages.json"
  }

  /** The form fields of one send, in the order To, From, Body. */
  function FormFields(to: string, from: string, body: string): (f: seq<(string, string)>)
    ensures |f| == 3 && f[0].0 == "To" && f[1].0 == "From" && f[2].0 == "Body"
  {
    [("To", to), ("From", from), ("Body", body)]
  }

  /** The provider request for one contact, with channel-prefixed addressing. */
  function Outbound(contact: Recipient, creds: Credentials, message: string): ProviderRequest {
    ProviderRequest(
      ProviderUrl(creds.accountSid), creds.accountSid, creds.authToken,
      FormFields(ChannelPrefix + contact.phoneNumber, ChannelPrefix + creds.twilioPhone, message))
  }

  /** The `URLSearchParams` builder the handler appends the form fields to. */
  class FormBuilder {
    var fields: seq<(string, string)>

    constructor ()
      ensures fields == []
    {
      fields := [];
    }

    method Append(name: string, value: string)
      modifies this
      ensures fields == old(fields) + [(name, value)]
    {
      fields := fields + [(name, value)];
    }
  }

  /** Builds the provider request for one contact with three `append` calls. */
  method BuildRequest(contact: Recipient, creds: Credentials, message: string) returns (req: ProviderRequest)
    ensures req == Outbound(contact, creds, message)
  {
    var formData := new FormBuilder();
    formData.Append("To", ChannelPrefix + contact.phoneNumber);
    formData.Append("From", ChannelPrefix + creds.twilioPhone);
    formData.Append("Body", message);
    req := ProviderRequest(ProviderUrl(creds.accountSid), creds.accountSid, creds.authToken, formData.fields);
  }

  /** How the handler turns one provider call into a per-contact outcome. */
  function Normalise(name: string, reply: ProviderReply): (r: SendResult)
    ensures r.contact == name
    ensures r.Delivered? <==> reply.Replied? && reply.ok
    ensures r.Delivered? ==> r.sid == reply.sid
    ensures reply.Threw? ==> r == Failed(name, Some(reply.thrown))
    ensures reply.Replied? && !reply.ok ==> r == Failed(name, reply.message)
  {
    match reply
    case Threw(e) => Failed(name, Some(e))
    case Replied(ok, sid, message) => if ok then Delivered(name, sid) else Failed(name, message)
  }

  // ---------------------------------------------------------------------------
  // Tallies

  /** `results.filter((r) => r.success)`. */
  function Successes(rs: seq<SendResult>): (s: seq<SendResult>)
    ensures |s| <= |rs|
    ensures forall r :: r in s ==> r in rs && r.Delivered?
    ensures forall r :: r in rs && r.Delivered? ==> r in s
  {
    if rs == [] then []
    else if rs[0].Delivered? then [rs[0]] + Successes(rs[1..])
    else Successes(rs[1..])
  }

  /** `results.filter((r) => !r.success)`. */
  function Failures(rs: seq<SendResult>): (s: seq<SendResult>)
    ensures |s| <= |rs|
    ensures forall r :: r in s ==> r in rs && r.Failed?
    ensures forall r :: r in rs && r.Failed? ==> r in s
  {
    if rs == [] then []
    else if rs[0].Failed? then [rs[0]] + Failures(rs[1..])
    else Failures(rs[1..])
  }

  function SentCount(rs: seq<SendResult>): nat { |Successes(rs)| }

  function FailedCount(rs: seq<SendResult>): nat { |Failures(rs)| }

  /** Every outcome is counted exactly once. */
  lemma {:induction false} TalliesPartition(rs: seq<SendResult>)
    ensures SentCount(rs) + FailedCount(rs) == |rs|
  {
    if rs != [] {
      TalliesPartition(rs[1..]);
    }
  }

  /** The two filters split the outcomes between them: each outcome lands in
      exactly one of them, as often as it occurs, so `sent` is the number of
      successful outcomes and `failed` the number of failed ones. */
  lemma {:induction false} TalliesSplitOutcomes(rs: seq<SendResult>)
    ensures multiset(Successes(rs)) + multiset(Failures(rs)) == multiset(rs)
  {
    if rs != [] {
      TalliesSplitOutcomes(rs[1..]);
      assert rs == [rs[0]] + rs[1..];
    }
  }

  /** Nothing was sent exactly when every outcome is a failure. */
  lemma {:induction false} NoneSentIffAllFailed(rs: seq<SendResult>)
    ensures SentCount(rs) == 0 <==> forall i :: 0 <= i < |rs| ==> rs[i].Failed?
  {
    if rs != [] {
      NoneSentIffAllFailed(rs[1..]);
      assert forall i :: 1 <= i < |rs| ==> rs[i] == rs[1..][i - 1];
    }
  }

  /** Everything was sent exactly when no outcome is a failure. */
  lemma {:induction false} AllSentIffNoneFailed(rs: seq<SendResult>)
    ensures SentCount(rs) == |rs| <==> forall i :: 0 <= i < |rs| ==> rs[i].Delivered?
  {
    if rs != [] {
      AllSentIffNoneFailed(rs[1..]);
      assert forall i :: 1 <= i < |rs| ==> rs[i] == rs[1..][i - 1];
    }
  }

  // ---------------------------------------------------------------------------
  // Fan-out and the handler

  /** `Promise.all(contacts.map(...))`, run one contact after the other: slot i
      of the result holds the outcome of the send to contact i. Also returns
      the provider requests issued, in order. */
  method Dispatch(contacts: seq<Recipient>, creds: Credentials, message: string,
                  send: (nat, ProviderRequest) -> ProviderReply)
    returns (results: seq<SendResult>, sends: seq<ProviderRequest>)
    ensures |results| == |contacts| && |sends| == |contacts|
    ensures forall i :: 0 <= i < |contacts| ==>
      sends[i] == Outbound(contacts[i], creds, message)
      && results[i] == Normalise(contacts[i].name, send(i, sends[i]))
  {
    var slots := new SendResult[|contacts|];
    sends := [];
    var i := 0;
    while i < |contacts|
      invariant 0 <= i <= |contacts|
      invariant |sends| == i
      invariant forall k :: 0 <= k < i ==>
        sends[k] == Outbound(contacts[k], creds, message)
        && slots[k] == Normalise(contacts[k].name, send(k, sends[k]))
    {
      var req := BuildRequest(contacts[i], creds, message);
      sends := sends + [req];
      slots[i] := Normalise(contacts[i].name, send(i, req));
      i := i + 1;
    }
    results := slots[..];
  }

  /** The handler. Returns the response and the provider requests it issued. */
  method Handle(req: HttpRequest, getClaims: string -> ClaimsReply, env: Env,
                send: (nat, ProviderRequest) -> ProviderReply, toFixed6: real -> string)
    returns (resp: Response, sends: seq<ProviderRequest>)
    // A preflight is answered before any other check.
    ensures req.httpMethod == "OPTIONS" ==> resp == PreflightResponse && sends == []
    // No bearer header: 401.
    ensures req.httpMethod != "OPTIONS" && !BearerPresented(req.authorization) ==>
      resp == UnauthorizedResponse && sends == []
    // Claims lookup failed or gave no claims: 401; it threw: 500 with the error.
    ensures req.httpMethod != "OPTIONS" && BearerPresented(req.authorization) ==>
      var claims := getClaims(BearerToken(req.authorization.value));
      && (claims.ClaimsThrew? ==> resp == CaughtResponse(claims.thrown) && sends == [])
      && (claims.ClaimsReturned? && !ClaimsAccepted(claims) ==> resp == UnauthorizedResponse && sends == [])
      && (ClaimsAccepted(claims) ==>
            && (!Configured(env) ==> resp == NotConfiguredResponse && sends == [])
            && (Configured(env) && req.body.Rejected? ==> resp == CaughtResponse(req.body.reason) && sends == [])
            && (Configured(env) && req.body.Resolved? ==>
                  var body := req.body.value;
                  && (body.contacts.None? || body.contacts.value == [] ==> resp == NoContactsResponse && sends == [])
                  && (body.contacts.Some? && body.contacts.value != [] ==>
                        var contacts := body.contacts.value;
                        var message := Message(body.userName, body.mapsLink,
                                               toFixed6(body.latitude), toFixed6(body.longitude));
                        && resp.status == 200 && resp.headers == JsonHeaders
                        && resp.body.SummaryJson? && resp.body.success
                        && |resp.body.results| == |contacts| && |sends| == |contacts|
                        && resp.body.sent + resp.body.failed == |contacts|
                        && resp.body.sent == SentCount(resp.body.results)
                        && resp.body.failed == FailedCount(resp.body.results)
                        && (forall i :: 0 <= i < |contacts| ==>
                              && resp.body.results[i].contact == contacts[i].name
                              && sends[i] == Outbound(contacts[i], Credentials(env.accountSid.value, env.authToken.value,
                                                                               env.twilioPhone.value), message)
                              && resp.body.results[i] == Normalise(contacts[i].name, send(i, sends[i]))))))
  {
    var gate := Preflight(req, getClaims, env);
    if gate.Reject? {
      return gate.response, [];
    }
    var body := gate.request;
    var message := Message(body.userName, body.mapsLink, toFixed6(body.latitude), toFixed6(body.longitude));
    var results;
    results, sends := Dispatch(gate.contacts, gate.credentials, message, send);
    TalliesPartition(results);
    resp := Response(200, JsonHeaders, SummaryJson(true, SentCount(results), FailedCount(results), results));
  }
}
