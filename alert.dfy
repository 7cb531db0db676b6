/** `handleSOS` on the home screen: refuses to start without contacts, gets a
    location fix, invokes the `send-sos-sms` function with the contacts, and
    logs a summary row in `sos_alerts` from the function's reply.

    The function call (`invoke`), the alert insert's failure and JavaScript's
    rendering of a number as a string (`showNumber`) are parameters; the
    location request goes through the screen's own geolocation tracker. */
module SosAlert {
  import opened Js
  import SendSos
  import Contacts
  import Geolocation

  /** The signed-in user. */
  datatype User = User(id: string, email: Option<string>)

  /** The user's profile row, when one was loaded. */
  datatype Profile = Profile(fullName: Option<string>)

  /** What `supabase.functions.invoke` settles to: an error, or the reply's data
      with its `sent` tally. */
  datatype InvokeReply = InvokeError(message: string) | InvokeData(sent: nat)

  /** The `status` column: "sent" or "failed". */
  datatype AlertStatus = StatusSent | StatusFailed

  /** A row of `sos_alerts`. */
  datatype AlertRecord = AlertRecord(
    userId: string,
    latitude: real,
    longitude: real,
    mapsLink: string,
    contactsNotified: nat,
    status: AlertStatus)

  // ---------------------------------------------------------------------------
  // Payload

  /** `contacts.map(c => ({name: c.name, phone_number: c.phone_number}))`. */
  function Recipients(cs: seq<Contacts.Contact>): (r: seq<SendSos.Recipient>)
    ensures |r| == |cs|
    ensures forall i :: 0 <= i < |cs| ==> r[i] == SendSos.Recipient(cs[i].name, cs[i].phoneNumber)
  {
    if cs == [] then []
    else [SendSos.Recipient(cs[0].name, cs[0].phoneNumber)] + Recipients(cs[1..])
  }

  /** `profile?.full_name || user?.email`. */
  function UserName(profile: Option<Profile>, user: User): (r: Option<string>)
    ensures profile.Some? && Truthy(profile.value.fullName) ==> r == profile.value.fullName
    ensures !(profile.Some? && Truthy(profile.value.fullName)) ==> r == user.email
  {
    Or(if profile.Some? then profile.value.fullName else None, user.email)
  }

  /** The body handed to the function. */
  function Payload(cs: seq<Contacts.Contact>, fix: Geolocation.Coords, mapsLink: string,
                   profile: Option<Profile>, user: User): SendSos.SosRequest
  {
    SendSos.SosRequest(fix.latitude, fix.longitude, mapsLink, Some(Recipients(cs)), UserName(profile, user))
  }

  /** The function names the same actor in its message as the screen would
      show: the profile's full name if set, else the e-mail, else "Someone". */
  lemma PayloadActor(cs: seq<Contacts.Contact>, fix: Geolocation.Coords, mapsLink: string,
                     profile: Option<Profile>, user: User)
    ensures var name := SendSos.ActorName(Payload(cs, fix, mapsLink, profile, user).userName);
      && (profile.Some? && Truthy(profile.value.fullName) ==> name == profile.value.fullName.value)
      && (!(profile.Some? && Truthy(profile.value.fullName)) && Truthy(user.email) ==> name == user.email.value)
      && (!(profile.Some? && Truthy(profile.value.fullName)) && !Truthy(user.email) ==> name == "Someone")
  {
  }

  /** A payload built from a non-empty contact list passes the function's
      contact check: once the caller and the provider configuration pass, the
      function goes ahead with exactly these recipients, in this order. */
  lemma {:induction false} PayloadPassesPreflight(
    cs: seq<Contacts.Contact>, fix: Geolocation.Coords, mapsLink: string,
    profile: Option<Profile>, user: User,
    req: SendSos.HttpRequest, getClaims: string -> SendSos.ClaimsReply, env: SendSos.Env)
    requires cs != []
    requires req.httpMethod != "OPTIONS" && SendSos.BearerPresented(req.authorization)
    requires SendSos.ClaimsAccepted(getClaims(SendSos.BearerToken(req.authorization.value)))
    requires SendSos.Configured(env)
    requires req.body == Resolved(Payload(cs, fix, mapsLink, profile, user))
    ensures var g := SendSos.Preflight(req, getClaims, env);
      && g.Proceed?
      && |g.contacts| == |cs|
      && forall i :: 0 <= i < |cs| ==> g.contacts[i].name == cs[i].name && g.contacts[i].phoneNumber == cs[i].phoneNumber
  {
    var r := Recipients(cs);
    assert r != [] by {
      assert |r| == |cs|;
    }
  }

  // ---------------------------------------------------------------------------
  // Alert record

  /** `data.sent || contacts.length`. */
  function ContactsNotified(sent: nat, contactCount: nat): (n: nat)
    ensures sent != 0 ==> n == sent
    ensures sent == 0 ==> n == contactCount
  {
    if sent != 0 then sent else contactCount
  }

  /** `data.sent > 0 ? "sent" : "failed"`. */
  function Status(sent: nat): (s: AlertStatus)
    ensures s == StatusSent <==> sent > 0
  {
    if sent > 0 then StatusSent else StatusFailed
  }

  function Record(user: User, fix: Geolocation.Coords, mapsLink: string, sent: nat, contactCount: nat): AlertRecord {
    AlertRecord(user.id, fix.latitude, fix.longitude, mapsLink, ContactsNotified(sent, contactCount), Status(sent))
  }

  /** With `sent` the function's own tally over the outcomes for the screen's
      contacts, the record says "sent" exactly when some message went out, then
      counting those messages; a record that says "failed" counts every contact
      as notified, because 0 falls back to the contact count. */
  lemma {:induction false} RecordOfDispatch(results: seq<SendSos.SendResult>, contactCount: nat)
    requires |results| == contactCount
    requires contactCount > 0
    ensures var sent := SendSos.SentCount(results);
      var n := ContactsNotified(sent, contactCount);
      && 1 <= n <= contactCount
      && (Status(sent) == StatusSent <==> exists i :: 0 <= i < |results| && results[i].Delivered?)
      && (Status(sent) == StatusSent ==> n == sent)
      && (Status(sent) == StatusFailed ==> n == contactCount)
  {
    SendSos.NoneSentIffAllFailed(results);
  }

  // ---------------------------------------------------------------------------
  // The screen

  class IndexPage {
    var sosLoading: bool
    var sosSuccess: bool
    /** The rows this screen has inserted into `sos_alerts`. */
    var alerts: seq<AlertRecord>
    const geo: Geolocation.Tracker

    constructor ()
      ensures !sosLoading && !sosSuccess && alerts == []
      ensures fresh(geo) && geo.state == Geolocation.InitialState
    {
      sosLoading := false;
      sosSuccess := false;
      alerts := [];
      geo := new Geolocation.Tracker();
    }

    /** `handleSOS`. Returns the payload the function was invoked with, if it was. */
    method HandleSos(user: User, profile: Option<Profile>, contacts: seq<Contacts.Contact>,
                     supported: bool, position: Geolocation.PositionOutcome,
                     showNumber: real -> string, invoke: SendSos.SosRequest -> InvokeReply,
                     insertFails: bool)
      returns (invoked: Option<SendSos.SosRequest>)
      modifies this, geo
      // No contacts: nothing happens at all.
      ensures contacts == [] ==>
        && invoked == None && geo.state == old(geo.state)
        && sosLoading == old(sosLoading) && sosSuccess == old(sosSuccess) && alerts == old(alerts)
      // Otherwise the location is requested and loading has ended afterwards.
      ensures contacts != [] ==>
        geo.state == Geolocation.AfterRequest(old(geo.state), supported, position) && !sosLoading
      // No fix: the function is not invoked and nothing is logged.
      ensures contacts != [] && !(supported && position.Position?) ==>
        invoked == None && sosSuccess == old(sosSuccess) && alerts == old(alerts)
      // A fix: the function gets the contacts, the link and the user name; an
      // error from it logs nothing, a reply logs one record from its tally.
      ensures contacts != [] && supported && position.Position? ==>
        var fix := Geolocation.Coords(position.latitude, position.longitude);
        var link := Geolocation.MapsLink(showNumber(fix.latitude), showNumber(fix.longitude));
        var payload := Payload(contacts, fix, link, profile, user);
        && invoked == Some(payload)
        && (invoke(payload).InvokeError? ==> sosSuccess == old(sosSuccess) && alerts == old(alerts))
        && (invoke(payload).InvokeData? ==>
              && sosSuccess
              && alerts == old(alerts) + (if insertFails then []
                                        else [Record(user, fix, link, invoke(payload).sent, |contacts|)]))
    {
      if |contacts| == 0 {
        return None;
      }
      sosLoading := true;
      var location := geo.GetLocation(supported, position);
      if location.Rejected? {
        sosLoading := false;
        return None;
      }
      var fix := location.value;
      var mapsLink := Geolocation.MapsLink(showNumber(fix.latitude), showNumber(fix.longitude));
      var payload := Payload(contacts, fix, mapsLink, profile, user);
      invoked := Some(payload);
      var reply := invoke(payload);
      if reply.InvokeError? {
        sosLoading := false;
        return;
      }
      if !insertFails {
        alerts := alerts + [Record(user, fix, mapsLink, reply.sent, |contacts|)];
      }
      sosLoading := false;
      sosSuccess := true;
    }
  }
}
