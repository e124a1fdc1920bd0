/** The contact form: what it fills in for a logged-in visitor, the rule
    that such a visitor must write from the account's own address, and what
    a saved message records about its sender (the account and the client
    IP address). */
module ContactForms {
  import opened Wrappers
  import opened Text
  import opened Accounts

  /** The parts of a request the form reads: the logged-in account (`None`
      for an anonymous visitor) and the `HTTP_X_FORWARDED_FOR` and
      `REMOTE_ADDR` entries of its metadata. */
  datatype Request = Request(user: Option<User>, forwardedFor: Option<string>, remoteAddr: Option<string>)

  /** The form was built with a request whose visitor is logged in. */
  predicate Authenticated(request: Option<Request>) {
    request.Some? && request.value.user.Some?
  }

  /** The client address: the first comma-separated item of a non-empty
      `X-Forwarded-For` header, taken as it stands (blanks around it are
      kept), and otherwise the peer address. */
  function ClientIp(req: Request): (r: Option<string>)
    ensures req.forwardedFor.None? || req.forwardedFor == Some("") ==> r == req.remoteAddr
    ensures req.forwardedFor.Some? && req.forwardedFor.value != [] ==>
      var header := req.forwardedFor.value;
      && r.Some? && ',' !in r.value
      && |r.value| <= |header| && r.value == header[..|r.value|]
      && (',' !in header ==> r.value == header)
      && (',' in header ==> |r.value| < |header| && header[|r.value|] == ',')
  {
    if req.forwardedFor.Some? && req.forwardedFor.value != [] then
      FirstPieceShape(req.forwardedFor.value, ',');
      Some(FirstPiece(req.forwardedFor.value, ','))
    else req.remoteAddr
  }

  /** A header listing several proxies yields the first of them. */
  lemma ClientIpFirstOfList(user: Option<User>, first: string, rest: string, remoteAddr: Option<string>)
    requires ',' !in first
    ensures ClientIp(Request(user, Some(first + "," + rest), remoteAddr)) == Some(first)
  {
    assert first + "," + rest == first + [','] + rest;
    FirstPieceOfJoin(first, ',', rest);
  }

  /** The proxy chain of the tests, `192.168.1.1, 10.0.0.1`, yields
      `192.168.1.1`. */
  lemma ClientIpExample(remoteAddr: Option<string>)
    ensures ClientIp(Request(None, Some("192.168.1.1, 10.0.0.1"), remoteAddr)) == Some("192.168.1.1")
  {
    var first, rest := "192.168.1.1", " 10.0.0.1";
    assert first + "," + rest == "192.168.1.1, 10.0.0.1";
    ClientIpFirstOfList(None, first, rest, remoteAddr);
  }

  /** The name offered to a logged-in visitor: the username, or the local
      part of the email when the username is blank. */
  function InitialName(user: User): (r: string)
    ensures user.username != [] ==> r == user.username
    ensures user.username == [] ==> '@' !in r && |r| <= |user.email| && r == user.email[..|r|]
  {
    if user.username != [] then user.username
    else
      var p := EmailPrefix(user.email);
      assert user.email == p + user.email[|p|..];
      p
  }

  datatype ContactError = WrongEmail(current: string)

  /** A saved contact message. */
  datatype ContactMessage = ContactMessage(user: Option<User>, name: string, email: string,
                                           message: string, ipAddress: Option<string>)

  /** `ContactForm`: the request it was built with, and the initial values
      and read-only flag of its fields. */
  class ContactForm {
    var request: Option<Request>
    var nameInitial: Option<string>
    var emailInitial: Option<string>
    var emailReadonly: bool

    /** The prefilled email, when there is one, is the visitor's account
        email. */
    predicate Valid()
      reads this
    {
      emailInitial.Some? ==> Authenticated(request) && emailInitial.value == request.value.user.value.email
    }

    /** `__init__`: for a logged-in visitor the name and email are prefilled
        and the email is made read-only; for anyone else nothing is
        prefilled. */
    constructor (request: Option<Request>)
      ensures Valid()
      ensures this.request == request
      ensures Authenticated(request) ==>
        && nameInitial == Some(InitialName(request.value.user.value))
        && emailInitial == Some(request.value.user.value.email)
        && emailReadonly
      ensures !Authenticated(request) ==> nameInitial.None? && emailInitial.None? && !emailReadonly
    {
      this.request := request;
      if request.Some? && request.value.user.Some? {
        var user := request.value.user.value;
        if user.username != [] {
          nameInitial := Some(user.username);
        } else {
          nameInitial := Some(EmailPrefix(user.email));
        }
        emailInitial := Some(user.email);
        emailReadonly := true;
      } else {
        nameInitial := None;
        emailInitial := None;
        emailReadonly := false;
      }
    }

    /** `clean_email`: a logged-in visitor must submit the account's email
        (the error names it); anyone else may submit any address. */
    function CleanEmail(email: string): (r: Result<string, ContactError>)
      reads this
      ensures r.Ok? <==> !Authenticated(request) || email == request.value.user.value.email
      ensures r.Ok? ==> r.value == email
      ensures r.Err? ==> r.error == WrongEmail(request.value.user.value.email)
    {
      if request.Some? && request.value.user.Some? && email != request.value.user.value.email then
        Err(WrongEmail(request.value.user.value.email))
      else Ok(email)
    }

    /** `save`: the message is linked to the account exactly when the
        visitor is logged in, and records the client address whenever the
        form has a request. */
    method Save(name: string, email: string, message: string) returns (m: ContactMessage)
      ensures m.name == name && m.email == email && m.message == message
      ensures Authenticated(request) ==> m.user == request.value.user
      ensures !Authenticated(request) ==> m.user.None?
      ensures request.Some? ==> m.ipAddress == ClientIp(request.value)
      ensures request.None? ==> m.ipAddress.None?
    {
      m := ContactMessage(None, name, email, message, None);
      if request.Some? && request.value.user.Some? {
        m := m.(user := request.value.user);
      }
      if request.Some? {
        m := m.(ipAddress := ClientIp(request.value));
      }
    }
  }

  /** The email the form prefills always passes its own check. */
  lemma PrefilledEmailPasses(form: ContactForm)
    requires form.Valid() && form.emailInitial.Some?
    ensures form.CleanEmail(form.emailInitial.value) == Ok(form.emailInitial.value)
  {
  }
}
