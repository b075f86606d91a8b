/** The contact submission endpoint: the `POST` handler of
    src/app/api/contact/route.ts. It validates the three required fields,
    builds one email (subject, reply-to, plain-text body) and hands it to the
    email provider, then maps what happened to an HTTP status and a JSON body.
    The provider is a parameter, `send`; the handler's result records every
    email it handed over, so "sent at most once, and never when invalid" is a
    statement about that record. */
module ContactRoute {

  datatype Option<+T> = None | Some(value: T)

  /** The fields destructured from the decoded JSON body; a field the client
      left out is None. */
  datatype Payload = Payload(
    name: Option<string>,
    email: Option<string>,
    subject: Option<string>,
    message: Option<string>)

  /** What reading the request gives: a decoded object payload, or
      `Malformed` for every body that throws inside the handler's `try` before
      validation: one `request.json()` cannot decode, and also a JSON `null`,
      which decodes but cannot be destructured. */
  datatype Request = Decoded(payload: Payload) | Malformed

  /** A payload that passed validation. `subject` is "" when the client sent
      none or an empty one: both are falsy, and the handler treats them alike. */
  datatype Submission = Submission(name: string, email: string, subject: string, message: string)

  /** The sender and recipient addresses, read from the environment. */
  datatype Config = Config(fromAddress: string, toAddress: string)

  /** The argument of the provider's `emails.send`. */
  datatype Email = Email(from: string, to: string, subject: string, replyTo: string, text: string)

  /** What the provider's `send` does: accepts, answers with `{ error }`
      carrying a message, or throws. */
  datatype SendResult = Accepted | Rejected(message: string) | Threw

  /** The JSON bodies the handler responds with: `{ error }` or `{ success: true }`. */
  datatype JsonBody = ErrorJson(error: string) | SuccessJson

  datatype Response = Response(status: int, body: JsonBody)

  /** One run of the handler: its response and the emails it handed to the
      provider, in order. */
  datatype Outcome = Outcome(response: Response, sent: seq<Email>)

  const RequiredFieldsError := "Name, email, and message are required."
  const GenericError := "Failed to send message. Please try again."
  const DefaultSubjectPrefix := "New contact from "
  /** `NextResponse.json` without a status option responds with 200. */
  const DefaultStatus := 200

  /** JavaScript truthiness of a string field: present and not empty. */
  predicate Truthy(f: Option<string>) {
    f.Some? && f.value != ""
  }

  /** The `!name || !email || !message` guard, and the values the rest of the
      handler reads once it has passed. */
  function Validate(p: Payload): (r: Option<Submission>)
    ensures r.Some? <==> Truthy(p.name) && Truthy(p.email) && Truthy(p.message)
    ensures r.Some? ==> r.value.name == p.name.value && r.value.email == p.email.value
                        && r.value.message == p.message.value
    ensures r.Some? ==> r.value.name != "" && r.value.email != "" && r.value.message != ""
    ensures r.Some? ==> (r.value.subject == "" <==> !Truthy(p.subject))
    ensures r.Some? && Truthy(p.subject) ==> r.value.subject == p.subject.value
  {
    if Truthy(p.name) && Truthy(p.email) && Truthy(p.message) then
      var subject := if Truthy(p.subject) then p.subject.value else "";
      Some(Submission(p.name.value, p.email.value, subject, p.message.value))
    else
      None
  }

  /** `subject || \`New contact from ${name}\``. */
  function EmailSubject(s: Submission): (r: string)
    ensures r != ""
    ensures s.subject != "" ==> r == s.subject
    ensures s.subject == "" ==> r == DefaultSubjectPrefix + s.name
  {
    if s.subject != "" then s.subject else DefaultSubjectPrefix + s.name
  }

  /** The labelled lines of the plain-text body, before filtering. */
  function TemplateLines(s: Submission): seq<string> {
    [ "Name: " + s.name,
      "Email: " + s.email,
      if s.subject != "" then "Subject: " + s.subject else "",
      "",
      "Message:",
      s.message ]
  }

  /** `lines.filter(Boolean)` on strings: keeps the non-empty ones, in order. */
  function FilterNonEmpty(lines: seq<string>): (r: seq<string>)
    ensures |r| <= |lines|
    ensures forall i :: 0 <= i < |r| ==> |r[i]| > 0
  {
    if |lines| == 0 then []
    else if |lines[0]| == 0 then FilterNonEmpty(lines[1..])
    else [lines[0]] + FilterNonEmpty(lines[1..])
  }

  /** The filter keeps exactly the non-empty strings, and leaves a list with
      no empty string as it is. */
  lemma {:induction false} FilterKeepsNonEmpty(lines: seq<string>)
    ensures forall x :: x in FilterNonEmpty(lines) <==> x in lines && x != ""
    ensures (forall i :: 0 <= i < |lines| ==> lines[i] != "") ==> FilterNonEmpty(lines) == lines
  {
    if lines != [] {
      FilterKeepsNonEmpty(lines[1..]);
      assert lines == [lines[0]] + lines[1..];
    }
  }

  /** `lines.join(sep)`: the lines with `sep` between each two neighbours. */
  function Join(lines: seq<string>, sep: string): string {
    if lines == [] then ""
    else if |lines| == 1 then lines[0]
    else lines[0] + sep + Join(lines[1..], sep)
  }

  /** The plain-text body of the email. */
  function TextBody(s: Submission): string {
    Join(FilterNonEmpty(TemplateLines(s)), "\n")
  }

  /** The email handed to the provider. */
  function BuildEmail(cfg: Config, s: Submission): Email {
    Email(cfg.fromAddress, cfg.toAddress, EmailSubject(s), s.email, TextBody(s))
  }

  /** The response for what the provider did with the email. */
  function Respond(result: SendResult): (resp: Response)
    ensures resp.status == DefaultStatus <==> result.Accepted?
    ensures resp.body == SuccessJson <==> result.Accepted?
    ensures result.Rejected? ==> resp == Response(500, ErrorJson(result.message))
    ensures result.Threw? ==> resp == Response(500, ErrorJson(GenericError))
  {
    match result
    case Accepted => Response(DefaultStatus, SuccessJson)
    case Rejected(message) => Response(500, ErrorJson(message))
    case Threw => Response(500, ErrorJson(GenericError))
  }

  /** The whole handler. A body that does not decode lands in the `catch`;
      an invalid payload is answered before anything is sent; otherwise exactly
      one email goes to the provider and its answer decides the response. */
  function Post(req: Request, cfg: Config, send: Email -> SendResult): (r: Outcome)
    ensures r.response.status in {DefaultStatus, 400, 500}
    ensures |r.sent| <= 1
    ensures r.sent != [] <==> req.Decoded? && Validate(req.payload).Some?
    ensures r.response.status == 400 <==> req.Decoded? && Validate(req.payload).None?
    ensures r.response.status == DefaultStatus <==> r.response.body == SuccessJson
    ensures r.response.status == DefaultStatus ==> r.sent != [] && send(r.sent[0]).Accepted?
  {
    match req
    case Malformed =>
      Outcome(Response(500, ErrorJson(GenericError)), [])
    case Decoded(p) =>
      match Validate(p)
      case None =>
        Outcome(Response(400, ErrorJson(RequiredFieldsError)), [])
      case Some(s) =>
        var email := BuildEmail(cfg, s);
        Outcome(Respond(send(email)), [email])
  }

  // ---------------------------------------------------------------------
  // Properties of the handler

  /** A missing or empty name, email or message gets 400 with the fixed
      message, and nothing is sent. */
  lemma PostRejectsMissingFields(p: Payload, cfg: Config, send: Email -> SendResult)
    requires !Truthy(p.name) || !Truthy(p.email) || !Truthy(p.message)
    ensures Post(Decoded(p), cfg, send) == Outcome(Response(400, ErrorJson(RequiredFieldsError)), [])
  {
  }

  /** A body that does not decode gets 500 with the generic message, and
      nothing is sent. */
  lemma PostMalformedBody(cfg: Config, send: Email -> SendResult)
    ensures Post(Malformed, cfg, send) == Outcome(Response(500, ErrorJson(GenericError)), [])
  {
  }

  /** A valid payload is sent exactly once, replying to the submitter, with the
      subject defaulted from the name when none was given. */
  lemma PostSendsOnce(p: Payload, cfg: Config, send: Email -> SendResult)
    requires Truthy(p.name) && Truthy(p.email) && Truthy(p.message)
    ensures var o := Post(Decoded(p), cfg, send);
      && |o.sent| == 1
      && o.sent[0].replyTo == p.email.value
      && o.sent[0].from == cfg.fromAddress
      && o.sent[0].to == cfg.toAddress
      && o.sent[0].subject == (if Truthy(p.subject) then p.subject.value
                               else DefaultSubjectPrefix + p.name.value)
  {
  }

  /** With a subject, the email sent carries the body with the Subject line. */
  lemma PostSentTextWithSubject(p: Payload, cfg: Config, send: Email -> SendResult)
    requires Truthy(p.name) && Truthy(p.email) && Truthy(p.message) && Truthy(p.subject)
    ensures Post(Decoded(p), cfg, send).sent[0].text
         == ("Name: " + p.name.value) + "\n" + ("Email: " + p.email.value) + "\n"
            + ("Subject: " + p.subject.value) + "\n" + "Message:" + "\n" + p.message.value
  {
    TextBodyWithSubject(Validate(p).value);
  }

  /** Without a subject, the email sent carries the body without a Subject
      line and without a blank line. */
  lemma PostSentTextWithoutSubject(p: Payload, cfg: Config, send: Email -> SendResult)
    requires Truthy(p.name) && Truthy(p.email) && Truthy(p.message) && !Truthy(p.subject)
    ensures Post(Decoded(p), cfg, send).sent[0].text
         == ("Name: " + p.name.value) + "\n" + ("Email: " + p.email.value) + "\n"
            + "Message:" + "\n" + p.message.value
  {
    TextBodyWithoutSubject(Validate(p).value);
  }

  /** Sender and recipient come from the configuration alone, whatever the
      request. */
  lemma PostAddressesFromConfig(req: Request, cfg: Config, send: Email -> SendResult)
    ensures forall e :: e in Post(req, cfg, send).sent ==>
      e.from == cfg.fromAddress && e.to == cfg.toAddress
  {
  }

  /** Once an email has been handed over, the provider's answer decides the
      response: its error message with 500, the generic message with 500 when
      it throws, `{ success: true }` with the default status when it accepts. */
  lemma PostMapsDeliveryResult(p: Payload, cfg: Config, send: Email -> SendResult)
    requires Validate(p).Some?
    ensures var o := Post(Decoded(p), cfg, send);
      && o.sent == [BuildEmail(cfg, Validate(p).value)]
      && (send(o.sent[0]).Rejected? ==>
            o.response == Response(500, ErrorJson(send(o.sent[0]).message)))
      && (send(o.sent[0]).Threw? ==> o.response == Response(500, ErrorJson(GenericError)))
      && (send(o.sent[0]).Accepted? ==> o.response == Response(DefaultStatus, SuccessJson))
  {
  }

  // ---------------------------------------------------------------------
  // Properties of the text body

  lemma {:induction false} JoinTwoOrMore(a: string, rest: seq<string>, sep: string)
    requires rest != []
    ensures Join([a] + rest, sep) == a + sep + Join(rest, sep)
  {
    assert ([a] + rest)[1..] == rest;
  }

  lemma {:induction false} FilterCons(x: string, rest: seq<string>)
    ensures FilterNonEmpty([x] + rest) == Kept(x) + FilterNonEmpty(rest)
  {
    assert ([x] + rest)[0] == x;
    assert ([x] + rest)[1..] == rest;
  }

  /** What `filter(Boolean)` keeps of a single string. */
  function Kept(x: string): seq<string> {
    if |x| == 0 then [] else [x]
  }

  /** Filtering distributes over concatenation. */
  lemma {:induction false} FilterAppend(xs: seq<string>, ys: seq<string>)
    ensures FilterNonEmpty(xs + ys) == FilterNonEmpty(xs) + FilterNonEmpty(ys)
  {
    if xs != [] {
      assert (xs + ys)[0] == xs[0];
      assert (xs + ys)[1..] == xs[1..] + ys;
      FilterAppend(xs[1..], ys);
    } else {
      assert xs + ys == ys;
    }
  }

  lemma {:induction false} FilterThree(a: string, b: string, c: string)
    ensures FilterNonEmpty([a, b, c]) == Kept(a) + (Kept(b) + Kept(c))
  {
    assert FilterNonEmpty([c]) == Kept(c) by {
      FilterCons(c, []);
      assert [c] + [] == [c];
      assert Kept(c) + [] == Kept(c);
    }
    FilterCons(b, [c]);
    assert [b] + [c] == [b, c];
    FilterCons(a, [b, c]);
    assert [a] + [b, c] == [a, b, c];
  }

  lemma {:induction false} FilterSix(a: string, b: string, c: string, d: string, e: string, f: string)
    ensures FilterNonEmpty([a, b, c, d, e, f])
         == (Kept(a) + (Kept(b) + Kept(c))) + (Kept(d) + (Kept(e) + Kept(f)))
  {
    assert [a, b, c] + [d, e, f] == [a, b, c, d, e, f];
    FilterAppend([a, b, c], [d, e, f]);
    FilterThree(a, b, c);
    FilterThree(d, e, f);
  }

  /** The lines `filter(Boolean)` keeps: Name, Email, Subject when there is
      one, "Message:" and the message. The empty separator and the empty
      placeholder for a missing subject are both dropped. */
  lemma {:induction false} KeptLines(s: Submission)
    requires s.message != ""
    ensures FilterNonEmpty(TemplateLines(s)) ==
      if s.subject != "" then
        ["Name: " + s.name, "Email: " + s.email, "Subject: " + s.subject, "Message:", s.message]
      else
        ["Name: " + s.name, "Email: " + s.email, "Message:", s.message]
  {
    var nm, em, sb := "Name: " + s.name, "Email: " + s.email, "Subject: " + s.subject;
    var c := if s.subject != "" then sb else "";
    assert TemplateLines(s) == [nm, em, c, "", "Message:", s.message];
    FilterSix(nm, em, c, "", "Message:", s.message);
    assert Kept(nm) == [nm] by { assert |nm| > 0; }
    assert Kept(em) == [em] by { assert |em| > 0; }
    assert Kept(c) == (if s.subject != "" then [sb] else []) by {
      assert s.subject != "" ==> |sb| > 0;
    }
  }

  lemma {:induction false} JoinFour(a: string, b: string, c: string, d: string, sep: string)
    ensures Join([a, b, c, d], sep) == a + sep + b + sep + c + sep + d
  {
    JoinTwoOrMore(c, [d], sep);
    assert [c] + [d] == [c, d];
    JoinTwoOrMore(b, [c, d], sep);
    assert [b] + [c, d] == [b, c, d];
    JoinTwoOrMore(a, [b, c, d], sep);
    assert [a] + [b, c, d] == [a, b, c, d];
  }

  lemma {:induction false} JoinFive(a: string, b: string, c: string, d: string, e: string, sep: string)
    ensures Join([a, b, c, d, e], sep) == a + sep + b + sep + c + sep + d + sep + e
  {
    JoinFour(b, c, d, e, sep);
    JoinTwoOrMore(a, [b, c, d, e], sep);
    assert [a] + [b, c, d, e] == [a, b, c, d, e];
  }

  /** With a subject the body is Name, Email, Subject, "Message:" and the
      message, one per line. */
  lemma {:induction false} TextBodyWithSubject(s: Submission)
    requires s.subject != "" && s.message != ""
    ensures TextBody(s) == ("Name: " + s.name) + "\n" + ("Email: " + s.email) + "\n"
                           + ("Subject: " + s.subject) + "\n" + "Message:" + "\n" + s.message
  {
    KeptLines(s);
    JoinFive("Name: " + s.name, "Email: " + s.email, "Subject: " + s.subject, "Message:", s.message, "\n");
  }

  /** Without a subject the Subject line is left out entirely and no blank
      line takes its place. */
  lemma {:induction false} TextBodyWithoutSubject(s: Submission)
    requires s.subject == "" && s.message != ""
    ensures TextBody(s) == ("Name: " + s.name) + "\n" + ("Email: " + s.email) + "\n"
                           + "Message:" + "\n" + s.message
  {
    KeptLines(s);
    JoinFour("Name: " + s.name, "Email: " + s.email, "Message:", s.message, "\n");
  }

  // ---------------------------------------------------------------------
  // Concrete scenarios

  /** Ada writes without a subject: the subject becomes "New contact from Ada". */
  lemma AdaWithoutSubject(cfg: Config, send: Email -> SendResult)
    ensures var o := Post(Decoded(Payload(Some("Ada"), Some("ada@x.com"), None, Some("Hello"))), cfg, send);
      |o.sent| == 1 && o.sent[0].subject == "New contact from " + "Ada"
  {
    var p := Payload(Some("Ada"), Some("ada@x.com"), None, Some("Hello"));
    PostSendsOnce(p, cfg, send);
  }

  /** A payload without an email gets 400 with the fixed message. */
  lemma MissingEmail(cfg: Config, send: Email -> SendResult)
    ensures Post(Decoded(Payload(Some("Ada"), None, None, Some("Hello"))), cfg, send).response
            == Response(400, ErrorJson("Name, email, and message are required."))
  {
  }

  /** A provider answering "quota exceeded" gives 500 with that message. */
  lemma QuotaExceeded(p: Payload, cfg: Config, send: Email -> SendResult)
    requires Validate(p).Some?
    requires forall e :: send(e) == Rejected("quota exceeded")
    ensures Post(Decoded(p), cfg, send).response == Response(500, ErrorJson("quota exceeded"))
  {
  }
}
