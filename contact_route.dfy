/**
 * The contact-form endpoint (app/api/contact/route.js): the payload validator,
 * the email-format check, the HTML body of the relayed message and the status
 * decision of the POST handler.
 *
 * The JSON parse, the environment lookup and the call to the mail provider are
 * inputs of the model: a parsed payload or a parse failure, three optional
 * configuration strings, and the provider's outcome.
 */
module ContactRoute {
  import opened Wrappers

  // ---------------------------------------------------------------------------
  // Whitespace, trimming and string length as ECMAScript defines them
  // ---------------------------------------------------------------------------

  /** ECMAScript WhiteSpace and LineTerminator code points. This one set is both
      what String.prototype.trim strips and what the regular-expression class \s
      matches. */
  predicate IsSpace(c: char) {
    c in Whitespace
  }

  const Whitespace: set<char> := {
    '\t', '\n', '\U{B}', '\U{C}', '\r', ' ', '\U{A0}', '\U{1680}',
    '\U{2000}', '\U{2001}', '\U{2002}', '\U{2003}', '\U{2004}', '\U{2005}',
    '\U{2006}', '\U{2007}', '\U{2008}', '\U{2009}', '\U{200A}',
    '\U{2028}', '\U{2029}', '\U{202F}', '\U{205F}', '\U{3000}', '\U{FEFF}'
  }

  /** Every character of `s` at positions lo..hi-1 is whitespace. */
  ghost predicate SpaceBetween(s: string, lo: int, hi: int)
    requires 0 <= lo <= hi <= |s|
  {
    forall k :: lo <= k < hi ==> IsSpace(s[k])
  }

  /** True when every character of `s` is whitespace (the empty string included). */
  ghost predicate AllSpace(s: string) {
    SpaceBetween(s, 0, |s|)
  }

  /** Leading whitespace removed. */
  function TrimStart(s: string): string {
    if s != [] && IsSpace(s[0]) then TrimStart(s[1..]) else s
  }

  /** Trailing whitespace removed. */
  function TrimEnd(s: string): string {
    if s != [] && IsSpace(s[|s| - 1]) then TrimEnd(s[..|s| - 1]) else s
  }

  /** String.prototype.trim: never longer than its argument, and a non-empty
      result neither starts nor ends with whitespace. */
  function Trim(s: string): (r: string)
    ensures |r| <= |s|
    ensures r != [] ==> !IsSpace(r[0]) && !IsSpace(r[|r| - 1])
  {
    TrimStartSpec(s);
    TrimEndSpec(TrimStart(s));
    var r := TrimEnd(TrimStart(s));
    assert r != [] ==> r[0] == TrimStart(s)[0];
    r
  }

  /** TrimStart drops a whitespace prefix and stops at the first other character. */
  lemma {:induction false} TrimStartSpec(s: string)
    ensures |TrimStart(s)| <= |s|
    ensures TrimStart(s) == s[|s| - |TrimStart(s)|..]
    ensures TrimStart(s) == [] || !IsSpace(TrimStart(s)[0])
    ensures SpaceBetween(s, 0, |s| - |TrimStart(s)|)
  {
    if s != [] && IsSpace(s[0]) {
      var t := s[1..];
      TrimStartSpec(t);
      var n := |s| - |TrimStart(t)|;
      assert t[|t| - |TrimStart(t)|..] == s[n..];
      forall k | 0 <= k < n ensures IsSpace(s[k]) {
        if k > 0 { assert s[k] == t[k - 1]; }
      }
    }
  }

  /** TrimEnd drops a whitespace suffix and stops at the last other character. */
  lemma {:induction false} TrimEndSpec(s: string)
    ensures |TrimEnd(s)| <= |s|
    ensures TrimEnd(s) == s[..|TrimEnd(s)|]
    ensures TrimEnd(s) == [] || !IsSpace(TrimEnd(s)[|TrimEnd(s)| - 1])
    ensures SpaceBetween(s, |TrimEnd(s)|, |s|)
  {
    if s != [] && IsSpace(s[|s| - 1]) {
      var t := s[..|s| - 1];
      TrimEndSpec(t);
      var n := |TrimEnd(t)|;
      assert t[..n] == s[..n];
      forall k | n <= k < |s| ensures IsSpace(s[k]) {
        if k < |s| - 1 { assert s[k] == t[k]; }
      }
    }
  }

  /** Trimming cuts only whitespace, and only from the two ends: the result is
      an infix of `s` with nothing but whitespace on either side. */
  lemma TrimIsInfix(s: string)
    ensures exists i, j :: 0 <= i <= j <= |s| && Trim(s) == s[i..j]
                           && SpaceBetween(s, 0, i) && SpaceBetween(s, j, |s|)
  {
    var a := TrimStart(s);
    TrimStartSpec(s);
    TrimEndSpec(a);
    var r := TrimEnd(a);
    var i := |s| - |a|;
    var j := i + |r|;
    assert r == s[i..j] by { assert r == a[..|r|]; }
    assert SpaceBetween(s, j, |s|) by {
      forall k | j <= k < |s| ensures IsSpace(s[k]) { assert s[k] == a[k - i]; }
    }
  }

  /** Trimming yields the empty string exactly when `s` is all whitespace. */
  lemma TrimEmptyIff(s: string)
    ensures Trim(s) == [] <==> AllSpace(s)
  {
    var a := TrimStart(s);
    TrimStartSpec(s);
    TrimEndSpec(a);
    if Trim(s) == [] {
      assert a == [];
    }
  }

  /** The `length` of a JavaScript string: UTF-16 code units, two for every
      code point outside the Basic Multilingual Plane. */
  function Utf16Length(s: string): (n: nat)
    ensures |s| <= n <= 2 * |s|
  {
    if s == [] then 0 else (if s[0] as int > 0xFFFF then 2 else 1) + Utf16Length(s[1..])
  }

  // ---------------------------------------------------------------------------
  // The email pattern ^[^\s@]+@[^\s@]+\.[^\s@]+$
  // ---------------------------------------------------------------------------

  /** A character of the class [^\s@]. */
  predicate IsEmailChar(c: char) {
    !IsSpace(c) && c != '@'
  }

  ghost predicate AllEmailChars(s: string) {
    forall k :: 0 <= k < |s| ==> IsEmailChar(s[k])
  }

  /** The language of the email pattern, read off the regular expression:
      three non-empty runs of [^\s@] joined by '@' and by '.'. */
  ghost predicate MatchesEmailPattern(s: string) {
    exists l: string, d: string, t: string ::
      && s == l + "@" + d + "." + t
      && l != [] && d != [] && t != []
      && AllEmailChars(l) && AllEmailChars(d) && AllEmailChars(t)
  }

  /** Position of the first '@' in `s`, or |s| when there is none. */
  function IndexOfAt(s: string): (i: nat)
    ensures i <= |s|
    ensures '@' !in s[..i]
    ensures i < |s| ==> s[i] == '@'
  {
    if s == [] || s[0] == '@' then 0
    else
      var j := IndexOfAt(s[1..]);
      assert s[..1 + j] == [s[0]] + s[1..][..j];
      1 + j
  }

  /** A '.' that is neither the first nor the last character. */
  predicate HasInnerDot(d: string) {
    |d| >= 3 && '.' in d[1..|d| - 1]
  }

  /** The email check of the validator: no whitespace, exactly one '@', a
      non-empty local part, and a '.' strictly inside the part after '@'. */
  predicate IsValidEmail(s: string)
    ensures IsValidEmail(s) ==> 5 <= |s| && s[0] != '@' && s[|s| - 1] != '@'
  {
    var at := IndexOfAt(s);
    && (forall k | 0 <= k < |s| :: !IsSpace(s[k]))
    && 0 < at < |s|
    && '@' !in s[at + 1..]
    && HasInnerDot(s[at + 1..])
  }

  /** Every string the check accepts is in the language of the pattern. */
  lemma EmailCheckSound(s: string)
    requires IsValidEmail(s)
    ensures MatchesEmailPattern(s)
  {
    var at := IndexOfAt(s);
    var rest := s[at + 1..];
    var j :| 1 <= j < |rest| - 1 && rest[j] == '.';
    var l, d, t := s[..at], rest[..j], rest[j + 1..];
    assert AllEmailChars(l) by {
      forall k | 0 <= k < |l| ensures IsEmailChar(l[k]) {
        assert l[k] == s[k];
      }
    }
    assert AllEmailChars(rest) by {
      forall k | 0 <= k < |rest| ensures IsEmailChar(rest[k]) {
        assert rest[k] == s[at + 1 + k];
      }
    }
    assert AllEmailChars(d) by {
      forall k | 0 <= k < |d| ensures IsEmailChar(d[k]) { assert d[k] == rest[k]; }
    }
    assert AllEmailChars(t) by {
      forall k | 0 <= k < |t| ensures IsEmailChar(t[k]) { assert t[k] == rest[j + 1 + k]; }
    }
    calc {
      s;
      l + [s[at]] + rest;
      l + "@" + (d + "." + t);
      l + "@" + d + "." + t;
    }
  }

  /** Two runs of [^\s@] joined by a character of the class form one run. */
  lemma AllEmailCharsJoin(a: string, c: char, b: string)
    requires AllEmailChars(a) && IsEmailChar(c) && AllEmailChars(b)
    ensures AllEmailChars(a + [c] + b)
  {
    var s := a + [c] + b;
    forall k | 0 <= k < |s| ensures IsEmailChar(s[k]) {
      if k < |a| { assert s[k] == a[k]; }
      else if k > |a| { assert s[k] == b[k - |a| - 1]; }
    }
  }

  /** Every string in the language of the pattern passes the check. */
  lemma EmailCheckComplete(s: string, l: string, d: string, t: string)
    requires s == l + "@" + d + "." + t
    requires l != [] && d != [] && t != []
    requires AllEmailChars(l) && AllEmailChars(d) && AllEmailChars(t)
    ensures IsValidEmail(s)
  {
    var rest := d + "." + t;
    assert rest == d + ['.'] + t;
    AllEmailCharsJoin(d, '.', t);
    assert s == l + ['@'] + rest;
    assert s[..|l|] == l && s[|l|] == '@' && s[|l| + 1..] == rest;
    var at := IndexOfAt(s);
    assert at == |l|;
    assert '@' !in rest by {
      forall k | 0 <= k < |rest| ensures rest[k] != '@' { assert IsEmailChar(rest[k]); }
    }
    assert rest[1..|rest| - 1][|d| - 1] == '.';
    forall k | 0 <= k < |s| ensures !IsSpace(s[k]) {
      if k < |l| { assert s[k] == l[k]; }
      else if k > |l| { assert s[k] == rest[k - |l| - 1]; }
    }
  }

  /** The hand-written check accepts exactly the language of the pattern. */
  lemma EmailCheckMatchesPattern(s: string)
    ensures IsValidEmail(s) <==> MatchesEmailPattern(s)
  {
    if IsValidEmail(s) {
      EmailCheckSound(s);
    }
    if MatchesEmailPattern(s) {
      var l: string, d: string, t: string :|
        && s == l + "@" + d + "." + t
        && l != [] && d != [] && t != []
        && AllEmailChars(l) && AllEmailChars(d) && AllEmailChars(t);
      EmailCheckComplete(s, l, d, t);
    }
  }

  // ---------------------------------------------------------------------------
  // Payload validation
  // ---------------------------------------------------------------------------

  /** A property of the parsed JSON body: a string, or any other value
      (missing, number, object, ...). */
  datatype Field = Text(value: string) | NotText

  /** The parsed body: null, undefined or a non-object, or an object whose three
      relevant properties are read. */
  datatype Payload = NotAnObject | Object(name: Field, email: Field, message: Field)

  datatype ValidationError = InvalidPayload | MissingFields | InvalidEmail | MessageTooShort

  /** The error strings the endpoint reports. */
  function ErrorText(e: ValidationError): (r: string)
    ensures r != []
  {
    match e
    case InvalidPayload => "Invalid payload"
    case MissingFields => "Missing required fields"
    case InvalidEmail => "Invalid email"
    case MessageTooShort => "Message is too short"
  }

  const MinMessageLength := 5

  /** A string property trimmed; anything else reads as "". */
  function TrimmedField(f: Field): string {
    if f.Text? then Trim(f.value) else ""
  }

  /** validatePayload: None when the payload is acceptable, otherwise the first
      of the four checks that fails. */
  function ValidatePayload(p: Payload): (r: Option<ValidationError>)
    ensures r == None ==>
      && p.Object? && TrimmedField(p.name) != [] && IsValidEmail(TrimmedField(p.email))
      && Utf16Length(TrimmedField(p.message)) >= MinMessageLength
    ensures r == Some(MessageTooShort) ==> p.Object? && Utf16Length(TrimmedField(p.message)) < MinMessageLength
  {
    if p.NotAnObject? then Some(InvalidPayload)
    else
      var name := TrimmedField(p.name);
      var email := TrimmedField(p.email);
      var message := TrimmedField(p.message);
      if name == [] || email == [] || message == [] then Some(MissingFields)
      else if !IsValidEmail(email) then Some(InvalidEmail)
      else if Utf16Length(message) < MinMessageLength then Some(MessageTooShort)
      else None
  }

  /** A field is present when it is a string with a non-whitespace character. */
  ghost predicate Present(f: Field) {
    f.Text? && !AllSpace(f.value)
  }

  ghost predicate AllPresent(p: Payload)
    requires p.Object?
  {
    Present(p.name) && Present(p.email) && Present(p.message)
  }

  lemma PresentIffTrimmedNonEmpty(f: Field)
    ensures Present(f) <==> TrimmedField(f) != []
  {
    if f.Text? {
      TrimEmptyIff(f.value);
    }
  }

  /** Each error is reported exactly when its own check fails and every check
      before it passes: invalid payload, then missing fields, then the email
      pattern, then the message length. */
  lemma ValidationOrder(p: Payload)
    ensures ValidatePayload(p) == Some(InvalidPayload) <==> p.NotAnObject?
    ensures ValidatePayload(p) == Some(MissingFields) <==> p.Object? && !AllPresent(p)
    ensures ValidatePayload(p) == Some(InvalidEmail) <==>
      p.Object? && AllPresent(p) && !MatchesEmailPattern(Trim(p.email.value))
    ensures ValidatePayload(p) == Some(MessageTooShort) <==>
      p.Object? && AllPresent(p) && MatchesEmailPattern(Trim(p.email.value))
      && Utf16Length(Trim(p.message.value)) < MinMessageLength
  {
    if p.Object? {
      PresentIffTrimmedNonEmpty(p.name);
      PresentIffTrimmedNonEmpty(p.email);
      PresentIffTrimmedNonEmpty(p.message);
      EmailCheckMatchesPattern(TrimmedField(p.email));
    }
  }

  /** The validator accepts exactly the payloads that pass all four checks. */
  lemma ValidationAccepts(p: Payload)
    ensures ValidatePayload(p) == None <==>
      && p.Object? && AllPresent(p)
      && MatchesEmailPattern(Trim(p.email.value))
      && Utf16Length(Trim(p.message.value)) >= MinMessageLength
  {
    ValidationOrder(p);
  }


  // ---------------------------------------------------------------------------
  // The relayed message
  // ---------------------------------------------------------------------------

  /** Every "\n" replaced by "<br/>": the text can only grow, by four
      characters per newline at most. */
  function BreakLines(m: string): (r: string)
    ensures |m| <= |r| <= 5 * |m|
  {
    if m == [] then []
    else (if m[0] == '\n' then "<br/>" else [m[0]]) + BreakLines(m[1..])
  }

  /** The rewrite leaves no newline behind. */
  lemma {:induction false} BreakLinesRemovesNewlines(m: string)
    ensures '\n' !in BreakLines(m)
  {
    if m != [] {
      BreakLinesRemovesNewlines(m[1..]);
      var head := if m[0] == '\n' then "<br/>" else [m[0]];
      assert '\n' !in head;
      assert BreakLines(m) == head + BreakLines(m[1..]);
    }
  }

  /** A message without newlines is kept as it is. */
  lemma {:induction false} BreakLinesKeepsPlainText(m: string)
    requires '\n' !in m
    ensures BreakLines(m) == m
  {
    if m != [] {
      assert m[0] in m;
      assert '\n' !in m[1..] by {
        forall k | 0 <= k < |m[1..]| ensures m[1..][k] != '\n' { assert m[1..][k] == m[k + 1] && m[k + 1] in m; }
      }
      BreakLinesKeepsPlainText(m[1..]);
      assert m == [m[0]] + m[1..];
    }
  }

  /** The rewrite works piecewise. */
  lemma {:induction false} BreakLinesConcat(a: string, b: string)
    ensures BreakLines(a + b) == BreakLines(a) + BreakLines(b)
  {
    if a == [] {
      assert a + b == b;
    } else {
      assert (a + b)[0] == a[0];
      assert (a + b)[1..] == a[1..] + b;
      BreakLinesConcat(a[1..], b);
    }
  }

  /** Each newline becomes "<br/>" in place, the text on either side being
      rewritten independently. */
  lemma BreakLinesNewline(a: string, b: string)
    ensures BreakLines(a + "\n" + b) == BreakLines(a) + "<br/>" + BreakLines(b)
  {
    BreakLinesConcat(a + "\n", b);
    BreakLinesConcat(a, "\n");
    assert BreakLines("\n") == "<br/>" by {
      assert "\n"[1..] == [];
    }
  }

  /** The HTML body of the relayed message, raw (untrimmed) fields included:
      a fixed 168-character template holding the name, the email and the
      rewritten message, which is the last thing before the closing tag. */
  function HtmlBody(name: string, email: string, message: string): (r: string)
    ensures |r| == HtmlTemplateLength + |name| + |email| + |BreakLines(message)|
    ensures r[|r| - |HtmlTail|..] == HtmlTail
    ensures r[|HtmlHead|..|HtmlHead| + |name|] == name
    ensures r[|HtmlHead| + |name| + |HtmlMid|..|HtmlHead| + |name| + |HtmlMid| + |email|] == email
    ensures r[|r| - |HtmlTail| - |BreakLines(message)|..|r| - |HtmlTail|] == BreakLines(message)
  {
    HtmlHead + name + HtmlMid + email + HtmlPara + BreakLines(message) + HtmlTail
  }

  const HtmlHead := "\n      <h2>New contact message</h2>\n      <p><strong>Name:</strong> "
  const HtmlMid := "</p>\n      <p><strong>Email:</strong> "
  const HtmlPara := "</p>\n      <p><strong>Message:</strong></p>\n      <p>"

  const HtmlTail := "</p>\n    "
  const HtmlTemplateLength := 168

  /** What is handed to the mail provider. */
  datatype Mail = Mail(from: string, to: seq<string>, replyTo: string, subject: string, html: string)

  const SubjectPrefix := "Website contact from "

  /** The mail: from the configured sender to the one configured recipient,
      replying to the visitor, with the visitor's name after the subject prefix. */
  function ComposeMail(fromEmail: string, toEmail: string, name: string, email: string, message: string): (r: Mail)
    ensures r.from == fromEmail && r.to == [toEmail] && r.replyTo == email
    ensures |r.subject| == |SubjectPrefix| + |name|
    ensures r.subject[..|SubjectPrefix|] == SubjectPrefix && r.subject[|SubjectPrefix|..] == name
    ensures r.html == HtmlBody(name, email, message)
  {
    Mail(fromEmail, [toEmail], email, SubjectPrefix + name, HtmlBody(name, email, message))
  }

  // ---------------------------------------------------------------------------
  // The POST handler
  // ---------------------------------------------------------------------------

  /** The request body: JSON that failed to parse, or a parsed payload. */
  datatype Request = Unparsable | Json(payload: Payload)

  /** RESEND_API_KEY, CONTACT_TO_EMAIL and CONTACT_FROM_EMAIL. */
  datatype Config = Config(apiKey: Option<string>, toEmail: Option<string>, fromEmail: Option<string>)

  /** What the mail provider did with the request: answered ok, answered not ok
      with a body, or the call (or the read of its body) threw. */
  datatype Upstream = Delivered | Refused(body: string) | Threw

  datatype Body = ErrorBody(error: string) | OkBody

  datatype Response = Response(status: int, body: Body)

  /** The response, and the mail handed to the provider if the call was made. */
  datatype Outcome = Outcome(response: Response, sent: Option<Mail>)

  /** A JavaScript truthy string: defined and not empty. */
  predicate Truthy(v: Option<string>) {
    v.Some? && v.value != ""
  }

  predicate ConfigPresent(c: Config) {
    Truthy(c.apiKey) && Truthy(c.toEmail) && Truthy(c.fromEmail)
  }

  const ConfigMissingText := "Server email configuration is missing"
  const ProviderErrorPrefix := "Mail provider error: "
  const UnexpectedText := "Unexpected server error"

  /** The POST handler. */
  function Post(req: Request, cfg: Config, upstream: Upstream): (o: Outcome)
    ensures o.response.status in {200, 400, 500, 502}
    ensures o.sent.Some? ==> req.Json? && ValidatePayload(req.payload) == None && ConfigPresent(cfg)
    ensures o.response.body.ErrorBody? <==> o.response.status != 200
  {
    if req.Unparsable? then Outcome(Response(500, ErrorBody(UnexpectedText)), None)
    else
      var p := req.payload;
      match ValidatePayload(p)
      case Some(e) => Outcome(Response(400, ErrorBody(ErrorText(e))), None)
      case None =>
        if !ConfigPresent(cfg) then Outcome(Response(500, ErrorBody(ConfigMissingText)), None)
        else
          var mail := ComposeMail(cfg.fromEmail.value, cfg.toEmail.value,
                                  p.name.value, p.email.value, p.message.value);
          match upstream
          case Refused(body) => Outcome(Response(502, ErrorBody(ProviderErrorPrefix + body)), Some(mail))
          case Threw => Outcome(Response(500, ErrorBody(UnexpectedText)), Some(mail))
          case Delivered => Outcome(Response(200, OkBody), Some(mail))
  }

  /** A payload that passes validation; the handler then reads its raw fields. */
  ghost predicate Accepted(req: Request) {
    req.Json? && ValidatePayload(req.payload) == None
  }

  /** The status decision: 400 with the validation error, before the
      configuration is looked at; 500 when configuration is missing; 502 with
      the provider's body; 500 when something throws; 200 otherwise. */
  lemma PostDecision(req: Request, cfg: Config, upstream: Upstream)
    ensures var o := Post(req, cfg, upstream);
      && o.response.status in {200, 400, 500, 502}
      && (o.response.status == 400 <==> req.Json? && ValidatePayload(req.payload).Some?)
      && (req.Json? && ValidatePayload(req.payload).Some? ==>
            o.response.body == ErrorBody(ErrorText(ValidatePayload(req.payload).value)))
      && (Accepted(req) && !ConfigPresent(cfg) ==> o.response == Response(500, ErrorBody(ConfigMissingText)))
      && (o.response.status == 502 <==> Accepted(req) && ConfigPresent(cfg) && upstream.Refused?)
      && (upstream.Refused? && o.response.status == 502 ==>
            o.response.body == ErrorBody(ProviderErrorPrefix + upstream.body))
      && (o.response.status == 200 <==> Accepted(req) && ConfigPresent(cfg) && upstream.Delivered?)
      && (o.response.status == 200 <==> o.response.body == OkBody)
      && ((req.Unparsable? || (Accepted(req) && ConfigPresent(cfg) && upstream.Threw?)) <==>
            o.response == Response(500, ErrorBody(UnexpectedText)))
  {
  }

  /** A rejected payload decides the response alone: neither the configuration
      nor the provider can change it, and nothing is sent. */
  lemma ValidationErrorPrecedes(p: Payload, cfg1: Config, up1: Upstream, cfg2: Config, up2: Upstream)
    requires ValidatePayload(p).Some?
    ensures Post(Json(p), cfg1, up1) == Post(Json(p), cfg2, up2)
    ensures Post(Json(p), cfg1, up1).sent == None
  {
  }

  /** The provider is called only for an accepted payload with full
      configuration, with the recipient list [toEmail], the raw email as
      reply-to, the raw name after the subject prefix, and a message paragraph
      free of newlines. */
  lemma SentMail(req: Request, cfg: Config, upstream: Upstream)
    ensures var o := Post(req, cfg, upstream);
      && (o.sent.Some? <==> Accepted(req) && ConfigPresent(cfg))
      && (o.sent.Some? ==>
            && req.payload.Object? && req.payload.name.Text?
            && req.payload.email.Text? && req.payload.message.Text?
            && o.sent.value.from == cfg.fromEmail.value
            && o.sent.value.to == [cfg.toEmail.value]
            && o.sent.value.replyTo == req.payload.email.value
            && o.sent.value.subject == SubjectPrefix + req.payload.name.value
            && o.sent.value.html == HtmlBody(req.payload.name.value, req.payload.email.value,
                                             req.payload.message.value)
            && '\n' !in BreakLines(req.payload.message.value))
  {
    if req.Json? {
      if req.payload.Object? && req.payload.message.Text? {
        BreakLinesRemovesNewlines(req.payload.message.value);
      }
    }
  }
}
