/**
 * The payment provider's webhook authentication (`verifyWebhook` in
 * functions/webhookVerification.js): an ordered ladder of early-exit checks
 * ending in an RSASSA-PSS / SHA-256 signature check over the string
 * `transmissionId|timestamp|webhookId|sha256hex(body)`, following PayPal's
 * webhook notification verification guideline.
 *
 * The three foreign calls (certificate download, SHA-256 hex digest and the
 * signature check) are the fields of `Oracles`; the outcome records which of
 * them were made, so that what is NOT called on a path can be stated.
 */
module WebhookVerification {
  import opened JsValues
  import opened Strings

  /** The two certificate origins the certificate URL may start with. */
  const ProductionOrigin := "https://api.paypal.com/"
  const SandboxOrigin := "https://api.sandbox.paypal.com/"

  /** The four transmission headers, each possibly missing. */
  datatype Headers = Headers(
    transmissionId: Option<string>,    // paypal-transmission-id
    transmissionTime: Option<string>,  // paypal-transmission-time
    certUrl: Option<string>,           // paypal-cert-url
    transmissionSig: Option<string>)   // paypal-transmission-sig

  /**
   * The parsed request body as `JSON.stringify` sees it: absent, `null`, a
   * value with its serialised text (the serialiser itself is not modelled), or
   * a value on which `JSON.stringify` throws (a cycle, a BigInt).
   */
  datatype Body =
    | Undefined
    | Null
    | Json(eventType: Option<string>, text: string)
    | Unserialisable(error: string)

  /** `req.headers` may itself be missing, which makes reading a header throw. */
  datatype Request = Request(headers: Option<Headers>, body: Body)

  /** What `fetch(certUrl)` and reading its text can give. */
  datatype FetchOutcome = FetchThrew(error: string) | NotOk(status: int) | Fetched(certificate: string)

  /** What `crypto.verify` can give. */
  datatype SignatureOutcome = SignatureValid | SignatureInvalid | SignatureThrew(error: string)

  /**
   * The foreign calls: the certificate download, the SHA-256 hex digest and
   * the RSASSA-PSS check of (signed data, certificate, base64 signature).
   */
  datatype Oracles = Oracles(
    fetch: string -> FetchOutcome,
    sha256Hex: string -> string,
    verify: (string, string, string) -> SignatureOutcome)

  /** The foreign calls that have an effect outside the process. */
  datatype Call =
    | FetchCertificate(url: string)
    | CheckSignature(data: string, certificate: string, signature: string)

  /** Which branch of the ladder decided; each has its own message. */
  datatype Message =
    | MissingWebhookId
    | MissingHeaders
    | ValidationAccepted
    | InvalidCertUrl
    | CertFetchFailed
    | WebhookVerified
    | SandboxAccepted
    | SignatureFailed
    | CryptoError(detail: string)
    | CertFetchError(detail: string)
    | GeneralError(detail: string)

  /** The `message` string each branch returns. */
  function MessageText(m: Message): string {
    match m
    case MissingWebhookId => "Missing webhookId configuration"
    case MissingHeaders => "Missing required PayPal headers"
    case ValidationAccepted => "Validation request accepted"
    case InvalidCertUrl => "Invalid certificate URL"
    case CertFetchFailed => "Failed to fetch PayPal certificate"
    case WebhookVerified => "Webhook verified"
    case SandboxAccepted => "Sandbox webhook accepted with failed verification"
    case SignatureFailed => "Signature verification failed"
    case CryptoError(d) => "Crypto verification error: " + d
    case CertFetchError(d) => "Certificate fetch error: " + d
    case GeneralError(d) => "Verification error: " + d
  }

  /** `{ verified, message, warning }`; a missing `warning` is `false`. */
  datatype Verdict = Verdict(verified: bool, message: Message, warning: bool)

  datatype Outcome = Outcome(verdict: Verdict, calls: seq<Call>)

  /** The error reading a header of a missing `req.headers` raises. */
  const HeadersTypeError := "Cannot read properties of undefined (reading 'paypal-transmission-id')"

  /** `JSON.stringify(req.body)` for a body it does not throw on. */
  function Serialise(b: Body): Option<string>
    requires !b.Unserialisable?
  {
    match b
    case Undefined => None
    case Null => Some("null")
    case Json(_, text) => Some(text)
  }

  /** `req.body && req.body.event_type === "VALIDATION"`. */
  predicate IsValidationEvent(b: Body) {
    b.Json? && b.eventType == Some("VALIDATION")
  }

  /** The five required inputs are readable and all truthy. */
  predicate InputsPresent(req: Request) {
    && req.headers.Some?
    && !req.body.Unserialisable?
    && var h := req.headers.value;
    && Present(h.transmissionId)
    && Present(h.transmissionTime)
    && Present(Serialise(req.body))
    && Present(h.certUrl)
    && Present(h.transmissionSig)
  }

  /** The certificate URL begins with one of the two provider origins. */
  predicate TrustedCertUrl(url: string): (r: bool)
    ensures r ==> StartsWith(url, "https://api.") && |url| >= |ProductionOrigin|
  {
    StartsWith(url, ProductionOrigin) || StartsWith(url, SandboxOrigin)
  }

  /** The string the signature covers. */
  function SignedData(transmissionId: string, timestamp: string, webhookId: string, bodyDigest: string): (r: string)
    ensures r == Join([transmissionId, timestamp, webhookId, bodyDigest], '|')
  {
    var parts := [transmissionId, timestamp, webhookId, bodyDigest];
    assert parts[1..][1..][1..] == [bodyDigest];
    assert Join(parts[1..][1..], '|') == webhookId + "|" + bodyDigest;
    transmissionId + "|" + timestamp + "|" + webhookId + "|" + bodyDigest
  }

  /** The ladder of `verifyWebhook`, first decisive check first. */
  function VerifyWebhook(req: Request, webhookId: Option<string>, o: Oracles): (out: Outcome)
    ensures out.verdict.warning ==> out.verdict.verified
    ensures out.verdict.verified ==> out.verdict.message in {ValidationAccepted, WebhookVerified, SandboxAccepted}
    ensures forall c :: c in out.calls && c.FetchCertificate? ==> TrustedCertUrl(c.url)
    ensures out.calls != [] ==> InputsPresent(req) && out.calls[0] == FetchCertificate(req.headers.value.certUrl.value)
    ensures |out.calls| <= 2
  {
    if !Present(webhookId) then
      Outcome(Verdict(false, MissingWebhookId, false), [])
    else if req.headers.None? then
      Outcome(Verdict(false, GeneralError(HeadersTypeError), false), [])
    else if req.body.Unserialisable? then
      Outcome(Verdict(false, GeneralError(req.body.error), false), [])
    else if !InputsPresent(req) then
      Outcome(Verdict(false, MissingHeaders, false), [])
    else if IsValidationEvent(req.body) then
      Outcome(Verdict(true, ValidationAccepted, false), [])
    else
      var h := req.headers.value;
      var url := h.certUrl.value;
      if !TrustedCertUrl(url) then
        Outcome(Verdict(false, InvalidCertUrl, false), [])
      else
        match o.fetch(url)
        case FetchThrew(e) =>
          Outcome(Verdict(false, CertFetchError(e), false), [FetchCertificate(url)])
        case NotOk(_) =>
          Outcome(Verdict(false, CertFetchFailed, false), [FetchCertificate(url)])
        case Fetched(cert) =>
          var data := SignedData(h.transmissionId.value, h.transmissionTime.value, webhookId.value,
                                 o.sha256Hex(Serialise(req.body).value));
          var calls := [FetchCertificate(url), CheckSignature(data, cert, h.transmissionSig.value)];
          match o.verify(data, cert, h.transmissionSig.value)
          case SignatureValid =>
            Outcome(Verdict(true, WebhookVerified, false), calls)
          case SignatureInvalid =>
            if Includes(url, "sandbox") then Outcome(Verdict(true, SandboxAccepted, true), calls)
            else Outcome(Verdict(false, SignatureFailed, false), calls)
          case SignatureThrew(e) =>
            Outcome(Verdict(false, CryptoError(e), false), calls)
  }

  /** The request got past every check before the certificate download. */
  predicate ReachesFetch(req: Request, webhookId: Option<string>) {
    && Present(webhookId)
    && InputsPresent(req)
    && !IsValidationEvent(req.body)
    && TrustedCertUrl(req.headers.value.certUrl.value)
  }

  /** The signed data for a request that reaches the signature check. */
  function SignedDataOf(req: Request, webhookId: Option<string>, o: Oracles): string
    requires ReachesFetch(req, webhookId)
  {
    var h := req.headers.value;
    SignedData(h.transmissionId.value, h.transmissionTime.value, webhookId.value,
               o.sha256Hex(Serialise(req.body).value))
  }

  // ----- The ladder, rung by rung -----

  /** Without a configured webhook id nothing is read and nothing is called. */
  lemma MissingWebhookIdRejects(req: Request, webhookId: Option<string>, o: Oracles)
    requires !Present(webhookId)
    ensures VerifyWebhook(req, webhookId, o) == Outcome(Verdict(false, MissingWebhookId, false), [])
  {
  }

  /** A missing one of the five inputs rejects, validation body or not, and calls nothing. */
  lemma MissingInputRejects(req: Request, webhookId: Option<string>, o: Oracles)
    requires Present(webhookId) && req.headers.Some? && !req.body.Unserialisable?
    requires !InputsPresent(req)
    ensures VerifyWebhook(req, webhookId, o) == Outcome(Verdict(false, MissingHeaders, false), [])
  {
  }

  /** A validation body with no signature header is still rejected. */
  lemma ValidationNeedsHeaders(req: Request, webhookId: Option<string>, o: Oracles)
    requires Present(webhookId) && req.headers.Some? && IsValidationEvent(req.body)
    requires req.headers.value.transmissionSig == None
    ensures !VerifyWebhook(req, webhookId, o).verdict.verified
  {
  }

  /** With every input present, a validation body is accepted with no foreign call. */
  lemma ValidationBypass(req: Request, webhookId: Option<string>, o: Oracles)
    requires Present(webhookId) && InputsPresent(req) && IsValidationEvent(req.body)
    ensures VerifyWebhook(req, webhookId, o) == Outcome(Verdict(true, ValidationAccepted, false), [])
  {
  }

  /** Any uncaught error is a rejection without a foreign call. */
  lemma UnreadableRequestRejects(req: Request, webhookId: Option<string>, o: Oracles)
    requires Present(webhookId) && (req.headers.None? || req.body.Unserialisable?)
    ensures var out := VerifyWebhook(req, webhookId, o);
      !out.verdict.verified && out.verdict.message.GeneralError? && out.calls == []
  {
  }

  /** A certificate URL outside the two origins rejects before any download. */
  lemma UntrustedCertUrlRejects(req: Request, webhookId: Option<string>, o: Oracles)
    requires Present(webhookId) && InputsPresent(req) && !IsValidationEvent(req.body)
    requires !TrustedCertUrl(req.headers.value.certUrl.value)
    ensures VerifyWebhook(req, webhookId, o) == Outcome(Verdict(false, InvalidCertUrl, false), [])
  {
  }

  /** The only download is of the request's own, validated, certificate URL. */
  lemma FetchOnlyTrustedUrl(req: Request, webhookId: Option<string>, o: Oracles)
    ensures var out := VerifyWebhook(req, webhookId, o);
      out.calls != [] <==> ReachesFetch(req, webhookId)
    ensures var out := VerifyWebhook(req, webhookId, o);
      out.calls != [] ==> out.calls[0] == FetchCertificate(req.headers.value.certUrl.value)
  {
  }

  /** A download that throws or answers non-ok rejects, and no signature is checked. */
  lemma FetchFailureRejects(req: Request, webhookId: Option<string>, o: Oracles)
    requires ReachesFetch(req, webhookId)
    requires !o.fetch(req.headers.value.certUrl.value).Fetched?
    ensures var out := VerifyWebhook(req, webhookId, o);
      && !out.verdict.verified && !out.verdict.warning
      && out.calls == [FetchCertificate(req.headers.value.certUrl.value)]
  {
  }

  /**
   * When a signature is checked, it is the request's signature header, over
   * exactly `id|time|webhookId|sha256hex(serialised body)`, with the downloaded
   * certificate.
   */
  lemma SignatureCheckedOverSignedData(req: Request, webhookId: Option<string>, o: Oracles)
    ensures var out := VerifyWebhook(req, webhookId, o);
      forall c :: c in out.calls && c.CheckSignature? ==>
        && ReachesFetch(req, webhookId)
        && o.fetch(req.headers.value.certUrl.value) == Fetched(c.certificate)
        && c.data == SignedDataOf(req, webhookId, o)
        && c.signature == req.headers.value.transmissionSig.value
  {
  }

  /** The verdict once the signature has been checked. */
  lemma SignatureDecides(req: Request, webhookId: Option<string>, o: Oracles)
    requires ReachesFetch(req, webhookId)
    requires o.fetch(req.headers.value.certUrl.value).Fetched?
    ensures var h := req.headers.value;
      var cert := o.fetch(h.certUrl.value).certificate;
      var result := o.verify(SignedDataOf(req, webhookId, o), cert, h.transmissionSig.value);
      var v := VerifyWebhook(req, webhookId, o).verdict;
      && (result == SignatureValid ==> v == Verdict(true, WebhookVerified, false))
      && (result == SignatureInvalid ==> v.verified == v.warning == Includes(h.certUrl.value, "sandbox"))
      && (result.SignatureThrew? ==> !v.verified && !v.warning)
  {
  }

  /** `warning` is set on the sandbox leniency path and on no other. */
  lemma WarningOnlyOnSandboxLeniency(req: Request, webhookId: Option<string>, o: Oracles)
    ensures var out := VerifyWebhook(req, webhookId, o);
      out.verdict.warning <==>
        && ReachesFetch(req, webhookId)
        && Includes(req.headers.value.certUrl.value, "sandbox")
        && |out.calls| == 2 && out.calls[1].CheckSignature?
        && o.verify(out.calls[1].data, out.calls[1].certificate, out.calls[1].signature) == SignatureInvalid
  {
  }

  /** Exactly three paths accept a webhook. */
  lemma VerifiedPaths(req: Request, webhookId: Option<string>, o: Oracles)
    ensures var out := VerifyWebhook(req, webhookId, o);
      out.verdict.verified <==>
        || (Present(webhookId) && InputsPresent(req) && IsValidationEvent(req.body) && out.calls == [])
        || (&& ReachesFetch(req, webhookId) && |out.calls| == 2 && out.calls[1].CheckSignature?
            && var r := o.verify(out.calls[1].data, out.calls[1].certificate, out.calls[1].signature);
            r == SignatureValid || (r == SignatureInvalid && Includes(req.headers.value.certUrl.value, "sandbox")))
  {
  }

  /** A sandbox-origin URL always qualifies for the leniency. */
  lemma SandboxOriginIsLenient(url: string)
    requires StartsWith(url, SandboxOrigin)
    ensures TrustedCertUrl(url) && Includes(url, "sandbox")
  {
    var rest := url[|SandboxOrigin|..];
    assert url == "https://api." + ("sandbox" + (".paypal.com/" + rest));
    IncludesSuffixPrefix("https://api.", "sandbox", ".paypal.com/" + rest);
  }

  /** `a + t + b` includes `t`. */
  lemma IncludesSuffixPrefix(a: string, t: string, b: string)
    ensures Includes(a + (t + b), t)
  {
    IncludesIffOccurs(a + (t + b), t);
    assert (a + (t + b))[|a|..|a| + |t|] == t;
    assert OccursAt(a + (t + b), t, |a|);
  }

  /**
   * The leniency is keyed on the substring, not the origin: a certificate URL
   * on the production origin whose path or query mentions `sandbox` also has a
   * failed signature accepted, with the warning set.
   */
  lemma ProductionOriginCanBeLenient(req: Request, webhookId: Option<string>, o: Oracles)
    requires ReachesFetch(req, webhookId)
    requires req.headers.value.certUrl == Some(ProductionOrigin + "sandbox")
    requires o.fetch(ProductionOrigin + "sandbox").Fetched?
    requires forall d, c, s :: o.verify(d, c, s) == SignatureInvalid
    ensures VerifyWebhook(req, webhookId, o).verdict == Verdict(true, SandboxAccepted, true)
  {
    IncludesSuffix(ProductionOrigin, "sandbox");
  }

  /**
   * The signed data determines its four fields when none of them holds the
   * `|` delimiter (the digest is hex, so it never does).
   */
  lemma {:induction false} SignedDataFields(id: string, time: string, webhookId: string, digest: string)
    requires '|' !in id && '|' !in time && '|' !in webhookId && '|' !in digest
    ensures Split(SignedData(id, time, webhookId, digest), '|') == [id, time, webhookId, digest]
  {
    var parts := [id, time, webhookId, digest];
    assert Join(parts[3..], '|') == digest;
    assert Join(parts[2..], '|') == webhookId + "|" + digest;
    assert Join(parts[1..], '|') == time + "|" + (webhookId + "|" + digest);
    assert Join(parts, '|') == SignedData(id, time, webhookId, digest);
    SplitJoin(parts, '|');
  }
}
