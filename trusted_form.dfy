/** The TrustedForm certificate capture: messages posted by the hidden web view are read
    as JSON; the first certificate URL is handed on once, and a latch drops every message
    after it until the capture is reset. */
module TrustedForm {
  import opened Wrappers
  import opened Json

  const CertType := "trustedform_cert"
  const ErrorType := "trustedform_error"

  /** What one message leads to: `onCertUrl(url)`, `onError?.(error)` with the message's
      `error` field (absent when it has none), `onError?.(e)` with the parse error, or
      nothing. */
  datatype Effect =
    | CertDelivered(url: string)
    | ErrorReported(error: Option<Json>)
    | ParseErrorReported(message: string)
    | Ignored

  /** `data?.type === t` */
  predicate HasType(data: Json, t: string) {
    Field(Some(data), "type") == Some(JString(t))
  }

  /** A message carrying a certificate: the cert type and a non-empty string `certUrl`. */
  predicate IsCert(data: Json) {
    && HasType(data, CertType)
    && Field(Some(data), "certUrl").Some?
    && Field(Some(data), "certUrl").value.JString?
    && Field(Some(data), "certUrl").value.s != []
  }

  /** What a message leads to while the latch is open. */
  function Classify(parse: string -> Parsed, raw: string): (e: Effect)
    ensures e.CertDelivered? <==> parse(raw).Parsed? && IsCert(parse(raw).value)
    ensures e.CertDelivered? ==> e.url != [] && Field(Some(parse(raw).value), "certUrl") == Some(JString(e.url))
    ensures e.ErrorReported? <==> parse(raw).Parsed? && HasType(parse(raw).value, ErrorType)
    ensures e.ErrorReported? ==> e.error == Field(Some(parse(raw).value), "error")
    ensures e.ParseErrorReported? <==> parse(raw).SyntaxError?
  {
    match parse(raw)
    case SyntaxError(message) => ParseErrorReported(message)
    case Parsed(data) =>
      if IsCert(data) then CertDelivered(Field(Some(data), "certUrl").value.s)
      else if HasType(data, ErrorType) then ErrorReported(Field(Some(data), "error"))
      else Ignored
  }

  class CertCapture {
    /** `didSendRef` */
    var delivered: bool

    constructor ()
      ensures !delivered
    {
      delivered := false;
    }

    /** `onMessage`: once a certificate has gone out, everything is dropped, errors
        included; the latch closes before `onCertUrl` runs, and only a certificate
        closes it. */
    method OnMessage(parse: string -> Parsed, raw: string) returns (effect: Effect)
      modifies this
      ensures old(delivered) ==> effect == Ignored && delivered
      ensures !old(delivered) ==> effect == Classify(parse, raw)
      ensures delivered <==> old(delivered) || effect.CertDelivered?
    {
      if delivered {
        return Ignored;
      }
      effect := Classify(parse, raw);
      if effect.CertDelivered? {
        delivered := true;
      }
    }

    /** `reset`: open the latch again (the web view reload is not modelled). */
    method Reset()
      modifies this
      ensures !delivered
    {
      delivered := false;
    }

    /** After a reset the next certificate is delivered again. */
    method ResetThenCert(parse: string -> Parsed, raw: string) returns (effect: Effect)
      requires parse(raw).Parsed? && IsCert(parse(raw).value)
      modifies this
      ensures effect.CertDelivered? && delivered
    {
      Reset();
      effect := OnMessage(parse, raw);
    }

    /** Two certificates in a row: the second is dropped. */
    method CertTwice(parse: string -> Parsed, first: string, second: string) returns (e1: Effect, e2: Effect)
      requires !delivered
      requires parse(first).Parsed? && IsCert(parse(first).value)
      modifies this
      ensures e1.CertDelivered? && e2 == Ignored && delivered
    {
      e1 := OnMessage(parse, first);
      e2 := OnMessage(parse, second);
    }
  }
}
