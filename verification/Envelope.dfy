/** The session envelopes that travel between two endpoints. */
module Envelope {
  import opened Types
  import opened SessionConfig
  import opened Protobuf

  datatype Reject = Reject(code: string, message: string, detail: Bytes)

  datatype Verdict = Granted(payload: Bytes) | Denied(reject: Reject)

  datatype Msg =
    | Open(sender: nat, window: nat, maxPacket: nat, typ: string, payload: Bytes)
    | OpenOk(opener: nat, sender: nat, window: nat, maxPacket: nat, payload: Bytes)
    | OpenReject(opener: nat, reject: Reject)
    | Data(to: nat, data: Bytes)
    | Adjust(to: nat, bytes: nat)
    | Eof(to: nat)
    | Close(to: nat)
    | Request(to: nat, id: nat, typ: string, want: bool, payload: Bytes)
    | Reply(to: nat, id: nat, verdict: Verdict)
    | GlobalRequest(id: nat, typ: string, want: bool, payload: Bytes)
    | GlobalReply(id: nat, verdict: Verdict)
    | Disconnect(code: string, message: string)

  /** Session.validateTypeAndPayload */
  predicate TypeOk(cfg: Config, typ: string, payload: Bytes) {
    && typ != ""
    && |typ| <= cfg.limits.maxTypeLength
    && |payload| <= cfg.limits.maxControlPayload
  }

  /** Session.validateResponse */
  predicate RejectOk(cfg: Config, r: Reject) {
    && |r.code| <= cfg.limits.maxCodeLength
    && |r.message| <= cfg.limits.maxMessageLength
    && |r.detail| <= cfg.limits.maxControlPayload
  }

  /** What the receiver of a reply checks. */
  predicate VerdictOk(cfg: Config, v: Verdict) {
    match v
    case Granted(p) => |p| <= cfg.limits.maxControlPayload
    case Denied(r) => RejectOk(cfg, r)
  }

  /** normalizeRejectCode and normalizeRejectMessage */
  function Normalize(r: Reject, code: string, message: string): Reject {
    Reject(
      if r.code == "" then code else r.code,
      if r.message == "" then message else r.message,
      r.detail)
  }

  /** The reject an endpoint invents when one of its limits is reached. */
  function LimitReject(message: string): Reject {
    Reject("resource-limit", message, [])
  }

  // ----- encoded sizes, with which the queues are charged; a string's length is its length in bytes

  function RejectSize(r: Reject): nat {
    TextSize(|r.code|) + TextSize(|r.message|) + TextSize(|r.detail|)
  }

  function VerdictSize(v: Verdict): nat {
    match v
    case Granted(p) => TextSize(|p|)
    case Denied(r) => RejectSize(r)
  }

  /** The message inside the envelope. */
  function Body(m: Msg): nat {
    match m
    case Open(s, w, p, typ, payload) =>
      TextSize(|typ|) + NumberSize(s) + NumberSize(w) + NumberSize(p) + TextSize(|payload|)
    case OpenOk(o, s, w, p, payload) =>
      NumberSize(o) + MessageSize(NumberSize(s) + NumberSize(w) + NumberSize(p) + TextSize(|payload|))
    case OpenReject(o, r) => NumberSize(o) + MessageSize(RejectSize(r))
    case Data(to, data) => NumberSize(to) + TextSize(|data|)
    case Adjust(to, bytes) => NumberSize(to) + NumberSize(bytes)
    case Eof(to) => NumberSize(to)
    case Close(to) => NumberSize(to)
    case Request(to, id, typ, want, payload) =>
      NumberSize(to) + NumberSize(id) + TextSize(|typ|) + FlagSize(want) + TextSize(|payload|)
    case Reply(to, id, v) => NumberSize(to) + NumberSize(id) + MessageSize(VerdictSize(v))
    case GlobalRequest(id, typ, want, payload) => NumberSize(id) + TextSize(|typ|) + FlagSize(want) + TextSize(|payload|)
    case GlobalReply(id, v) => NumberSize(id) + MessageSize(VerdictSize(v))
    case Disconnect(code, message) => TextSize(|code|) + TextSize(|message|)
  }

  /** The whole envelope. */
  function Size(m: Msg): nat {
    MessageSize(Body(m))
  }

  /** Messages addressed to an open channel of the receiver. */
  predicate Addressed(m: Msg) {
    m.Data? || m.Adjust? || m.Eof? || m.Close? || m.Request? || m.Reply?
  }
}
