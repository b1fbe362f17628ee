/** The mock payment provider and the client that maps its replies. */
module Psp {
  import opened Types

  datatype OutcomeStatus = OutcomeSucceeded | OutcomeFailed | OutcomeOther

  datatype ChargeOutcome = ChargeOutcome(
    status: OutcomeStatus, pspRef: Option<string>, code: Option<FailureCode>)

  /** What a charge leaves in the provider's store; `ref` is the fresh reference. */
  function StoredOutcome(token: CardToken, ref: string): Option<ChargeOutcome> {
    match token
    case TokSuccess => Some(ChargeOutcome(OutcomeSucceeded, Some(ref), None))
    case TokInsufficientFunds => Some(ChargeOutcome(OutcomeFailed, None, Some(InsufficientFunds)))
    case TokCardDeclined => Some(ChargeOutcome(OutcomeFailed, None, Some(CardDeclined)))
    case TokTimeout => Some(ChargeOutcome(OutcomeSucceeded, Some(ref), None))
    case TokNetworkError => None
    case TokOther(_) => None
  }

  /** What the client sees of the exchange: nothing within five seconds, a transport
      error, or a response whose body may fail to parse. */
  datatype WireReply = NoReply | TransportError | Http(ok: bool, body: Option<ChargeOutcome>)

  datatype PspResult =
    | ChargeSucceeded(pspRef: string) | ChargeFailed(code: FailureCode) | TimedOut | NetworkError

  function CallPsp(reply: WireReply): PspResult {
    match reply
    case NoReply => TimedOut
    case TransportError => NetworkError
    case Http(ok, body) =>
      if !ok then NetworkError
      else match body
        case None => NetworkError
        case Some(o) =>
          if o.status == OutcomeSucceeded then
            ChargeSucceeded(match o.pspRef case Some(r) => r case None => "")
          else
            ChargeFailed(match o.code case Some(c) => c case None => UnknownCode)
  }

  /** A result of the charge call that settles the attempt, as opposed to leaving it pending. */
  predicate Final(r: PspResult) { r.ChargeSucceeded? || r.ChargeFailed? }

  /** The provider stores complete outcomes: a reference with every success, a code with
      every failure, and never the worker's own expiry code. */
  predicate WellFormed(o: ChargeOutcome) {
    && (o.status == OutcomeSucceeded ==> o.pspRef.Some?)
    && (o.status == OutcomeFailed ==> o.code.Some? && o.code.value != ReconciliationTimeout)
    && o.status != OutcomeOther
  }

  /** The result `r` of a charge call tells the truth about the stored outcome `o`. */
  predicate Reports(r: PspResult, o: ChargeOutcome) {
    match r
    case ChargeSucceeded(ref) => o.status == OutcomeSucceeded && o.pspRef == Some(ref)
    case ChargeFailed(code) => o.status == OutcomeFailed && o.code == Some(code)
    case _ => true
  }

  /** The provider's process: one outcome per attempt behind a mutex. */
  class MockPsp {
    var store: map<Id, ChargeOutcome>

    constructor ()
      ensures store == map[]
    {
      store := map[];
    }

    /** The body of the charge handler that runs before its reply can reach the client. */
    method Charge(attemptId: Id, token: CardToken, ref: string)
      modifies this
      ensures StoredOutcome(token, ref).None? ==> store == old(store)
      ensures StoredOutcome(token, ref).Some? ==>
                store == old(store)[attemptId := StoredOutcome(token, ref).value]
      ensures token == TokSuccess || token == TokTimeout ==>
                store == old(store)[attemptId := ChargeOutcome(OutcomeSucceeded, Some(ref), None)]
      ensures token == TokInsufficientFunds ==>
                store == old(store)[attemptId := ChargeOutcome(OutcomeFailed, None, Some(InsufficientFunds))]
      ensures token == TokCardDeclined ==>
                store == old(store)[attemptId := ChargeOutcome(OutcomeFailed, None, Some(CardDeclined))]
      ensures token == TokNetworkError || token.TokOther? ==> store == old(store)
    {
      match token {
        case TokSuccess =>
          store := store[attemptId := ChargeOutcome(OutcomeSucceeded, Some(ref), None)];
        case TokInsufficientFunds =>
          store := store[attemptId := ChargeOutcome(OutcomeFailed, None, Some(InsufficientFunds))];
        case TokCardDeclined =>
          store := store[attemptId := ChargeOutcome(OutcomeFailed, None, Some(CardDeclined))];
        case TokTimeout =>
          store := store[attemptId := ChargeOutcome(OutcomeSucceeded, Some(ref), None)];
        case TokNetworkError =>
        case TokOther(_) =>
      }
    }

    method GetOutcome(attemptId: Id) returns (outcome: Option<ChargeOutcome>)
      ensures outcome.Some? <==> attemptId in store
      ensures outcome.Some? ==> outcome.value == store[attemptId]
    {
      if attemptId in store { outcome := Some(store[attemptId]); } else { outcome := None; }
    }
  }
}
