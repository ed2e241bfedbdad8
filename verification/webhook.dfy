/**
 * The Paystack webhook: authenticate the raw body by its HMAC signature,
 * ignore events other than `charge.success`, verify the charge with the
 * gateway by reference and enqueue one reconciliation job built from the
 * gateway's own account of the transaction.
 */
module PaystackWebhook {

  import opened Common
  import opened Models
  import opened Config
  import opened ReconcilePayment

  /** The event types the handler acts on. */
  const AllowedWebhooks: seq<string> := ["charge.success"]

  const WebhookHandled: string := "webhook handled"
  const WebhookLogged: string := "webhook_logged"

  /** The fields of the parsed body the handler reads: `event` and `data.reference`. */
  datatype WebhookBody = WebhookBody(event: string, reference: string)

  /** The `data` of the gateway's verify-transaction response. */
  datatype TransactionData = TransactionData(
    amount: int,
    currency: string,
    fees: int,
    metadata: Metadata,
    reference: string)

  /** What the gateway's verify call came back with. */
  datatype VerifyResponse =
    | Verified(data: TransactionData)
    | ErrorStatus(status: int)          // the gateway answered with an error status
    | NoResponse                        // the request failed without a response

  /** `verifyPaymentByReference`'s error mapping: 400 means the payment is unknown, anything else is a 503. */
  function VerifyFailure(v: VerifyResponse): (e: HttpError)
    requires !v.Verified?
    ensures v == ErrorStatus(400) <==> e == NotFound("Payment not found")
    ensures v != ErrorStatus(400) <==> e == HttpError(503, "Unable to verify payment")
  {
    if v == ErrorStatus(400) then NotFound("Payment not found")
    else HttpError(503, "Unable to verify payment")
  }

  /** The job `onChargeSuccess` enqueues; `stringify` stands for `JSON.stringify`. */
  function BuildJob(data: TransactionData, stringify: TransactionData -> string): (job: Job)
    ensures job.reference == data.reference && job.processorRef == data.reference
    ensures job.processor == Paystack && job.status == "successful"
    ensures job.amount == data.amount && job.currency == data.currency && job.fee == data.fees
    ensures job.metadata == data.metadata && job.processorResponse == stringify(data)
  {
    Job(Paystack, data.reference, data.reference, data.amount, data.fees, data.currency,
      "successful", data.metadata, stringify(data))
  }

  /** `createHmac`: the HMAC of the raw body keyed by the Paystack secret; `hmac` stands for HMAC-SHA512 in hex. */
  function CreateHmac(env: Env, hmac: (string, string) -> string, body: string): (r: Result<string, AppError>)
    ensures r.Success? <==> GetRequired(env, PaystackApiKey).Success?
    ensures r.Success? ==> r.value == hmac(GetRequired(env, PaystackApiKey).value, body)
    ensures r.Failure? ==> r.error == Plain("Missing required environment variable: paystackApiKey")
  {
    var secret := GetRequired(env, PaystackApiKey);
    assert "Missing required environment variable: " + KeyName(PaystackApiKey)
      == "Missing required environment variable: paystackApiKey";
    if secret.Failure? then Failure(AsAppError(secret.error)) else Success(hmac(secret.value, body))
  }

  /** The handler's collaborators: the environment, HMAC, JSON parsing, the gateway. */
  datatype Collaborators = Collaborators(
    env: Env,
    hmac: (string, string) -> string,
    parse: string -> Option<WebhookBody>,
    stringify: TransactionData -> string,
    verify: string -> VerifyResponse)

  /** A signature the configured secret produces for this body. */
  predicate Authentic(c: Collaborators, body: string, signature: string)
  {
    GetRequired(c.env, PaystackApiKey).Success? && signature == Signature(c, body)
  }

  function Signature(c: Collaborators, body: string): string
    requires GetRequired(c.env, PaystackApiKey).Success?
  {
    c.hmac(GetRequired(c.env, PaystackApiKey).value, body)
  }

  /**
   * `requestWebhook`: the response, and the job enqueued, if any.
   * A body `parse` rejects stands for `JSON.parse` throwing, a plain error.
   */
  function HandleWebhook(c: Collaborators, body: string, signature: string): (r: (Result<string, AppError>, Option<Job>))
    ensures r.1.Some? ==> Authentic(c, body, signature)
    ensures GetRequired(c.env, PaystackApiKey).Success? && !Authentic(c, body, signature) ==>
      r == (Failure(Http(Unauthorized("Invalid webhook"))), None)
    ensures r.0 == Success(WebhookHandled) <==> r.1.Some?
    ensures r.1.Some? ==>
      && c.parse(body).Some? && c.parse(body).value.event in AllowedWebhooks
      && c.verify(c.parse(body).value.reference).Verified?
      && r.1.value == BuildJob(c.verify(c.parse(body).value.reference).data, c.stringify)
    ensures r.0 == Success(WebhookLogged) <==>
      Authentic(c, body, signature) && c.parse(body).Some? && c.parse(body).value.event !in AllowedWebhooks
    ensures Authentic(c, body, signature) && c.parse(body).Some? && c.parse(body).value.event in AllowedWebhooks ==>
      var v := c.verify(c.parse(body).value.reference);
      !v.Verified? ==> r == (Failure(Http(VerifyFailure(v))), None)
    ensures Authentic(c, body, signature) && c.parse(body).Some? && c.parse(body).value.event in AllowedWebhooks ==>
      var v := c.verify(c.parse(body).value.reference);
      v.Verified? ==> r == (Success(WebhookHandled), Some(BuildJob(v.data, c.stringify)))
    ensures GetRequired(c.env, PaystackApiKey).Failure? ==>
      r == (Failure(Plain("Missing required environment variable: paystackApiKey")), None)
    ensures Authentic(c, body, signature) && c.parse(body).None? ==>
      r == (Failure(Plain("Unexpected token in JSON")), None)
  {
    var calculated := CreateHmac(c.env, c.hmac, body);
    if calculated.Failure? then (Failure(calculated.error), None)
    else if calculated.value != signature then (Failure(Http(Unauthorized("Invalid webhook"))), None)
    else if c.parse(body).None? then (Failure(Plain("Unexpected token in JSON")), None)
    else
      var parsed := c.parse(body).value;
      if parsed.event !in AllowedWebhooks then (Success(WebhookLogged), None)
      else
        var v := c.verify(parsed.reference);
        if !v.Verified? then (Failure(Http(VerifyFailure(v))), None)
        else (Success(WebhookHandled), Some(BuildJob(v.data, c.stringify)))
  }

  class PaystackWebhookHandler {
    const collaborators: Collaborators
    const worker: ReconcilePaymentWorker

    constructor (collaborators: Collaborators, worker: ReconcilePaymentWorker)
      ensures this.collaborators == collaborators && this.worker == worker
    {
      this.collaborators := collaborators;
      this.worker := worker;
    }

    method RequestWebhook(body: string, signature: string) returns (r: Result<string, AppError>)
      modifies worker.queue
      ensures var (response, job) := HandleWebhook(collaborators, body, signature);
        && r == response
        && worker.queue.jobs == old(worker.queue.jobs) + (if job.Some? then [(JobName, job.value)] else [])
    {
      var calculated := CreateHmac(collaborators.env, collaborators.hmac, body);
      if calculated.Failure? {
        return Failure(calculated.error);
      }
      if calculated.value != signature {
        return Failure(Http(Unauthorized("Invalid webhook")));
      }
      var parsed := collaborators.parse(body);
      if parsed.None? {
        return Failure(Plain("Unexpected token in JSON"));
      }
      if parsed.value.event !in AllowedWebhooks {
        return Success(WebhookLogged);
      }
      var handled := OnChargeSuccess(parsed.value);
      if handled.Failure? {
        return Failure(handled.error);
      }
      r := Success(WebhookHandled);
    }

    /** Verify the charge by the body's reference and enqueue the job the gateway's data describes. */
    method OnChargeSuccess(parsed: WebhookBody) returns (r: Result<(), AppError>)
      modifies worker.queue
      ensures var v := collaborators.verify(parsed.reference);
        && (r.Success? <==> v.Verified?)
        && (r.Failure? ==> r.error == Http(VerifyFailure(v)))
        && worker.queue.jobs == old(worker.queue.jobs) +
             (if v.Verified? then [(JobName, BuildJob(v.data, collaborators.stringify))] else [])
    {
      var v := collaborators.verify(parsed.reference);
      if !v.Verified? {
        return Failure(Http(VerifyFailure(v)));
      }
      var job := BuildJob(v.data, collaborators.stringify);
      worker.Trigger(job);
      r := Success(());
    }
  }

  /**
   * A redelivered webhook: the same body and signature produce the same job,
   * and once the first copy is reconciled the second is refused as a duplicate
   * without touching the collections.
   */
  lemma RedeliveryIsDuplicate(c: Collaborators, body: string, signature: string, s: Ledger)
    requires HandleWebhook(c, body, signature).1.Some?
    requires Reconcile(HandleWebhook(c, body, signature).1.value, s).0 == Success(PaymentReconciled)
    ensures
      var job := HandleWebhook(c, body, signature).1.value;
      var s' := Reconcile(job, s).1;
      Reconcile(job, s') == (Failure(DuplicatePayment), s')
  {
    ReplayIsDuplicate(HandleWebhook(c, body, signature).1.value, s);
  }

  /**
   * Webhook jobs carry the gateway reference as both reference and processor
   * reference, so the duplicate check matches two of them exactly when the
   * gateway references are equal.
   */
  lemma WebhookJobsConflictIffSameReference(d1: TransactionData, d2: TransactionData,
                                            stringify: TransactionData -> string, id: Id)
    ensures Conflicts(NewPayment(BuildJob(d1, stringify), id), BuildJob(d2, stringify)) <==> d1.reference == d2.reference
  {
  }
}
