/**
 * src/app/api/razorpay-verify/route.ts: `POST` checks the server configuration, the
 * bearer token, the payload and the payment signature, each failure answering at
 * once, and then merges the activated subscription into the caller's user document.
 * HMAC-SHA256 (RFC 2104) is the parameter `hmacHex(secret, message)`, the hex digest.
 */
module RazorpayVerify {
  import opened Wrappers
  import opened Strings
  import opened StoryTypes
  import opened Plans
  import opened UserDocs
  import opened Http

  /** What the route reads from its environment; an unset or empty secret is `""`. */
  datatype Env = Env(keySecret: string, adminReady: bool)

  /** The validated `VerificationPayloadSchema` fields. */
  datatype Payload = Payload(paymentId: string, orderId: string, signature: string, planId: string)

  /** The error answers, with their status code and message. */
  datatype VerifyError =
    | ConfigurationError
    | Unauthorized
    | InvalidToken
    | InvalidPayload
    | NotLegit
    | PlanNotFound
    | InternalError

  function Status(e: VerifyError): (code: int)
    ensures 400 <= code < 600
  {
    match e
    case ConfigurationError => 500
    case Unauthorized => 401
    case InvalidToken => 401
    case InvalidPayload => 400
    case NotLegit => 400
    case PlanNotFound => 404
    case InternalError => 500
  }

  function Message(e: VerifyError): string
  {
    match e
    case ConfigurationError => "Server configuration error."
    case Unauthorized => "Unauthorized"
    case InvalidToken => "Unauthorized: Invalid token"
    case InvalidPayload => "Invalid payload provided."
    case NotLegit => "Transaction not legit!"
    case PlanNotFound => "Plan not found in application configuration."
    case InternalError => "Internal Server Error"
  }

  /** The route's answer: an error, or `{ status: 'success', ... }` with status 200. */
  datatype Response = Failed(error: VerifyError) | Activated

  const SuccessMessage: string := "Subscription activated successfully."

  /** What the checks decide: refuse, or merge `write` into the document of `uid`. */
  datatype Decision = Refuse(error: VerifyError) | Activate(uid: string, write: SubscriptionWrite)

  /** `VerificationPayloadSchema.safeParse(body)`. */
  function ParsePayload(body: Json): (r: Option<Payload>)
    ensures r.Some? <==>
      && StringField(body, "razorpay_payment_id").Some?
      && StringField(body, "razorpay_order_id").Some?
      && StringField(body, "razorpay_signature").Some?
      && StringField(body, "planId").Some? && IsPlanIdEnum(StringField(body, "planId").value)
    ensures r.Some? ==> r.value == Payload(StringField(body, "razorpay_payment_id").value,
                                           StringField(body, "razorpay_order_id").value,
                                           StringField(body, "razorpay_signature").value,
                                           StringField(body, "planId").value)
  {
    var payment := StringField(body, "razorpay_payment_id");
    var order := StringField(body, "razorpay_order_id");
    var signature := StringField(body, "razorpay_signature");
    var plan := StringField(body, "planId");
    if payment.Some? && order.Some? && signature.Some? && plan.Some? && IsPlanIdEnum(plan.value)
    then Some(Payload(payment.value, order.value, signature.value, plan.value))
    else None
  }

  /** The message the signature is computed over. */
  function SignedMessage(orderId: string, paymentId: string): string
  {
    orderId + "|" + paymentId
  }

  const MillisecondsPerDay: int := 86400000

  /** The fields written for the plan: its name as `planId`, 30 days from now, count 0. */
  function ActivationWrite(plan: Plan, p: Payload, now: int): (w: SubscriptionWrite)
    ensures w.planId == plan.name && w.monthlyStoryLimit == plan.monthlyStoryLimit
    ensures w.subscriptionEndDate == now + 30 * MillisecondsPerDay && w.lastPaymentDate == now
    ensures w.paymentId == p.paymentId && w.orderId == p.orderId
  {
    SubscriptionWrite(plan.name, now + 30 * MillisecondsPerDay, now, plan.monthlyStoryLimit, p.paymentId, p.orderId)
  }

  /** The answer for a token `verifyIdToken` refused. */
  function TokenError(code: Option<string>): (e: VerifyError)
    ensures e == InvalidToken <==> IsInvalidTokenCode(code)
    ensures e != InvalidToken ==> e == InternalError
  {
    if IsInvalidTokenCode(code) then InvalidToken else InternalError
  }

  /** The check chain of `POST`, first failing check first. */
  function Decide(env: Env, req: Request, verifyToken: string -> TokenResult,
                  hmacHex: (string, string) -> string, now: int): (d: Decision)
  {
    if env.keySecret == "" || !env.adminReady then Refuse(ConfigurationError)
    else if !HasBearer(req.authorization) then Refuse(Unauthorized)
    else
      match verifyToken(BearerToken(req.authorization.value))
      case Rejected(code) => Refuse(TokenError(code))
      case Verified(uid) =>
        if req.body.None? then Refuse(InternalError)
        else
          match ParsePayload(req.body.value)
          case None => Refuse(InvalidPayload)
          case Some(p) =>
            if hmacHex(env.keySecret, SignedMessage(p.orderId, p.paymentId)) != p.signature then Refuse(NotLegit)
            else
              match FindPlan(p.planId)
              case None => Refuse(PlanNotFound)
              case Some(plan) => Activate(uid, ActivationWrite(plan, p, now))
  }

  /** A missing secret or missing admin services answer 500 whatever the request. */
  lemma ConfigurationCheckedFirst(env: Env, req: Request, verifyToken: string -> TokenResult,
                                  hmacHex: (string, string) -> string, now: int)
    requires env.keySecret == "" || !env.adminReady
    ensures Decide(env, req, verifyToken, hmacHex, now) == Refuse(ConfigurationError)
    ensures Status(ConfigurationError) == 500
  {
  }

  /** Without a `Bearer ` header the answer is 401 before the token or body is looked at. */
  lemma MissingBearerIsUnauthorized(env: Env, req: Request, verifyToken: string -> TokenResult,
                                    hmacHex: (string, string) -> string, now: int)
    requires env.keySecret != "" && env.adminReady && !HasBearer(req.authorization)
    ensures Decide(env, req, verifyToken, hmacHex, now) == Refuse(Unauthorized)
    ensures Status(Unauthorized) == 401
  {
  }

  /**
   * Each later check's answer, given that the checks before it passed: a refused
   * token is 401 for the two expired/malformed codes and 500 otherwise, a body that is
   * not JSON 500, a payload failing the schema 400, and a signature that is not the
   * HMAC of `orderId|paymentId` 400 "Transaction not legit!".
   */
  lemma RefusalAtEachCheck(env: Env, req: Request, verifyToken: string -> TokenResult,
                           hmacHex: (string, string) -> string, now: int)
    ensures env.keySecret != "" && env.adminReady && HasBearer(req.authorization)
            && verifyToken(BearerToken(req.authorization.value)).Rejected? ==>
              var code := verifyToken(BearerToken(req.authorization.value)).code;
              && Decide(env, req, verifyToken, hmacHex, now)
                 == Refuse(if IsInvalidTokenCode(code) then InvalidToken else InternalError)
              && Status(Decide(env, req, verifyToken, hmacHex, now).error) == (if IsInvalidTokenCode(code) then 401 else 500)
    ensures env.keySecret != "" && env.adminReady && HasBearer(req.authorization)
            && verifyToken(BearerToken(req.authorization.value)).Verified? && req.body.None? ==>
              Decide(env, req, verifyToken, hmacHex, now) == Refuse(InternalError)
    ensures env.keySecret != "" && env.adminReady && HasBearer(req.authorization)
            && verifyToken(BearerToken(req.authorization.value)).Verified?
            && req.body.Some? && ParsePayload(req.body.value).None? ==>
              Decide(env, req, verifyToken, hmacHex, now) == Refuse(InvalidPayload) && Status(InvalidPayload) == 400
    ensures env.keySecret != "" && env.adminReady && HasBearer(req.authorization)
            && verifyToken(BearerToken(req.authorization.value)).Verified?
            && req.body.Some? && ParsePayload(req.body.value).Some? ==>
              var p := ParsePayload(req.body.value).value;
              hmacHex(env.keySecret, p.orderId + "|" + p.paymentId) != p.signature ==>
                Decide(env, req, verifyToken, hmacHex, now) == Refuse(NotLegit) && Status(NotLegit) == 400
  {
  }

  /**
   * A payment is activated exactly when the configuration is present, the caller's
   * token verifies, the payload is valid and the signature is the HMAC of
   * `orderId|paymentId` under the secret; the user is the token's.
   */
  lemma ActivationIff(env: Env, req: Request, verifyToken: string -> TokenResult,
                      hmacHex: (string, string) -> string, now: int)
    ensures Decide(env, req, verifyToken, hmacHex, now).Activate? <==>
      && env.keySecret != "" && env.adminReady
      && HasBearer(req.authorization)
      && verifyToken(BearerToken(req.authorization.value)).Verified?
      && req.body.Some? && ParsePayload(req.body.value).Some?
      && hmacHex(env.keySecret, SignedMessage(ParsePayload(req.body.value).value.orderId,
                                              ParsePayload(req.body.value).value.paymentId))
         == ParsePayload(req.body.value).value.signature
    ensures Decide(env, req, verifyToken, hmacHex, now).Activate? ==>
      Decide(env, req, verifyToken, hmacHex, now).uid == verifyToken(BearerToken(req.authorization.value)).uid
  {
    if && env.keySecret != "" && env.adminReady && HasBearer(req.authorization)
       && verifyToken(BearerToken(req.authorization.value)).Verified?
       && req.body.Some? && ParsePayload(req.body.value).Some? {
      EnumIdsAreFound(ParsePayload(req.body.value).value.planId);
    }
  }

  /** With this plan table the 404 answer is never given. */
  lemma PlanNotFoundUnreachable(env: Env, req: Request, verifyToken: string -> TokenResult,
                                hmacHex: (string, string) -> string, now: int)
    ensures Decide(env, req, verifyToken, hmacHex, now) != Refuse(PlanNotFound)
  {
    if && env.keySecret != "" && env.adminReady && HasBearer(req.authorization)
       && verifyToken(BearerToken(req.authorization.value)).Verified?
       && req.body.Some? && ParsePayload(req.body.value).Some? {
      EnumIdsAreFound(ParsePayload(req.body.value).value.planId);
    }
  }

  /**
   * The activated record: the plan's name (not its id) as `planId`, its limit, a count
   * of 0, an end 30 days after now, and the payload's payment and order ids.
   */
  lemma ActivationRecord(env: Env, req: Request, verifyToken: string -> TokenResult,
                         hmacHex: (string, string) -> string, now: int, old_doc: Option<UserDoc>)
    requires Decide(env, req, verifyToken, hmacHex, now).Activate?
    ensures var p := ParsePayload(req.body.value).value;
            var plan := FindPlan(p.planId).value;
            var doc := Merged(old_doc, Decide(env, req, verifyToken, hmacHex, now).write);
      && plan.id == p.planId
      && doc.subscriptionStatus == Some("subscribed")
      && doc.planId == Some(plan.name)
      && doc.monthlyStoryLimit == Some(plan.monthlyStoryLimit)
      && doc.storiesGeneratedThisMonth == Some(0)
      && doc.subscriptionEndDate == Some(now + 30 * MillisecondsPerDay)
      && doc.lastPaymentDate == Some(now)
      && doc.paymentId == Some(p.paymentId) && doc.orderId == Some(p.orderId)
      && doc.email == (if old_doc.Some? then old_doc.value.email else None)
      && doc.createdAt == (if old_doc.Some? then old_doc.value.createdAt else None)
  {
    EnumIdsAreFound(ParsePayload(req.body.value).value.planId);
  }

  /**
   * Payment ids are not remembered: replaying the same verified request after `k`
   * stories were generated activates again and puts the count back to 0.
   */
  lemma ReplayResetsCount(env: Env, req: Request, verifyToken: string -> TokenResult,
                          hmacHex: (string, string) -> string, now: int, old_doc: Option<UserDoc>, k: nat)
    requires Decide(env, req, verifyToken, hmacHex, now).Activate?
    ensures var w := Decide(env, req, verifyToken, hmacHex, now).write;
      Merged(Some(IncrementedTimes(Merged(old_doc, w), k)), w) == Merged(old_doc, w)
  {
    MergeAfterIncrementsResetsCount(old_doc, Decide(env, req, verifyToken, hmacHex, now).write, k);
  }

  /**
   * `POST`: the decision, then the merge-write when it activates; `writeFails` is a
   * `set` that throws, answered with 500. Nothing is written on any refusal.
   */
  method Post(users: UserStore, env: Env, req: Request, verifyToken: string -> TokenResult,
              hmacHex: (string, string) -> string, now: int, writeFails: bool) returns (r: Response)
    modifies users
    ensures Decide(env, req, verifyToken, hmacHex, now).Refuse? ==>
              r == Failed(Decide(env, req, verifyToken, hmacHex, now).error) && users.docs == old(users.docs)
    ensures Decide(env, req, verifyToken, hmacHex, now).Activate? && writeFails ==>
              r == Failed(InternalError) && users.docs == old(users.docs)
    ensures Decide(env, req, verifyToken, hmacHex, now).Activate? && !writeFails ==>
              var d := Decide(env, req, verifyToken, hmacHex, now);
              r == Activated && users.docs == old(users.docs)[d.uid := Merged(Lookup(old(users.docs), d.uid), d.write)]
  {
    var d := Decide(env, req, verifyToken, hmacHex, now);
    if d.Refuse? {
      return Failed(d.error);
    }
    if writeFails {
      return Failed(InternalError);
    }
    users.Merge(d.uid, d.write);
    return Activated;
  }
}
