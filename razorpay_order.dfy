/**
 * src/app/api/razorpay-order/route.ts: `POST` checks the keys, the bearer token, the
 * payload and that the payload's user is the token's, then asks Razorpay for an
 * order priced in paise. The order-creation call is the parameter `create`.
 */
module RazorpayOrder {
  import opened Wrappers
  import opened Strings
  import opened StoryTypes
  import opened Plans
  import opened Http

  /**
   * What the route reads from its environment (an unset or empty key is `""`) and
   * whether `adminAuth` was initialised.
   */
  datatype Env = Env(keyId: string, keySecret: string, adminAuthReady: bool)

  /** The validated `OrderPayloadSchema` fields. */
  datatype Payload = Payload(planId: string, userId: string)

  datatype OrderError =
    | ConfigurationError
    | Unauthorized
    | InvalidToken
    | InvalidPayload
    | UserMismatch
    | PlanNotFound
    | InternalError

  function Status(e: OrderError): (code: int)
    ensures 400 <= code < 600
  {
    match e
    case ConfigurationError => 500
    case Unauthorized => 401
    case InvalidToken => 401
    case InvalidPayload => 400
    case UserMismatch => 403
    case PlanNotFound => 404
    case InternalError => 500
  }

  function Message(e: OrderError): string
  {
    match e
    case ConfigurationError => "Server configuration error."
    case Unauthorized => "Unauthorized"
    case InvalidToken => "Unauthorized: Invalid token"
    case InvalidPayload => "Invalid payload."
    case UserMismatch => "User ID mismatch."
    case PlanNotFound => "Plan not found."
    case InternalError => "Internal Server Error"
  }

  datatype Notes = Notes(userId: string, planId: string)

  /** The options passed to `razorpay.orders.create`. */
  datatype OrderOptions = OrderOptions(amount: int, currency: string, receipt: string, notes: Notes)

  /** The order Razorpay returns, as far as the model follows it. */
  datatype Order = Order(id: string, amount: int, currency: string)

  /** The answer: an error, or the created order with `keyId` added. */
  datatype Response = Failed(error: OrderError) | Created(order: Order, keyId: string)

  /** `OrderPayloadSchema.safeParse(body)`: an enum plan id and a non-empty user id. */
  function ParsePayload(body: Json): (r: Option<Payload>)
    ensures r.Some? <==>
      && StringField(body, "planId").Some? && IsPlanIdEnum(StringField(body, "planId").value)
      && StringField(body, "userId").Some? && |StringField(body, "userId").value| >= 1
    ensures r.Some? ==> r.value == Payload(StringField(body, "planId").value, StringField(body, "userId").value)
  {
    var plan := StringField(body, "planId");
    var user := StringField(body, "userId");
    if plan.Some? && IsPlanIdEnum(plan.value) && user.Some? && |user.value| >= 1
    then Some(Payload(plan.value, user.value))
    else None
  }

  /** The order for a plan: its price in paise, in rupees, with the payer in the notes. */
  function Options(plan: Plan, p: Payload, now: nat): (o: OrderOptions)
    ensures o.amount == plan.price * 100
    ensures o.currency == "INR"
    ensures o.receipt == "receipt_order_" + Decimal(now)
    ensures o.notes == Notes(p.userId, p.planId)
  {
    OrderOptions(plan.price * 100, "INR", "receipt_order_" + Decimal(now), Notes(p.userId, p.planId))
  }

  /** What the checks decide: refuse, or create an order with these options. */
  datatype Decision = Refuse(error: OrderError) | CreateOrder(options: OrderOptions)

  /** The check chain of `POST`, first failing check first. */
  function Decide(env: Env, req: Request, verifyToken: string -> TokenResult, now: nat): (d: Decision)
  {
    if env.keyId == "" || env.keySecret == "" then Refuse(ConfigurationError)
    else if !HasBearer(req.authorization) then Refuse(Unauthorized)
    // `adminAuth.verifyIdToken` on an uninitialised `adminAuth` throws a TypeError without a code.
    else if !env.adminAuthReady then Refuse(InternalError)
    else
      match verifyToken(BearerToken(req.authorization.value))
      case Rejected(code) => Refuse(if IsInvalidTokenCode(code) then InvalidToken else InternalError)
      case Verified(uid) =>
        if req.body.None? then Refuse(InternalError)
        else
          match ParsePayload(req.body.value)
          case None => Refuse(InvalidPayload)
          case Some(p) =>
            if uid != p.userId then Refuse(UserMismatch)
            else
              match FindPlan(p.planId)
              case None => Refuse(PlanNotFound)
              case Some(plan) => CreateOrder(Options(plan, p, now))
  }

  /** `POST` with the creation call; a call that throws (`None`) is answered with 500. */
  function Post(env: Env, req: Request, verifyToken: string -> TokenResult,
                create: OrderOptions -> Option<Order>, now: nat): (r: Response)
    ensures r.Created? <==> Decide(env, req, verifyToken, now).CreateOrder?
                            && create(Decide(env, req, verifyToken, now).options).Some?
    ensures r.Created? ==> Some(r.order) == create(Decide(env, req, verifyToken, now).options) && r.keyId == env.keyId
    ensures Decide(env, req, verifyToken, now).Refuse? ==> r == Failed(Decide(env, req, verifyToken, now).error)
    ensures Decide(env, req, verifyToken, now).CreateOrder? && r.Failed? ==> r.error == InternalError
  {
    match Decide(env, req, verifyToken, now)
    case Refuse(e) => Failed(e)
    case CreateOrder(options) =>
      match create(options)
      case Some(order) => Created(order, env.keyId)
      case None => Failed(InternalError)
  }

  /** A missing key id or secret answers 500 whatever the request. */
  lemma MissingKeysAreConfigurationError(env: Env, req: Request, verifyToken: string -> TokenResult, now: nat)
    requires env.keyId == "" || env.keySecret == ""
    ensures Decide(env, req, verifyToken, now) == Refuse(ConfigurationError)
  {
  }

  /**
   * Each later check's answer, given that the checks before it passed: missing admin
   * services 500 (the call throws without a code), a refused token 401 for the two
   * expired/malformed codes and 500 otherwise, a body that is not JSON 500, a payload
   * failing the schema 400, and a payload naming another user 403.
   */
  lemma RefusalAtEachCheck(env: Env, req: Request, verifyToken: string -> TokenResult, now: nat)
    ensures env.keyId != "" && env.keySecret != "" && HasBearer(req.authorization) && !env.adminAuthReady ==>
              Decide(env, req, verifyToken, now) == Refuse(InternalError) && Status(InternalError) == 500
    ensures env.keyId != "" && env.keySecret != "" && HasBearer(req.authorization) && env.adminAuthReady
            && verifyToken(BearerToken(req.authorization.value)).Rejected? ==>
              var code := verifyToken(BearerToken(req.authorization.value)).code;
              && Decide(env, req, verifyToken, now) == Refuse(if IsInvalidTokenCode(code) then InvalidToken else InternalError)
              && Status(Decide(env, req, verifyToken, now).error) == (if IsInvalidTokenCode(code) then 401 else 500)
    ensures env.keyId != "" && env.keySecret != "" && HasBearer(req.authorization) && env.adminAuthReady
            && verifyToken(BearerToken(req.authorization.value)).Verified? && req.body.None? ==>
              Decide(env, req, verifyToken, now) == Refuse(InternalError)
    ensures env.keyId != "" && env.keySecret != "" && HasBearer(req.authorization) && env.adminAuthReady
            && verifyToken(BearerToken(req.authorization.value)).Verified?
            && req.body.Some? && ParsePayload(req.body.value).None? ==>
              Decide(env, req, verifyToken, now) == Refuse(InvalidPayload) && Status(InvalidPayload) == 400
    ensures env.keyId != "" && env.keySecret != "" && HasBearer(req.authorization) && env.adminAuthReady
            && verifyToken(BearerToken(req.authorization.value)).Verified?
            && req.body.Some? && ParsePayload(req.body.value).Some?
            && verifyToken(BearerToken(req.authorization.value)).uid != ParsePayload(req.body.value).value.userId ==>
              Decide(env, req, verifyToken, now) == Refuse(UserMismatch) && Status(UserMismatch) == 403
  {
  }

  /** Without a `Bearer ` header the answer is 401, before the token is looked at. */
  lemma MissingBearerIsUnauthorized(env: Env, req: Request, verifyToken: string -> TokenResult, now: nat)
    requires env.keyId != "" && env.keySecret != "" && !HasBearer(req.authorization)
    ensures Decide(env, req, verifyToken, now) == Refuse(Unauthorized) && Status(Unauthorized) == 401
  {
  }

  /**
   * An order is requested exactly when the keys are set, the token verifies, the
   * payload is valid and names the token's user; its amount is the plan's price in
   * paise and its notes carry the user and the plan.
   */
  lemma OrderIff(env: Env, req: Request, verifyToken: string -> TokenResult, now: nat)
    ensures Decide(env, req, verifyToken, now).CreateOrder? <==>
      && env.keyId != "" && env.keySecret != ""
      && HasBearer(req.authorization) && env.adminAuthReady
      && verifyToken(BearerToken(req.authorization.value)).Verified?
      && req.body.Some? && ParsePayload(req.body.value).Some?
      && verifyToken(BearerToken(req.authorization.value)).uid == ParsePayload(req.body.value).value.userId
    ensures Decide(env, req, verifyToken, now).CreateOrder? ==>
      var p := ParsePayload(req.body.value).value;
      var o := Decide(env, req, verifyToken, now).options;
      && o.amount == FindPlan(p.planId).value.price * 100
      && o.currency == "INR"
      && o.notes == Notes(p.userId, p.planId)
  {
    if && env.keyId != "" && env.keySecret != "" && HasBearer(req.authorization) && env.adminAuthReady
       && verifyToken(BearerToken(req.authorization.value)).Verified?
       && req.body.Some? && ParsePayload(req.body.value).Some? {
      EnumIdsAreFound(ParsePayload(req.body.value).value.planId);
    }
  }

  /** The two plans cost 19900 and 59900 paise. */
  lemma PlanAmounts(p: Payload, now: nat)
    ensures Options(Creator, p, now).amount == 19900
    ensures Options(Pro, p, now).amount == 59900
  {
  }

  /** The user check comes before the plan lookup, and the plan lookup never fails. */
  lemma MismatchBeforePlanLookup(env: Env, req: Request, verifyToken: string -> TokenResult, now: nat)
    ensures Decide(env, req, verifyToken, now) != Refuse(PlanNotFound)
    ensures && env.keyId != "" && env.keySecret != "" && HasBearer(req.authorization) && env.adminAuthReady
            && verifyToken(BearerToken(req.authorization.value)).Verified?
            && req.body.Some? && ParsePayload(req.body.value).Some?
            && verifyToken(BearerToken(req.authorization.value)).uid != ParsePayload(req.body.value).value.userId
            ==> Decide(env, req, verifyToken, now) == Refuse(UserMismatch)
  {
    if && env.keyId != "" && env.keySecret != "" && HasBearer(req.authorization) && env.adminAuthReady
       && verifyToken(BearerToken(req.authorization.value)).Verified?
       && req.body.Some? && ParsePayload(req.body.value).Some? {
      EnumIdsAreFound(ParsePayload(req.body.value).value.planId);
    }
  }
}
