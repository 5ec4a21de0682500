/**
 * What the two payment routes (src/app/api/razorpay-verify/route.ts and
 * src/app/api/razorpay-order/route.ts) share: the request as the routes read it,
 * the bearer-token steps, and the JSON values their payload schemas inspect.
 */
module Http {
  import opened Wrappers
  import opened Strings

  /** A parsed JSON value, as far as the payload schemas look into it. */
  datatype Json = JObject(fields: map<string, Json>) | JString(s: string) | JOther

  /**
   * A request: its `Authorization` header, if sent, and its body, `None` when
   * `request.json()` throws on a body that is not JSON.
   */
  datatype Request = Request(authorization: Option<string>, body: Option<Json>)

  const BearerPrefix: string := "Bearer "

  /** `authorization?.startsWith('Bearer ')`. */
  predicate HasBearer(authorization: Option<string>)
  {
    authorization.Some? && StartsWith(authorization.value, BearerPrefix)
  }

  /** The text of `s` before the first occurrence of `sep`, or all of `s`. */
  function Before(s: string, sep: string): (r: string)
    requires |sep| > 0
    ensures |r| <= |s| && r == s[..|r|]
    decreases |s|
  {
    if |s| < |sep| then s
    else if s[..|sep|] == sep then []
    else [s[0]] + Before(s[1..], sep)
  }

  predicate OccursAt(s: string, sep: string, i: nat)
  {
    i + |sep| <= |s| && s[i..i + |sep|] == sep
  }

  ghost predicate Contains(s: string, sep: string)
  {
    exists i: nat :: OccursAt(s, sep, i)
  }

  /** Without a separator in it, the whole string is before the separator. */
  lemma {:induction false} BeforeWithoutSeparator(s: string, sep: string)
    requires |sep| > 0 && !Contains(s, sep)
    ensures Before(s, sep) == s
    decreases |s|
  {
    if |s| >= |sep| {
      assert !OccursAt(s, sep, 0);
      assert s[0..|sep|] == s[..|sep|];
      assert !Contains(s[1..], sep) by {
        forall i: nat | OccursAt(s[1..], sep, i)
          ensures false
        {
          assert s[1..][i..i + |sep|] == s[i + 1..i + 1 + |sep|];
          assert OccursAt(s, sep, i + 1);
        }
      }
      BeforeWithoutSeparator(s[1..], sep);
    }
  }

  /**
   * `authorization.split('Bearer ')[1]` for a header that starts with the prefix: the
   * text after it, up to a second occurrence of the prefix if there is one.
   */
  function BearerToken(authorization: string): (token: string)
    requires StartsWith(authorization, BearerPrefix)
  {
    Before(authorization[|BearerPrefix|..], BearerPrefix)
  }

  /** A header holding one prefix gives the rest of the header as the token. */
  lemma BearerTokenIsRest(authorization: string)
    requires StartsWith(authorization, BearerPrefix)
    requires !Contains(authorization[|BearerPrefix|..], BearerPrefix)
    ensures BearerToken(authorization) == authorization[|BearerPrefix|..]
  {
    BeforeWithoutSeparator(authorization[|BearerPrefix|..], BearerPrefix);
  }

  /** `adminAuth.verifyIdToken(token)`: the user id, or the error code it throws with. */
  datatype TokenResult = Verified(uid: string) | Rejected(code: Option<string>)

  /** The two codes both routes answer with 401 "Unauthorized: Invalid token". */
  predicate IsInvalidTokenCode(code: Option<string>)
  {
    code == Some("auth/id-token-expired") || code == Some("auth/argument-error")
  }

  /** A string field of a JSON object, if the body is an object holding a string there. */
  function StringField(body: Json, name: string): (r: Option<string>)
    ensures r.Some? <==> body.JObject? && name in body.fields && body.fields[name].JString?
    ensures r.Some? ==> r.value == body.fields[name].s
  {
    if body.JObject? && name in body.fields && body.fields[name].JString? then Some(body.fields[name].s)
    else None
  }
}
