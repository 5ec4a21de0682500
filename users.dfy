/**
 * The `users` collection shared by src/context/auth-context.tsx (client) and
 * src/app/api/razorpay-verify/route.ts (server): one document per user id.
 * A field that is absent or null is `None`; times are milliseconds since the epoch.
 */
module UserDocs {
  import opened Wrappers

  datatype UserDoc = UserDoc(
    email: Option<string>,
    subscriptionStatus: Option<string>,
    createdAt: Option<int>,
    planId: Option<string>,
    subscriptionEndDate: Option<int>,
    lastPaymentDate: Option<int>,
    monthlyStoryLimit: Option<int>,
    storiesGeneratedThisMonth: Option<int>,
    paymentId: Option<string>,
    orderId: Option<string>)

  const EmptyDoc: UserDoc := UserDoc(None, None, None, None, None, None, None, None, None, None)

  /** The document sign-up writes (auth-context.tsx:109-115); it replaces any previous one. */
  function SignUpDoc(email: Option<string>, now: int): (d: UserDoc)
    ensures d.subscriptionStatus == Some("unsubscribed")
    ensures d.monthlyStoryLimit == Some(0) && d.storiesGeneratedThisMonth == Some(0)
    ensures d.email == email && d.createdAt == Some(now)
    ensures d.planId.None? && d.subscriptionEndDate.None? && d.paymentId.None? && d.orderId.None?
  {
    EmptyDoc.(email := email, subscriptionStatus := Some("unsubscribed"), createdAt := Some(now),
              monthlyStoryLimit := Some(0), storiesGeneratedThisMonth := Some(0))
  }

  /** `updateDoc(ref, { storiesGeneratedThisMonth: increment(1) })`: an absent counter counts as 0. */
  function Incremented(d: UserDoc): (r: UserDoc)
    ensures r.storiesGeneratedThisMonth == Some(d.storiesGeneratedThisMonth.GetOr(0) + 1)
    ensures r.(storiesGeneratedThisMonth := d.storiesGeneratedThisMonth) == d
  {
    d.(storiesGeneratedThisMonth := Some(d.storiesGeneratedThisMonth.GetOr(0) + 1))
  }

  /** The fields a verified payment writes (razorpay-verify/route.ts:64-78). */
  datatype SubscriptionWrite = SubscriptionWrite(
    planId: string,
    subscriptionEndDate: int,
    lastPaymentDate: int,
    monthlyStoryLimit: int,
    paymentId: string,
    orderId: string)

  /**
   * `set(data, { merge: true })`: the listed fields are overwritten, every other field
   * is kept, and a missing document is created from the listed fields alone.
   */
  function Merged(d: Option<UserDoc>, w: SubscriptionWrite): (r: UserDoc)
    ensures r.subscriptionStatus == Some("subscribed")
    ensures r.storiesGeneratedThisMonth == Some(0)
    ensures r.planId == Some(w.planId) && r.monthlyStoryLimit == Some(w.monthlyStoryLimit)
    ensures r.subscriptionEndDate == Some(w.subscriptionEndDate) && r.lastPaymentDate == Some(w.lastPaymentDate)
    ensures r.paymentId == Some(w.paymentId) && r.orderId == Some(w.orderId)
    ensures r.email == (if d.Some? then d.value.email else None)
    ensures r.createdAt == (if d.Some? then d.value.createdAt else None)
  {
    d.GetOr(EmptyDoc).(
      subscriptionStatus := Some("subscribed"),
      planId := Some(w.planId),
      subscriptionEndDate := Some(w.subscriptionEndDate),
      lastPaymentDate := Some(w.lastPaymentDate),
      monthlyStoryLimit := Some(w.monthlyStoryLimit),
      storiesGeneratedThisMonth := Some(0),
      paymentId := Some(w.paymentId),
      orderId := Some(w.orderId))
  }

  /** Merging the same write twice is the same as merging it once. */
  lemma MergeIdempotent(d: Option<UserDoc>, w: SubscriptionWrite)
    ensures Merged(Some(Merged(d, w)), w) == Merged(d, w)
  {
  }

  /** A merge resets the counter however many stories were counted since the last one. */
  lemma MergeAfterIncrementsResetsCount(d: Option<UserDoc>, w: SubscriptionWrite, k: nat)
    ensures Merged(Some(IncrementedTimes(Merged(d, w), k)), w) == Merged(d, w)
  {
    IncrementedTimesKeepsOthers(Merged(d, w), k);
  }

  /** The document after `k` increments. */
  function IncrementedTimes(d: UserDoc, k: nat): (r: UserDoc)
  {
    if k == 0 then d else Incremented(IncrementedTimes(d, k - 1))
  }

  /** `k` increments add `k` to the counter and change no other field. */
  lemma {:induction false} IncrementedTimesKeepsOthers(d: UserDoc, k: nat)
    ensures IncrementedTimes(d, k).storiesGeneratedThisMonth.GetOr(0) == d.storiesGeneratedThisMonth.GetOr(0) + k
    ensures IncrementedTimes(d, k).(storiesGeneratedThisMonth := d.storiesGeneratedThisMonth) == d
  {
    if k > 0 {
      IncrementedTimesKeepsOthers(d, k - 1);
      var prev := IncrementedTimes(d, k - 1);
      assert prev.storiesGeneratedThisMonth.GetOr(0) == d.storiesGeneratedThisMonth.GetOr(0) + k - 1;
    }
  }

  /** The `users` collection. */
  class UserStore {
    var docs: map<string, UserDoc>

    constructor(initial: map<string, UserDoc>)
      ensures docs == initial
    {
      docs := initial;
    }

    /** `setDoc(doc(db, "users", uid), d)`: a plain set, which replaces the document. */
    method Set(uid: string, d: UserDoc)
      modifies this
      ensures docs == old(docs)[uid := d]
    {
      docs := docs[uid := d];
    }

    /** `updateDoc` with `increment(1)`; it fails, changing nothing, when the document does not exist. */
    method Increment(uid: string) returns (ok: bool)
      modifies this
      ensures ok == (uid in old(docs))
      ensures docs == if ok then old(docs)[uid := Incremented(old(docs)[uid])] else old(docs)
    {
      ok := uid in docs;
      if ok {
        docs := docs[uid := Incremented(docs[uid])];
      }
    }

    /** `set(w, { merge: true })` on the user's document. */
    method Merge(uid: string, w: SubscriptionWrite)
      modifies this
      ensures docs == old(docs)[uid := Merged(if uid in old(docs) then Some(old(docs)[uid]) else None, w)]
    {
      docs := docs[uid := Merged(if uid in docs then Some(docs[uid]) else None, w)];
    }
  }
}
