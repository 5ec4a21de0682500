/**
 * src/context/auth-context.tsx: the client-side subscription record derived from
 * the user's document, and the provider state that the auth and snapshot
 * callbacks overwrite. A listener is modelled by the callbacks it invokes; the
 * clock is the `now` parameter (milliseconds).
 */
module AuthContext {
  import opened Wrappers
  import opened UserDocs

  datatype Status = Subscribed | Unsubscribed

  datatype Subscription = Subscription(
    status: Status,
    planId: Option<string>,
    endDate: Option<int>,
    monthlyStoryLimit: int,
    storiesGeneratedThisMonth: int)

  /** The record used before any snapshot and in every case that is not an active subscription. */
  const Canonical: Subscription := Subscription(Unsubscribed, None, None, 0, 0)

  datatype User = User(uid: string, email: Option<string>)

  /** `value || null` on an optional string: the empty string is falsy and becomes null. */
  function OrNull(s: Option<string>): (r: Option<string>)
    ensures r.Some? <==> s.Some? && s.value != ""
    ensures r.Some? ==> r == s
  {
    if s.Some? && s.value != "" then s else None
  }

  /** The snapshot callback's record for a document (or its absence) at time `now` (lines 64-81). */
  function DeriveSubscription(doc: Option<UserDoc>, now: int): (s: Subscription)
    ensures s.status == Subscribed <==>
      && doc.Some?
      && doc.value.subscriptionStatus == Some("subscribed")
      && doc.value.subscriptionEndDate.Some?
      && doc.value.subscriptionEndDate.value > now
    ensures s.status == Subscribed ==>
      && s.planId == OrNull(doc.value.planId)
      && s.endDate == doc.value.subscriptionEndDate
      && s.monthlyStoryLimit == doc.value.monthlyStoryLimit.GetOr(0)
      && s.storiesGeneratedThisMonth == doc.value.storiesGeneratedThisMonth.GetOr(0)
    ensures s.status == Unsubscribed ==> s == Canonical
  {
    match doc
    case None => Canonical
    case Some(d) =>
      var endDate := d.subscriptionEndDate;
      if d.subscriptionStatus == Some("subscribed") && endDate.Some? && endDate.value > now then
        Subscription(Subscribed, OrNull(d.planId), endDate,
                     d.monthlyStoryLimit.GetOr(0), d.storiesGeneratedThisMonth.GetOr(0))
      else Canonical
  }

  /** A freshly signed-up user is not subscribed, whatever the time. */
  lemma SignedUpIsUnsubscribed(email: Option<string>, createdAt: int, now: int)
    ensures DeriveSubscription(Some(SignUpDoc(email, createdAt)), now) == Canonical
  {
  }

  /**
   * After a verified payment the record is subscribed until the end date, with the
   * written plan and limit and a zero count; from the end date on it is the canonical one.
   */
  lemma ActivationSubscribesUntilEnd(d: Option<UserDoc>, w: SubscriptionWrite, now: int)
    ensures now < w.subscriptionEndDate ==>
      DeriveSubscription(Some(Merged(d, w)), now)
        == Subscription(Subscribed, OrNull(Some(w.planId)), Some(w.subscriptionEndDate), w.monthlyStoryLimit, 0)
    ensures now >= w.subscriptionEndDate ==> DeriveSubscription(Some(Merged(d, w)), now) == Canonical
  {
  }

  /** An increment shows up as a count one higher and changes nothing else in the record. */
  lemma IncrementSeenByRecord(d: UserDoc, now: int)
    ensures var before := DeriveSubscription(Some(d), now);
            var after := DeriveSubscription(Some(Incremented(d)), now);
            && after.status == before.status
            && (before.status == Subscribed ==>
                  after == before.(storiesGeneratedThisMonth := before.storiesGeneratedThisMonth + 1))
  {
  }

  datatype IncrementOutcome = Skipped | CountIncremented | UpdateFailed

  /** The provider's state. */
  class AuthProvider {
    /** Whether both the auth and the database client are configured. */
    const configured: bool
    var user: Option<User>
    var loading: bool
    var subscription: Subscription
    /** The user whose document the snapshot listener currently watches. */
    var listening: Option<string>

    ghost predicate Valid()
      reads this
    {
      && (listening.Some? ==> configured && user.Some? && listening.value == user.value.uid)
      && (configured && user.Some? ==> listening == Some(user.value.uid))
    }

    /** Initial state plus the synchronous part of the mount effect (lines 34-48). */
    constructor(configured: bool)
      ensures Valid()
      ensures this.configured == configured && user.None? && listening.None?
      ensures subscription == Canonical
      ensures loading == configured
    {
      this.configured := configured;
      user := None;
      listening := None;
      subscription := Canonical;
      loading := configured;
    }

    /** `onAuthStateChanged`: drop the old listener, record the user, and listen to their document. */
    method OnAuthStateChanged(u: Option<User>)
      requires Valid()
      modifies this
      ensures Valid()
      ensures !configured ==> user == old(user) && listening == old(listening)
                              && subscription == old(subscription) && loading == old(loading)
      ensures configured ==> user == u && listening == (if u.Some? then Some(u.value.uid) else None)
      ensures configured && u.None? ==> subscription == Canonical && !loading
      ensures configured && u.Some? ==> subscription == old(subscription) && loading == old(loading)
    {
      if !configured {
        return;
      }
      listening := None;
      user := u;
      if u.Some? {
        listening := Some(u.value.uid);
      } else {
        subscription := Canonical;
        loading := false;
      }
    }

    /** The document listener's callback: recompute the record from the current snapshot. */
    method OnUserSnapshot(uid: string, doc: Option<UserDoc>, now: int)
      requires Valid()
      modifies this`subscription, this`loading
      ensures Valid()
      ensures listening == Some(uid) ==> subscription == DeriveSubscription(doc, now) && !loading
      ensures listening != Some(uid) ==> subscription == old(subscription) && loading == old(loading)
    {
      if listening == Some(uid) {
        subscription := DeriveSubscription(doc, now);
        loading := false;
      }
    }

    /** The document listener's error callback. */
    method OnUserSnapshotError(uid: string)
      requires Valid()
      modifies this`subscription, this`loading
      ensures Valid()
      ensures listening == Some(uid) ==> subscription == Canonical && !loading
      ensures listening != Some(uid) ==> subscription == old(subscription) && loading == old(loading)
    {
      if listening == Some(uid) {
        subscription := Canonical;
        loading := false;
      }
    }

    /**
     * `incrementStoryCount` (lines 125-132): one more story on the signed-in user's document.
     * It does not look at the limit; without a user or database it does nothing.
     */
    method IncrementStoryCount(store: UserStore) returns (r: IncrementOutcome)
      modifies store
      ensures r == Skipped <==> user.None? || !configured
      ensures r == Skipped ==> store.docs == old(store.docs)
      ensures r == CountIncremented ==>
                && user.value.uid in old(store.docs)
                && store.docs == old(store.docs)[user.value.uid := Incremented(old(store.docs)[user.value.uid])]
      ensures r == UpdateFailed ==> user.value.uid !in old(store.docs) && store.docs == old(store.docs)
    {
      if user.None? || !configured {
        return Skipped;
      }
      var ok := store.Increment(user.value.uid);
      r := if ok then CountIncremented else UpdateFailed;
    }

    /**
     * `signUp` (lines 103-118): `created` is the identity provider's answer, and
     * `writeError` the rejection of the `setDoc` that follows it, if any. On success the new
     * user's document is written with a plain set; a rejected write makes `signUp` reject
     * although the account now exists, and no document is written.
     */
    method SignUp(store: UserStore, created: Result<User, string>, writeError: Option<string>, now: int)
      returns (r: Result<User, string>)
      modifies store
      ensures !configured ==> r == Err("Firebase is not configured.") && store.docs == old(store.docs)
      ensures configured && created.Err? ==> r == created && store.docs == old(store.docs)
      ensures configured && created.Ok? && writeError.Some? ==>
                r == Err(writeError.value) && store.docs == old(store.docs)
      ensures configured && created.Ok? && writeError.None? ==>
                && r == created
                && store.docs == old(store.docs)[created.value.uid := SignUpDoc(created.value.email, now)]
    {
      if !configured {
        return Err("Firebase is not configured.");
      }
      if created.Err? {
        return created;
      }
      if writeError.Some? {
        return Err(writeError.value);
      }
      store.Set(created.value.uid, SignUpDoc(created.value.email, now));
      r := created;
    }
  }
}
