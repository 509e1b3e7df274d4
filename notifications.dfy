/**
 * Notification records and their subscribers, and the two views the
 * notifying code takes of a subscriber list: the mail recipients keyed by
 * e-mail address, and the users who opted in to SMS.
 */
module Notifications {
  import opened Php

  /** A user subscribed to a notification; `user` identifies the user an SMS goes to. */
  datatype Subscriber = Subscriber(email: string, username: string, sendViaSms: bool, user: nat)

  /** A row of the `notifications` table with its subscribers. */
  datatype Notification = Notification(subject: string, messageBody: string, subscribers: seq<Subscriber>)

  /** A mail recipient: the pair copied onto the CC line. */
  datatype Subscription = Subscription(email: string, username: string)

  /** `$subscribers[$email] = [...]` for every subscriber in turn. */
  function SubscriptionsOf(us: seq<Subscriber>): (m: OMap<string, Subscription>)
    ensures |m| <= |us|
  {
    if us == [] then []
    else
      var u := us[|us| - 1];
      var init := SubscriptionsOf(us[..|us| - 1]);
      PutKeys(init, u.email, Subscription(u.email, u.username));
      Put(init, u.email, Subscription(u.email, u.username))
  }

  /** The entry for the LAST subscriber with this address, searched from the end. */
  function LastSubscription(us: seq<Subscriber>, email: string): (r: Option<Subscription>)
    ensures r.None? <==> forall u :: u in us ==> u.email != email
    ensures r.Some? ==> r.value.email == email
  {
    if us == [] then None
    else if us[|us| - 1].email == email then Some(Subscription(email, us[|us| - 1].username))
    else
      var r := LastSubscription(us[..|us| - 1], email);
      assert forall u :: u in us ==> u in us[..|us| - 1] || u == us[|us| - 1];
      r
  }

  /**
   * Keying by e-mail keeps one entry per address, that of the last
   * subscriber with it.
   */
  lemma {:induction false} SubscriptionsByLastEmail(us: seq<Subscriber>, email: string)
    ensures Get(SubscriptionsOf(us), email) == LastSubscription(us, email)
  {
    if us != [] {
      SubscriptionsByLastEmail(us[..|us| - 1], email);
      var u := us[|us| - 1];
      PutGet(SubscriptionsOf(us[..|us| - 1]), u.email, Subscription(u.email, u.username), email);
    }
  }

  lemma {:induction false} SubscriptionsDistinct(us: seq<Subscriber>)
    ensures DistinctKeys(SubscriptionsOf(us))
  {
    if us != [] {
      SubscriptionsDistinct(us[..|us| - 1]);
      var u := us[|us| - 1];
      PutKeepsDistinct(SubscriptionsOf(us[..|us| - 1]), u.email, Subscription(u.email, u.username));
    }
  }

  /**
   * `$this->smsRecipients[] = $u->user` for every subscriber who opted in,
   * in order, after the users already pending.
   */
  function SmsQueue(pending: seq<nat>, us: seq<Subscriber>): (r: seq<nat>)
    ensures |pending| <= |r| <= |pending| + |us|
  {
    if us == [] then pending
    else if us[|us| - 1].sendViaSms then SmsQueue(pending, us[..|us| - 1]) + [us[|us| - 1].user]
    else SmsQueue(pending, us[..|us| - 1])
  }

  /** The users already pending stay at the front of the queue, in order. */
  lemma {:induction false} SmsQueueKeepsPending(pending: seq<nat>, us: seq<Subscriber>)
    ensures SmsQueue(pending, us)[..|pending|] == pending
  {
    if us != [] {
      SmsQueueKeepsPending(pending, us[..|us| - 1]);
      var q := SmsQueue(pending, us[..|us| - 1]);
      assert (q + [us[|us| - 1].user])[..|pending|] == q[..|pending|];
    }
  }

  /** A user is queued iff already pending or some subscriber with that user opted in. */
  lemma {:induction false} SmsQueueOptedIn(pending: seq<nat>, us: seq<Subscriber>, user: nat)
    ensures user in SmsQueue(pending, us) <==>
              user in pending || exists u :: u in us && u.sendViaSms && u.user == user
  {
    if us != [] {
      var init := us[..|us| - 1];
      SmsQueueOptedIn(pending, init, user);
      assert us == init + [us[|us| - 1]];
      assert forall u :: u in us <==> u in init || u == us[|us| - 1];
    }
  }

  /** One turn of the `getSubscribers` loop keeps the mail list and the pending SMS list up to date. */
  lemma SubscriberStep(us: seq<Subscriber>, i: nat, pending: seq<nat>)
    requires i < |us|
    ensures SubscriptionsOf(us[..i + 1])
         == Put(SubscriptionsOf(us[..i]), us[i].email, Subscription(us[i].email, us[i].username))
    ensures us[i].sendViaSms ==> SmsQueue(pending, us[..i + 1]) == SmsQueue(pending, us[..i]) + [us[i].user]
    ensures !us[i].sendViaSms ==> SmsQueue(pending, us[..i + 1]) == SmsQueue(pending, us[..i])
  {
    assert us[..i + 1][..i] == us[..i];
  }

  /** The subscribers of a notification that may be absent (`first()` found nothing). */
  function SubscribersOf(notifications: map<string, Notification>, name: string): seq<Subscriber>
  {
    if name in notifications then notifications[name].subscribers else []
  }
}
