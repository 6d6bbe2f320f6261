/**
 * What the delivery loop sends: one post per recipient, in iteration order,
 * up to the first recipient without a webhook URL, each carrying the most
 * recent username override seen so far.
 */
module Delivery {
  import opened Wrappers
  import opened Discord

  /** A recipient with the two notificator properties stored for them; either may be unset. */
  datatype User = User(name: string, webHookUrl: Option<string>, username: Option<string>)

  /** A URL that is set and not empty. */
  predicate HasUrl(u: User)
  {
    u.webHookUrl.Some? && u.webHookUrl.value != ""
  }

  /** A username that is set and not empty replaces the payload's username. */
  predicate IsOverride(username: Option<string>)
  {
    username.Some? && username.value != ""
  }

  /** The payload's username after `u` has been processed. */
  function Override(current: Option<string>, u: User): Option<string>
  {
    if IsOverride(u.username) then u.username else current
  }

  /** Position of the first recipient without a URL, or |users| when all have one. */
  function FirstMissingUrl(users: seq<User>): (k: nat)
    ensures k <= |users|
    ensures forall j | 0 <= j < k :: HasUrl(users[j])
    ensures k < |users| ==> !HasUrl(users[k])
  {
    if users == [] || !HasUrl(users[0]) then 0
    else 1 + FirstMissingUrl(users[1..])
  }

  /**
   * The posts the loop makes from recipient `from` on, when the payload's
   * username is `username` on reaching it.
   */
  function Deliveries(username: Option<string>, embeds: seq<Embed>, users: seq<User>, from: nat): seq<Post>
    requires from <= |users|
    decreases |users| - from
  {
    if from == |users| || !HasUrl(users[from]) then []
    else
      var name := Override(username, users[from]);
      [Post(users[from].webHookUrl.value, name, embeds)] + Deliveries(name, embeds, users, from + 1)
  }

  /**
   * Reference definition of the username in force once the first `count`
   * recipients are processed: the last non-empty username among them, or
   * `initial` when there is none.
   */
  function LatestUsername(initial: Option<string>, users: seq<User>, count: nat): Option<string>
    requires count <= |users|
  {
    if count == 0 then initial
    else if IsOverride(users[count - 1].username) then users[count - 1].username
    else LatestUsername(initial, users, count - 1)
  }

  /**
   * One turn of the delivery loop: once the posts so far are `sent`, serving
   * recipient i appends its post and leaves the rest for recipients i+1 on.
   */
  lemma DeliveriesAdvance(initial: Option<string>, embeds: seq<Embed>, users: seq<User>, i: nat, sent: seq<Post>)
    requires i < |users| && HasUrl(users[i])
    requires sent + Deliveries(LatestUsername(initial, users, i), embeds, users, i) ==
             Deliveries(initial, embeds, users, 0)
    ensures (sent + [Post(users[i].webHookUrl.value, LatestUsername(initial, users, i + 1), embeds)]) +
            Deliveries(LatestUsername(initial, users, i + 1), embeds, users, i + 1) ==
            Deliveries(initial, embeds, users, 0)
  {
  }

  /** Exactly the recipients from `from` up to the first one without a URL receive a post. */
  lemma {:induction false} DeliveriesLength(username: Option<string>, embeds: seq<Embed>, users: seq<User>, from: nat)
    requires from <= FirstMissingUrl(users)
    ensures |Deliveries(username, embeds, users, from)| == FirstMissingUrl(users) - from
    decreases |users| - from
  {
    if from < |users| && HasUrl(users[from]) {
      DeliveriesLength(Override(username, users[from]), embeds, users, from + 1);
    }
  }

  /** A recipient without a URL, and every recipient after it, receives no post. */
  lemma MissingUrlEndsDelivery(username: Option<string>, embeds: seq<Embed>, users: seq<User>, k: nat)
    requires k < |users| && !HasUrl(users[k])
    ensures |Deliveries(username, embeds, users, 0)| <= k
  {
    DeliveriesLength(username, embeds, users, 0);
  }

  /**
   * The post to recipient i goes to that recipient's URL, carries the
   * unchanged embeds and the most recent override among recipients 0..i.
   */
  lemma {:induction false} DeliveryAt(initial: Option<string>, embeds: seq<Embed>, users: seq<User>, from: nat, i: nat)
    requires from <= i < FirstMissingUrl(users)
    ensures |Deliveries(LatestUsername(initial, users, from), embeds, users, from)| == FirstMissingUrl(users) - from
    ensures Deliveries(LatestUsername(initial, users, from), embeds, users, from)[i - from] ==
            Post(users[i].webHookUrl.value, LatestUsername(initial, users, i + 1), embeds)
    decreases i - from
  {
    DeliveriesLength(LatestUsername(initial, users, from), embeds, users, from);
    if from < i {
      DeliveryAt(initial, embeds, users, from + 1, i);
    }
  }

  /**
   * For a payload that already carries a username when the delivery loop
   * starts (never the case for the notificator's own fresh payloads),
   * recipients with an unset or empty username never clear it.
   */
  lemma {:induction false} OverrideIsSticky(initial: Option<string>, users: seq<User>, count: nat)
    requires count <= |users|
    requires IsOverride(initial)
    ensures IsOverride(LatestUsername(initial, users, count))
  {
    if count > 0 {
      OverrideIsSticky(initial, users, count - 1);
    }
  }

  /**
   * A recipient's non-empty username stays in force until a later recipient
   * supplies another: recipients with an unset or empty username leave it.
   */
  lemma {:induction false} LastOverrideInForce(initial: Option<string>, users: seq<User>, j: nat, count: nat)
    requires j < count <= |users|
    requires IsOverride(users[j].username)
    requires forall k | j < k < count :: !IsOverride(users[k].username)
    ensures LatestUsername(initial, users, count) == users[j].username
    decreases count
  {
    if count - 1 != j {
      LastOverrideInForce(initial, users, j, count - 1);
    }
  }

  /** Once some recipient has supplied a non-empty username, a non-empty username stays in force. */
  lemma {:induction false} StickyFromRecipient(initial: Option<string>, users: seq<User>, j: nat, count: nat)
    requires j < count <= |users|
    requires IsOverride(users[j].username)
    ensures IsOverride(LatestUsername(initial, users, count))
    decreases count
  {
    if count - 1 != j && !IsOverride(users[count - 1].username) {
      StickyFromRecipient(initial, users, j, count - 1);
    }
  }

  /** The username in force is the initial one or one a processed recipient supplied. */
  lemma {:induction false} LatestUsernameOrigin(initial: Option<string>, users: seq<User>, count: nat)
    requires count <= |users|
    ensures var name := LatestUsername(initial, users, count);
            name == initial || exists j | 0 <= j < count :: name == users[j].username
  {
    if count > 0 && !IsOverride(users[count - 1].username) {
      LatestUsernameOrigin(initial, users, count - 1);
    }
  }
}
