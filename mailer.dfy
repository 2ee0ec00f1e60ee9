/** The mailer's logic around the transport: the per-address throttle, the
    retry loop of a send, and the decisions of the three notification
    functions. The transport is an oracle telling whether a given attempt
    goes through; the bodies of the messages are not modelled, only the
    status-update subject line. */
module Mailer {
  import opened Common

  /** The throttle's window: five minutes. */
  const ThrottleMs := 5 * 60 * 1000

  /** The key of the throttle map: the email, a dash, and the kind. */
  function ThrottleKey(email: string, kind: string): (key: string)
    ensures |key| == |email| + 1 + |kind|
  {
    email + "-" + kind
  }

  /** For one kind of message, different emails never share a key. */
  lemma ThrottleKeyInjective(e1: string, e2: string, kind: string)
    requires ThrottleKey(e1, kind) == ThrottleKey(e2, kind)
    ensures e1 == e2
  {
    assert e1 == ThrottleKey(e1, kind)[..|e1|];
    assert e2 == ThrottleKey(e2, kind)[..|e2|];
  }

  /** Across kinds the dash is ambiguous: two different pairs can meet on
      one key. */
  lemma ThrottleKeyCollision()
    ensures ThrottleKey("a-b", "c") == ThrottleKey("a", "b-c")
  {
    assert ThrottleKey("a-b", "c") == ['a', '-', 'b', '-', 'c'];
    assert ThrottleKey("a", "b-c") == ['a', '-', 'b', '-', 'c'];
  }

  /** A send under `key` at `now` is refused: a non-zero time is recorded
      and less than the window has passed since. */
  predicate Throttled(cache: map<string, int>, key: string, now: int) {
    key in cache && cache[key] != 0 && now - cache[key] < ThrottleMs
  }

  /** The throttle's rule on the map, as a value: whether the send may go,
      and the map left behind. */
  function Throttle(cache: map<string, int>, key: string, now: int): (r: (bool, map<string, int>))
    ensures r.0 <==> !Throttled(cache, key, now)
    ensures r.0 ==> r.1 == cache[key := now]
    ensures !r.0 ==> r.1 == cache
  {
    if Throttled(cache, key, now) then (false, cache) else (true, cache[key := now])
  }

  /** Once a send at `t1` has been let through, every later request under
      the same key inside the window is refused, and from the end of the
      window on it goes through again. */
  lemma ThrottleWindow(cache: map<string, int>, key: string, t1: int, t2: int)
    requires Throttle(cache, key, t1).0 && t1 != 0 && t1 <= t2
    ensures !Throttle(Throttle(cache, key, t1).1, key, t2).0 <==> t2 < t1 + ThrottleMs
  {
  }

  /** A request under one key leaves every other key's entry as it was. */
  lemma ThrottleKeysApart(cache: map<string, int>, key: string, other: string, now: int)
    requires other != key
    ensures other in Throttle(cache, key, now).1 <==> other in cache
    ensures other in cache ==> Throttle(cache, key, now).1[other] == cache[other]
  {
  }

  /** The `emailCache` map of the mailer module. */
  class MailThrottle {
    var cache: map<string, int>

    constructor()
      ensures cache == map[]
    {
      cache := map[];
    }

    /** `canSendEmail`: refuses inside the window of the last recorded send
        and leaves the map alone; otherwise records `now` and agrees. */
    method CanSend(email: string, kind: string, now: int) returns (ok: bool)
      modifies this
      ensures ok <==> !Throttled(old(cache), ThrottleKey(email, kind), now)
      ensures (ok, cache) == Throttle(old(cache), ThrottleKey(email, kind), now)
    {
      var key := ThrottleKey(email, kind);
      if key in cache && cache[key] != 0 && now - cache[key] < ThrottleMs {
        return false;
      }
      cache := cache[key := now];
      ok := true;
    }
  }

  // ---------------------------------------------------------------------
  // Retry loop

  /** How `sendMail` ends: the attempt (from zero) that went through, every
      attempt failing (the last error is rethrown), or no attempt at all
      when `retries` is not positive (the promise resolves to nothing). */
  datatype Delivery = Sent(attempt: nat) | Failed | NothingTried

  /** The milliseconds waited before attempt `k`: `1000 * (i + 1)` after
      each failed attempt `i` before it. */
  function WaitBefore(k: nat): nat {
    if k == 0 then 0 else WaitBefore(k - 1) + 1000 * k
  }

  /** The waiting grows quadratically: `500 * k * (k + 1)` before attempt `k`. */
  lemma {:induction false} WaitClosedForm(k: nat)
    ensures WaitBefore(k) == 500 * k * (k + 1)
  {
    if k > 0 {
      WaitClosedForm(k - 1);
      assert 500 * (k - 1) * k + 1000 * k == 500 * k * (k + 1);
    }
  }

  /** `sendMail(mailOptions, retries)` with attempt `i` going through
      exactly when `transport(i)`: returns on the first success, waits
      after every failure but the last, and makes at most `retries` calls. */
  method SendMail(transport: nat -> bool, retries: int) returns (result: Delivery, attempts: nat, waited: nat)
    ensures retries <= 0 ==> result == NothingTried && attempts == 0 && waited == 0
    ensures result.Sent? ==>
      && result.attempt < retries && transport(result.attempt)
      && (forall j :: 0 <= j < result.attempt ==> !transport(j))
      && attempts == result.attempt + 1 && waited == WaitBefore(result.attempt)
    ensures result.Failed? ==>
      && 0 < retries && (forall j :: 0 <= j < retries ==> !transport(j))
      && attempts == retries && waited == WaitBefore(retries - 1)
    ensures result.NothingTried? ==> retries <= 0
    ensures attempts <= (if retries > 0 then retries else 0)
  {
    var i: nat := 0;
    waited := 0;
    while i < retries
      invariant retries <= 0 || i < retries
      invariant forall j :: 0 <= j < i ==> !transport(j)
      invariant waited == WaitBefore(i)
      decreases retries - i
    {
      if transport(i) {
        return Sent(i), i + 1, waited;
      }
      if i == retries - 1 {
        return Failed, retries, waited;
      }
      waited := waited + 1000 * (i + 1);
      i := i + 1;
    }
    return NothingTried, 0, 0;
  }

  /** Whether some attempt among the first `n` goes through. */
  predicate SomeAttemptSucceeds(transport: nat -> bool, n: nat) {
    exists j :: 0 <= j < n && transport(j)
  }

  // ---------------------------------------------------------------------
  // Notifications

  /** The fields of the user a notification reads. */
  datatype Recipient = Recipient(email: string, name: string)

  /** Every notification goes through the retry loop with its default of
      three attempts. */
  const DefaultRetries := 3

  /** `sendWelcomeEmail`: a user without email or name is refused; a
      throttled one is reported as done without any attempt; otherwise the
      send is recorded in the throttle before it is tried, and the result
      is whether it went through. */
  method SendWelcome(throttle: MailThrottle, user: Option<Recipient>, transport: nat -> bool, now: int)
    returns (ok: bool, attempts: nat)
    modifies throttle
    ensures user.None? || user.value.email == "" || user.value.name == "" ==>
      !ok && attempts == 0 && throttle.cache == old(throttle.cache)
    ensures user.Some? && user.value.email != "" && user.value.name != "" ==>
      var key := ThrottleKey(user.value.email, "welcome");
      && (Throttled(old(throttle.cache), key, now) ==> ok && attempts == 0 && throttle.cache == old(throttle.cache))
      && (!Throttled(old(throttle.cache), key, now) ==>
        && throttle.cache == old(throttle.cache)[key := now]
        && 1 <= attempts <= DefaultRetries
        && (ok <==> SomeAttemptSucceeds(transport, DefaultRetries)))
  {
    if user.None? || user.value.email == "" || user.value.name == "" {
      return false, 0;
    }
    var allowed := throttle.CanSend(user.value.email, "welcome", now);
    if !allowed {
      return true, 0;
    }
    var result, tries, _ := SendMail(transport, DefaultRetries);
    ok := result.Sent?;
    attempts := tries;
  }

  /** `sendOrderConfirmationEmail`: without a user the message cannot be
      addressed and the result is false; otherwise it is whether the send
      went through. */
  method SendOrderConfirmation(user: Option<Recipient>, transport: nat -> bool) returns (ok: bool, attempts: nat)
    ensures user.None? ==> !ok && attempts == 0
    ensures user.Some? ==> 1 <= attempts <= DefaultRetries && (ok <==> SomeAttemptSucceeds(transport, DefaultRetries))
  {
    if user.None? {
      return false, 0;
    }
    var result, tries, _ := SendMail(transport, DefaultRetries);
    ok := result.Sent?;
    attempts := tries;
  }

  /** The emoji and the text a status update leads with. */
  datatype StatusInfo = StatusInfo(emoji: string, message: string)

  const DefaultStatusInfo := StatusInfo("📋", "Aggiornamento ordine")

  /** The statuses that have their own entry in the `statusMessages` table. */
  const StatusesWithInfo: seq<string> := ["confirmed", "preparing", "ready", "out-for-delivery", "delivered"]

  /** The own entries of the `statusMessages` table. */
  function OwnStatusInfo(status: string): (r: Option<StatusInfo>)
    ensures r.Some? <==> status in StatusesWithInfo
  {
    if status == "confirmed" then Some(StatusInfo("✅", "Il tuo ordine è stato confermato!"))
    else if status == "preparing" then Some(StatusInfo("👨‍🍳", "Il nostro chef sta preparando il tuo ordine!"))
    else if status == "ready" then Some(StatusInfo("🍽️", "Il tuo ordine è pronto!"))
    else if status == "out-for-delivery" then Some(StatusInfo("🚚", "Il tuo ordine è in consegna!"))
    else if status == "delivered" then Some(StatusInfo("🎉", "Il tuo ordine è stato consegnato!"))
    else None
  }

  /** The names every plain object inherits from `Object.prototype`. */
  const InheritedNames: seq<string> := [
    "constructor", "hasOwnProperty", "isPrototypeOf", "propertyIsEnumerable",
    "toLocaleString", "toString", "valueOf", "__proto__",
    "__defineGetter__", "__defineSetter__", "__lookupGetter__", "__lookupSetter__"]

  /** `statusMessages[newStatus] || default` as written: an inherited name
      finds a truthy function or object, whose `emoji` and `message` are
      `undefined` and print as such in the subject. */
  function StatusInfoAsWritten(status: string): (r: StatusInfo)
    ensures status in StatusesWithInfo ==> r == OwnStatusInfo(status).value
    ensures status !in StatusesWithInfo && status !in InheritedNames ==> r == DefaultStatusInfo
  {
    match OwnStatusInfo(status)
    case Some(info) => info
    case None => if status in InheritedNames then StatusInfo("undefined", "undefined") else DefaultStatusInfo
  }

  /** The lookup as intended: an own entry, or the default for every other
      status. */
  function StatusInfoOf(status: string): (r: StatusInfo)
    ensures status in StatusesWithInfo ==> r == OwnStatusInfo(status).value
    ensures status !in StatusesWithInfo ==> r == DefaultStatusInfo
  {
    match OwnStatusInfo(status)
    case Some(info) => info
    case None => DefaultStatusInfo
  }

  /** The subject line of a status update. */
  function StatusSubject(info: StatusInfo, orderNumber: string): string {
    info.emoji + " " + info.message + " - Ordine " + orderNumber
  }

  /** The as-written lookup turns a status named like an inherited member
      into a subject made of `undefined`, where the default was meant. */
  lemma InheritedStatusBreaksSubject(orderNumber: string)
    ensures StatusSubject(StatusInfoAsWritten("toString"), orderNumber) == "undefined undefined - Ordine " + orderNumber
    ensures StatusInfoAsWritten("toString") != StatusInfoOf("toString")
  {
    assert OwnStatusInfo("toString").None? by {
      assert "toString" !in StatusesWithInfo by {
        assert "toString"[0] == 't';
      }
    }
    assert "toString" in InheritedNames by {
      assert InheritedNames[5] == "toString";
    }
  }

  /** The intended lookup always yields one of the table's entries or the
      default, and so a subject built of real text. */
  lemma StatusInfoOfIsListed(status: string)
    ensures StatusInfoOf(status) == DefaultStatusInfo ||
            exists s :: s in StatusesWithInfo && StatusInfoOf(status) == OwnStatusInfo(s).value
  {
    if status in StatusesWithInfo {
      assert OwnStatusInfo(status).Some?;
    }
  }

  /** `sendOrderStatusUpdateEmail`: nothing is sent for `pending`; without a
      user the result is false; otherwise the subject leads with the
      status's entry and the result is whether the send went through. */
  method SendStatusUpdate(user: Option<Recipient>, orderNumber: string, newStatus: string, transport: nat -> bool)
    returns (ok: bool, attempts: nat, subject: Option<string>)
    ensures newStatus == "pending" ==> ok && attempts == 0 && subject.None?
    ensures newStatus != "pending" && user.None? ==> !ok && attempts == 0 && subject.None?
    ensures newStatus != "pending" && user.Some? ==>
      && subject == Some(StatusSubject(StatusInfoOf(newStatus), orderNumber))
      && 1 <= attempts <= DefaultRetries
      && (ok <==> SomeAttemptSucceeds(transport, DefaultRetries))
  {
    if newStatus == "pending" {
      return true, 0, None;
    }
    var info := StatusInfoOf(newStatus);
    if user.None? {
      return false, 0, None;
    }
    var line := StatusSubject(info, orderNumber);
    var result, tries, _ := SendMail(transport, DefaultRetries);
    ok, attempts, subject := result.Sent?, tries, Some(line);
  }
}
