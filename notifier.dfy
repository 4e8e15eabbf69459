/** `EmailNotifier` and `NotificationManager`: which price-drop emails are attempted, what their
    subjects say, and how the batch policy counts successes and failures. The SMTP session is an
    oracle `deliver` that says whether a composed email went through. */
module Notifier {
  import opened Text
  import opened Database

  /** SMTP_USERNAME, SMTP_PASSWORD and EMAIL_RECIPIENT as configured ("" when unset). */
  datatype EmailConfig = EmailConfig(username: string, password: string, recipient: string)

  /** A composed email: its subject line and the drops it reports. */
  datatype Email = Email(subject: string, drops: seq<Pending>)

  /** The counters `process_notifications` returns. */
  datatype NotifyReport = NotifyReport(totalNotifications: nat, individualEmailsSent: nat,
                                       summaryEmailsSent: nat, failedEmails: nat, errors: seq<string>)

  /** `_validate_config`: credentials first, then the recipient. */
  function ValidateConfig(c: EmailConfig): (ok: bool)
    ensures ok <==> c.username != "" && c.password != "" && c.recipient != ""
  {
    if c.username == "" || c.password == "" then false
    else if c.recipient == "" then false
    else true
  }

  const DropSubjectPrefix: string := "\U{1F6A8} Price Drop Alert: "
  const SummarySubjectPrefix: string := "\U{1F4CA} Price Tracker Summary - "
  const SummarySubjectSuffix: string := " Price Drops"

  /** The subject of a single alert. */
  function DropSubject(productName: string): string
  {
    DropSubjectPrefix + productName
  }

  /** The subject of a summary of `count` drops. */
  function SummarySubject(count: nat): string
  {
    SummarySubjectPrefix + NatToString(count) + SummarySubjectSuffix
  }

  /** A single alert starts with the fixed prefix and names exactly the product it is about. */
  lemma DropSubjectNamesProduct(productName: string)
    ensures StartsWith(DropSubject(productName), DropSubjectPrefix)
    ensures DropSubject(productName)[|DropSubjectPrefix|..] == productName
  {
    var s := DropSubject(productName);
    assert s[..|DropSubjectPrefix|] == DropSubjectPrefix;
  }

  /** Different products give different alert subjects. */
  lemma DropSubjectInjective(a: string, b: string)
    requires DropSubject(a) == DropSubject(b)
    ensures a == b
  {
    DropSubjectNamesProduct(a);
    DropSubjectNamesProduct(b);
  }

  /** The summary subject states the number of drops: two summaries share a subject only when they
      report the same number. */
  lemma SummarySubjectInjective(m: nat, n: nat)
    requires SummarySubject(m) == SummarySubject(n)
    ensures m == n
  {
    var s := SummarySubject(m);
    var p := |SummarySubjectPrefix|;
    var q := |SummarySubjectSuffix|;
    assert s[p..|s| - q] == NatToString(m);
    assert SummarySubject(n)[p..|s| - q] == NatToString(n);
    NatToStringInjective(m, n);
  }

  function DropEmail(n: Pending): Email
  {
    Email(DropSubject(n.productName), [n])
  }

  function SummaryEmail(ns: seq<Pending>): Email
  {
    Email(SummarySubject(|ns|), ns)
  }

  /** The summary body divides by every old price; a zero one raises before anything is sent. */
  predicate NoZeroOldPrice(ns: seq<Pending>)
  {
    forall i :: 0 <= i < |ns| ==> ns[i].notification.oldPrice != 0.0
  }

  class EmailNotifier {
    const config: EmailConfig
    /** Whether the SMTP server accepts a composed email (connection, STARTTLS, login, send). */
    const deliver: Email -> bool
    /** Every email handed to the SMTP server, in order. */
    var outbox: seq<Email>

    constructor(config: EmailConfig, deliver: Email -> bool)
      ensures this.config == config && this.deliver == deliver && outbox == []
    {
      this.config := config;
      this.deliver := deliver;
      outbox := [];
    }

    /** Whether an alert about `n` is composed and handed over: the configuration must be valid and
        the drop percentage, which divides by the old price, must be computable. */
    predicate DropAttempted(n: Pending)
    {
      ValidateConfig(config) && n.notification.oldPrice != 0.0
    }

    /** Whether `send_price_drop_notification(n)` returns True. */
    predicate DropOutcome(n: Pending)
    {
      DropAttempted(n) && deliver(DropEmail(n))
    }

    /** Whether `send_summary_notification(ns)` returns True. */
    predicate SummaryOutcome(ns: seq<Pending>)
    {
      ValidateConfig(config) && (ns == [] || (NoZeroOldPrice(ns) && deliver(SummaryEmail(ns))))
    }

    /** `send_price_drop_notification`. */
    method SendPriceDropNotification(n: Pending) returns (ok: bool)
      modifies this
      ensures !ValidateConfig(config) ==> !ok && outbox == old(outbox)
      ensures ok == DropOutcome(n)
      ensures outbox == old(outbox) + (if DropAttempted(n) then [DropEmail(n)] else [])
    {
      if !ValidateConfig(config) {
        return false;
      }
      if n.notification.oldPrice == 0.0 {
        return false;
      }
      var msg := DropEmail(n);
      outbox := outbox + [msg];
      ok := deliver(msg);
    }

    /** `send_summary_notification`: an empty list succeeds without sending anything. */
    method SendSummaryNotification(ns: seq<Pending>) returns (ok: bool)
      modifies this
      ensures !ValidateConfig(config) ==> !ok && outbox == old(outbox)
      ensures ValidateConfig(config) && ns == [] ==> ok && outbox == old(outbox)
      ensures ok == SummaryOutcome(ns)
      ensures outbox == old(outbox)
        + (if ValidateConfig(config) && ns != [] && NoZeroOldPrice(ns) then [SummaryEmail(ns)] else [])
    {
      if !ValidateConfig(config) {
        return false;
      }
      if ns == [] {
        return true;
      }
      if !NoZeroOldPrice(ns) {
        return false;
      }
      var msg := SummaryEmail(ns);
      outbox := outbox + [msg];
      ok := deliver(msg);
    }

    /** The alerts attempted, one by one, for a list of drops. */
    function Attempted(ns: seq<Pending>): (r: seq<Email>)
      ensures |r| <= |ns|
    {
      if ns == [] then []
      else
        var last := ns[|ns| - 1];
        Attempted(ns[..|ns| - 1]) + (if DropAttempted(last) then [DropEmail(last)] else [])
    }

    /** How many of the alerts went through. */
    function Delivered(ns: seq<Pending>): nat
    {
      if ns == [] then 0
      else Delivered(ns[..|ns| - 1]) + (if DropOutcome(ns[|ns| - 1]) then 1 else 0)
    }

    /** One error message per alert that failed, in list order. */
    function Failures(ns: seq<Pending>): seq<string>
    {
      if ns == [] then []
      else
        var last := ns[|ns| - 1];
        Failures(ns[..|ns| - 1])
          + (if DropOutcome(last) then [] else ["Failed to send email for " + last.productName])
    }

    /** Every alert either goes through or leaves one error message. */
    lemma {:induction false} EveryAlertCounted(ns: seq<Pending>)
      ensures Delivered(ns) + |Failures(ns)| == |ns|
    {
      if ns != [] {
        EveryAlertCounted(ns[..|ns| - 1]);
      }
    }

    /** An error message names a product whose alert failed. */
    lemma {:induction false} FailuresNameFailedProducts(ns: seq<Pending>, k: int)
      requires 0 <= k < |Failures(ns)|
      ensures exists n :: n in ns && !DropOutcome(n) && Failures(ns)[k] == "Failed to send email for " + n.productName
    {
      var init := ns[..|ns| - 1];
      var last := ns[|ns| - 1];
      if k < |Failures(init)| {
        FailuresNameFailedProducts(init, k);
        var n :| n in init && !DropOutcome(n) && Failures(init)[k] == "Failed to send email for " + n.productName;
        assert n in ns;
      } else {
        assert last in ns;
      }
    }
  }

  /** How many sends the batch policy attempts for `count` drops. */
  function SendAttempts(count: nat, batchSize: nat): (r: nat)
    ensures count == 0 ==> r == 0
    ensures count > batchSize ==> r == 1
    ensures 0 < count <= batchSize ==> r == count
  {
    if count == 0 then 0 else if count > batchSize then 1 else count
  }

  class NotificationManager {
    const notifier: EmailNotifier
    /** More drops than this go out as one summary. */
    const batchSize: nat

    constructor(notifier: EmailNotifier)
      ensures this.notifier == notifier && batchSize == 5
    {
      this.notifier := notifier;
      batchSize := 5;
    }

    /** The emails `process_notifications` hands to the SMTP server for `ns`: none for no drops, the
        summary (when it can be composed) for more than a batch, otherwise each alert that is
        attempted. Never more than the sends the batch policy attempts. */
    function Handed(ns: seq<Pending>): (r: seq<Email>)
      ensures |r| <= SendAttempts(|ns|, batchSize)
    {
      if ns == [] then []
      else if |ns| > batchSize then
        (if ValidateConfig(notifier.config) && NoZeroOldPrice(ns) then [SummaryEmail(ns)] else [])
      else notifier.Attempted(ns)
    }

    /** `process_notifications`: nothing for no drops; one summary for more than a batch; otherwise
        one alert per drop, in order, carrying on past failures. */
    method ProcessNotifications(ns: seq<Pending>) returns (res: NotifyReport)
      modifies notifier
      ensures res.totalNotifications == |ns|
      ensures res.individualEmailsSent + res.summaryEmailsSent + res.failedEmails == SendAttempts(|ns|, batchSize)
      ensures |res.errors| == res.failedEmails
      ensures notifier.outbox == old(notifier.outbox) + Handed(ns)
      ensures ns == [] ==> res == NotifyReport(0, 0, 0, 0, []) && notifier.outbox == old(notifier.outbox)
      ensures |ns| > batchSize ==>
        && res.individualEmailsSent == 0
        && (res.summaryEmailsSent == 1 <==> notifier.SummaryOutcome(ns))
        && res.errors == (if notifier.SummaryOutcome(ns) then [] else ["Failed to send summary email"])
        && notifier.outbox == old(notifier.outbox)
             + (if ValidateConfig(notifier.config) && NoZeroOldPrice(ns) then [SummaryEmail(ns)] else [])
      ensures |ns| <= batchSize ==>
        && res.summaryEmailsSent == 0
        && res.individualEmailsSent == notifier.Delivered(ns)
        && res.errors == notifier.Failures(ns)
        && notifier.outbox == old(notifier.outbox) + notifier.Attempted(ns)
    {
      if ns == [] {
        return NotifyReport(0, 0, 0, 0, []);
      }
      if |ns| > batchSize {
        var ok := notifier.SendSummaryNotification(ns);
        if ok {
          res := NotifyReport(|ns|, 0, 1, 0, []);
        } else {
          res := NotifyReport(|ns|, 0, 0, 1, ["Failed to send summary email"]);
        }
        return;
      }
      var individual, failed := 0, 0;
      var errors: seq<string> := [];
      var i := 0;
      while i < |ns|
        invariant 0 <= i <= |ns|
        invariant individual == notifier.Delivered(ns[..i])
        invariant errors == notifier.Failures(ns[..i])
        invariant failed == |errors|
        invariant notifier.outbox == old(notifier.outbox) + notifier.Attempted(ns[..i])
      {
        var ok := notifier.SendPriceDropNotification(ns[i]);
        assert ns[..i + 1][..i] == ns[..i];
        if ok {
          individual := individual + 1;
        } else {
          failed := failed + 1;
          errors := errors + ["Failed to send email for " + ns[i].productName];
        }
        i := i + 1;
      }
      assert ns[..i] == ns;
      notifier.EveryAlertCounted(ns);
      res := NotifyReport(|ns|, individual, 0, failed, errors);
    }
  }
}
