/** `sendEmail` of utils/email.js: one transport call per recipient, a
    result entry per recipient, and a `FAILED_EMAIL_<address>` record in
    the shared cache for every recipient whose send fails.

    The SMTP transport is an object whose replies are fixed in advance by an
    oracle indexed by the number of calls made so far; it logs every message
    it is handed. The sender address built from the environment is not
    modelled. */
module Mail {
  import opened Wrappers
  import opened Text
  import opened Cache
  import opened Templates

  /** `options.email`: one address or an array of them. */
  datatype Recipients = One(address: string) | Many(addresses: seq<string>)

  datatype EmailOptions = EmailOptions(
    email: Recipients,
    subject: string,
    message: string,
    kind: string,
    data: Option<TemplateData>)

  /** What is handed to `transporter.sendMail`. */
  datatype MailMessage = MailMessage(to: Recipients, subject: string, text: string, html: Option<string>)

  /** The cached record of a failed send: the mail options, the retry
      counter and the time of the failure. */
  datatype RetryRecord = RetryRecord(
    to: Recipients,
    subject: string,
    text: string,
    html: string,
    retries: nat,
    timestamp: int)

  datatype TransportReply = Delivered(messageId: string) | Rejected(reason: string)

  /** An entry of the returned `sendResults`. */
  datatype SendResult = Sent(email: string, messageId: string) | Failed(email: string, error: string)

  const FailedPrefix: string := "FAILED_EMAIL_"

  function FailedKey(email: string): string {
    FailedPrefix + email
  }

  /** The SMTP transport. */
  class Transport {
    /** The reply to the n-th call, counting from 0. */
    const answer: nat -> TransportReply
    /** Every message handed over so far, in order. */
    var sent: seq<MailMessage>

    constructor (answer: nat -> TransportReply)
      ensures this.answer == answer && sent == []
    {
      this.answer := answer;
      sent := [];
    }

    /** `transporter.sendMail(message)`; a `Rejected` reply is the thrown
        error. */
    method SendMail(msg: MailMessage) returns (reply: TransportReply)
      modifies this`sent
      ensures sent == old(sent) + [msg]
      ensures reply == answer(|old(sent)|)
    {
      reply := answer(|sent|);
      sent := sent + [msg];
    }
  }

  /** `n` copies of the message `m`. */
  function Copies(m: MailMessage, n: nat): (r: seq<MailMessage>)
    ensures |r| == n
    ensures forall i :: 0 <= i < n ==> r[i] == m
  {
    if n == 0 then [] else Copies(m, n - 1) + [m]
  }

  /** A scalar address becomes a one-element list; an array is used as is. */
  function RecipientList(to: Recipients): seq<string> {
    match to
    case One(a) => [a]
    case Many(addresses) => addresses
  }

  /** The message sent to every recipient: addressed to the whole
      `options.email`, not to the single recipient. */
  function Outgoing(opts: EmailOptions, html: string): MailMessage {
    MailMessage(opts.email, opts.subject, opts.message, Some(html))
  }

  /** `current?.retries ? current.retries + 1 : 1`. */
  function NextRetries(current: Option<RetryRecord>): (n: nat)
    ensures n >= 1
    ensures current.Some? && current.value.retries != 0 ==> n == current.value.retries + 1
    ensures current.None? || current.value.retries == 0 ==> n == 1
  {
    if current.Some? && current.value.retries != 0 then current.value.retries + 1 else 1
  }

  /** The record written after a failed send. */
  function FailureRecord(opts: EmailOptions, html: string, current: Option<RetryRecord>, now: int): RetryRecord {
    RetryRecord(opts.email, opts.subject, opts.message, html, NextRetries(current), now)
  }

  /** One recipient: the transport reply decides the result entry, and a
      rejection (re)writes that recipient's failure record and nothing else. */
  function SendOne(entries: Table<RetryRecord>, now: int, opts: EmailOptions, html: string,
                   email: string, reply: TransportReply): (r: (Table<RetryRecord>, SendResult))
    ensures r.1.email == email
    ensures reply.Delivered? ==> r.0 == entries && r.1 == Sent(email, reply.messageId)
    ensures reply.Rejected? ==> r.1 == Failed(email, reply.reason)
    ensures reply.Rejected? ==>
              Lookup(r.0, now, FailedKey(email))
                == Some(FailureRecord(opts, html, Lookup(entries, now, FailedKey(email)), now))
    ensures forall k :: k != FailedKey(email) ==> (k in r.0 <==> k in entries)
    ensures forall k :: k != FailedKey(email) && k in entries ==> r.0[k] == entries[k]
  {
    match reply
    case Delivered(id) => (entries, Sent(email, id))
    case Rejected(e) =>
      var key := FailedKey(email);
      var rec := FailureRecord(opts, html, Lookup(entries, now, key), now);
      LookupAfterPut(entries, now, key, rec, DefaultTtl, now);
      (Put(entries, now, key, rec, DefaultTtl), Failed(email, e))
  }

  /** The recipients in order; the i-th is answered by the transport's
      `start + i`-th reply. The cache changes only under the failure keys of
      rejected recipients, so a run in which every send succeeds leaves it
      as it was. */
  function SendAll(entries: Table<RetryRecord>, now: int, opts: EmailOptions, html: string,
                   answer: nat -> TransportReply, start: nat, recipients: seq<string>): (r: (Table<RetryRecord>, seq<SendResult>))
    ensures |r.1| == |recipients|
    ensures forall i :: 0 <= i < |recipients| ==> r.1[i].email == recipients[i]
    ensures forall i :: 0 <= i < |recipients| ==> (r.1[i].Sent? <==> answer(start + i).Delivered?)
    decreases |recipients|
  {
    if recipients == [] then (entries, [])
    else
      var n := |recipients| - 1;
      var before := SendAll(entries, now, opts, html, answer, start, recipients[..n]);
      var last := SendOne(before.0, now, opts, html, recipients[n], answer(start + n));
      (last.0, before.1 + [last.1])
  }

  /** The loop of `sendEmail(options)`, where `page` is what
      `getEmailTemplate(options.type, options.data)` yields; the template is
      evaluated at every iteration, outside the `try`, and being pure it
      yields `page` each time. So a throwing template rejects the whole call
      before anything is sent, provided there is at least one recipient.
      Transport errors never escape: each becomes a `Failed` entry. */
  method SendAllRecipients(opts: EmailOptions, page: Result<string, RenderError>,
                           cache: Store<RetryRecord>, transport: Transport)
    returns (r: Result<seq<SendResult>, RenderError>)
    modifies cache`entries, transport`sent
    ensures RecipientList(opts.email) == [] ==>
              r == Ok([]) && cache.entries == old(cache.entries) && transport.sent == old(transport.sent)
    ensures RecipientList(opts.email) != [] && page.Err? ==>
              r == Err(page.error) && cache.entries == old(cache.entries) && transport.sent == old(transport.sent)
    ensures RecipientList(opts.email) != [] && page.Ok? ==>
              var s := SendAll(old(cache.entries), cache.now, opts, page.value, transport.answer,
                               |old(transport.sent)|, RecipientList(opts.email));
              r == Ok(s.1) && cache.entries == s.0
              && transport.sent == old(transport.sent) + Copies(Outgoing(opts, page.value), |RecipientList(opts.email)|)
  {
    var recipients := RecipientList(opts.email);
    if recipients == [] {
      return Ok([]);
    }
    if page.Err? {
      return Err(page.error);
    }
    var results := SendEach(opts, page.value, recipients, cache, transport);
    r := Ok(results);
  }

  /** The loop over the recipients once the template has rendered. */
  method SendEach(opts: EmailOptions, html: string, recipients: seq<string>,
                  cache: Store<RetryRecord>, transport: Transport)
    returns (results: seq<SendResult>)
    modifies cache`entries, transport`sent
    ensures var s := SendAll(old(cache.entries), cache.now, opts, html, transport.answer,
                             |old(transport.sent)|, recipients);
            results == s.1 && cache.entries == s.0
    ensures transport.sent == old(transport.sent) + Copies(Outgoing(opts, html), |recipients|)
  {
    results := [];
    ghost var start := |transport.sent|;
    var i := 0;
    while i < |recipients|
      invariant 0 <= i <= |recipients|
      invariant (cache.entries, results) == SendAll(old(cache.entries), cache.now, opts, html, transport.answer, start, recipients[..i])
      invariant transport.sent == old(transport.sent) + Copies(Outgoing(opts, html), i)
    {
      var res := SendTo(opts, html, recipients[i], cache, transport);
      results := results + [res];
      CopiesGrow(Outgoing(opts, html), i);
      assert recipients[..i + 1][..i] == recipients[..i];
      i := i + 1;
    }
    assert recipients[..i] == recipients;
  }

  /** One turn of the loop: hand the mail to the transport for `email`
      and, when it is rejected, bump that recipient's failure record. */
  method SendTo(opts: EmailOptions, html: string, email: string,
                cache: Store<RetryRecord>, transport: Transport)
    returns (res: SendResult)
    modifies cache`entries, transport`sent
    ensures var step := SendOne(old(cache.entries), cache.now, opts, html, email, transport.answer(|old(transport.sent)|));
            cache.entries == step.0 && res == step.1
    ensures transport.sent == old(transport.sent) + [Outgoing(opts, html)]
  {
    var reply := transport.SendMail(Outgoing(opts, html));
    match reply {
      case Delivered(id) =>
        res := Sent(email, id);
      case Rejected(e) =>
        var key := FailedKey(email);
        var current := cache.Get(key);
        cache.Set(key, RetryRecord(opts.email, opts.subject, opts.message, html,
                                   if current.Some? && current.value.retries != 0 then current.value.retries + 1 else 1,
                                   cache.now));
        res := Failed(email, e);
    }
  }

  lemma CopiesGrow(m: MailMessage, n: nat)
    ensures Copies(m, n + 1) == Copies(m, n) + [m]
  {
  }

  /** `sendEmail(options)`. */
  method SendEmail(opts: EmailOptions, cache: Store<RetryRecord>, transport: Transport)
    returns (r: Result<seq<SendResult>, RenderError>)
    modifies cache`entries, transport`sent
    ensures RecipientList(opts.email) == [] ==>
              r == Ok([]) && cache.entries == old(cache.entries) && transport.sent == old(transport.sent)
    ensures RecipientList(opts.email) != [] && Render(opts.kind, opts.data).Err? ==>
              r == Err(Render(opts.kind, opts.data).error)
              && cache.entries == old(cache.entries) && transport.sent == old(transport.sent)
    ensures RecipientList(opts.email) != [] && Render(opts.kind, opts.data).Ok? ==>
              var html := Render(opts.kind, opts.data).value;
              var s := SendAll(old(cache.entries), cache.now, opts, html, transport.answer,
                               |old(transport.sent)|, RecipientList(opts.email));
              r == Ok(s.1) && cache.entries == s.0
              && transport.sent == old(transport.sent) + Copies(Outgoing(opts, html), |RecipientList(opts.email)|)
  {
    r := SendAllRecipients(opts, Render(opts.kind, opts.data), cache, transport);
  }

  /** A failed send leaves a record that carries the whole mail (addressed
      to every recipient), counts one retry more than the live record it
      replaces (or 1 when there is none or its count is 0), is stamped with
      the current time and stays readable for the default 300 seconds, the
      last millisecond included. */
  lemma FailureRecordContents(entries: Table<RetryRecord>, now: int, opts: EmailOptions, html: string,
                              email: string, reason: string, t: int)
    requires now <= t
    ensures var after := SendOne(entries, now, opts, html, email, Rejected(reason)).0;
            var before := Lookup(entries, now, FailedKey(email));
            Lookup(after, t, FailedKey(email)) ==
              if t <= now + 300000 then
                Some(RetryRecord(opts.email, opts.subject, opts.message, html,
                                 if before.Some? && before.value.retries != 0 then before.value.retries + 1 else 1,
                                 now))
              else None
  {
    var key := FailedKey(email);
    var rec := FailureRecord(opts, html, Lookup(entries, now, key), now);
    LookupAfterPut(entries, now, key, rec, DefaultTtl, t);
  }

  lemma FailedKeyPrefix(email: string)
    ensures StartsWith(FailedKey(email), FailedPrefix)
  {
    assert FailedKey(email)[..|FailedPrefix|] == FailedPrefix;
  }

  /** A send changes the cache only under the failure keys of the
      recipients whose send was rejected. */
  lemma {:induction false} SendAllFrame(entries: Table<RetryRecord>, now: int, opts: EmailOptions, html: string,
                                        answer: nat -> TransportReply, start: nat, recipients: seq<string>, k: string)
    requires forall i :: 0 <= i < |recipients| && answer(start + i).Rejected? ==> k != FailedKey(recipients[i])
    ensures var after := SendAll(entries, now, opts, html, answer, start, recipients).0;
            (k in after <==> k in entries) && (k in entries ==> after[k] == entries[k])
    decreases |recipients|
  {
    if recipients != [] {
      var n := |recipients| - 1;
      SendAllFrame(entries, now, opts, html, answer, start, recipients[..n], k);
    }
  }

  /** When every send succeeds the cache is left exactly as it was. */
  lemma {:induction false} AllDeliveredWritesNothing(entries: Table<RetryRecord>, now: int, opts: EmailOptions, html: string,
                                                     answer: nat -> TransportReply, start: nat, recipients: seq<string>)
    requires forall j :: start <= j < start + |recipients| ==> answer(j).Delivered?
    ensures SendAll(entries, now, opts, html, answer, start, recipients).0 == entries
    decreases |recipients|
  {
    if recipients != [] {
      var n := |recipients| - 1;
      AllDeliveredWritesNothing(entries, now, opts, html, answer, start, recipients[..n]);
      assert answer(start + n).Delivered?;
    }
  }

  /** Every key a send touches starts with `FAILED_EMAIL_`: the `User:` and
      `Website_User:` caches are never disturbed. */
  lemma SendAllKeepsOtherKeys(entries: Table<RetryRecord>, now: int, opts: EmailOptions, html: string,
                              answer: nat -> TransportReply, start: nat, recipients: seq<string>, k: string)
    requires !StartsWith(k, FailedPrefix)
    ensures var after := SendAll(entries, now, opts, html, answer, start, recipients).0;
            (k in after <==> k in entries) && (k in entries ==> after[k] == entries[k])
  {
    forall i | 0 <= i < |recipients|
      ensures k != FailedKey(recipients[i])
    {
      FailedKeyPrefix(recipients[i]);
    }
    SendAllFrame(entries, now, opts, html, answer, start, recipients, k);
  }
}
