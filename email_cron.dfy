/** `RetryEmail` of cron/EmailCron.js: a sweep over the cached
    `FAILED_EMAIL_` records that drops a record once it has been retried
    three times, and otherwise resends the mail (without its HTML body),
    dropping the record on success and counting one more retry on failure.

    The sweep receives the key list that `keys()` returned; the cron
    schedule that calls it every three minutes is a plain call here. */
module EmailCron {
  import opened Wrappers
  import opened Text
  import opened Cache
  import opened Mail

  /** The retry limit. */
  const MaxRetries: nat := 3

  /** `allKeys.filter((k) => k.startsWith('FAILED_EMAIL_'))`. */
  function FailedKeys(keys: seq<string>): (r: seq<string>)
    ensures |r| <= |keys|
    ensures forall k :: k in r <==> k in keys && StartsWith(k, FailedPrefix)
    ensures forall i :: 0 <= i < |r| ==> StartsWith(r[i], FailedPrefix)
  {
    if keys == [] then []
    else
      var rest := FailedKeys(keys[1..]);
      assert forall k :: k in keys <==> k == keys[0] || k in keys[1..];
      if StartsWith(keys[0], FailedPrefix) then [keys[0]] + rest else rest
  }

  /** The mail a retry sends: `to`, `subject` and `text` of the record, and
      no HTML body. */
  function Resend(rec: RetryRecord): MailMessage {
    MailMessage(rec.to, rec.subject, rec.text, None)
  }

  /** One iteration of the sweep for `key` at time `now`; `reply` is what
      the transport would answer. The result is the new table and the mails
      sent (none or one). */
  function Step(entries: Table<RetryRecord>, now: int, key: string, reply: TransportReply): (r: (Table<RetryRecord>, seq<MailMessage>))
    ensures |r.1| <= 1
  {
    match Lookup(entries, now, key)
    case None => (entries, [])
    case Some(rec) =>
      if rec.retries >= MaxRetries then (DropPrefix(entries, key), [])
      else if reply.Delivered? then (DropPrefix(entries, key), [Resend(rec)])
      else (Put(entries, now, key, rec.(retries := rec.retries + 1), DefaultTtl), [Resend(rec)])
  }

  /** What one iteration does: a missing or expired record is skipped; a
      record at the retry limit is deleted without sending; otherwise its
      mail is resent, and the record is deleted on success or kept with
      every field but `retries`, which grows by exactly one, on failure.
      Only keys that start with `key` can change. */
  lemma StepEffects(entries: Table<RetryRecord>, now: int, key: string, reply: TransportReply)
    ensures var r := Step(entries, now, key, reply);
            var current := Lookup(entries, now, key);
            (current.None? ==> r == (entries, []))
            && (current.Some? && current.value.retries >= MaxRetries ==>
                  r.1 == [] && forall t :: Lookup(r.0, t, key).None?)
            && (current.Some? && current.value.retries < MaxRetries ==>
                  r.1 == [Resend(current.value)]
                  && (reply.Delivered? ==> forall t :: Lookup(r.0, t, key).None?)
                  && (reply.Rejected? ==>
                        Lookup(r.0, now, key) == Some(current.value.(retries := current.value.retries + 1))))
    ensures var r := Step(entries, now, key, reply);
            forall k :: !StartsWith(k, key) ==> (k in r.0 <==> k in entries) && (k in entries ==> r.0[k] == entries[k])
  {
    assert StartsWith(key, key);
    var current := Lookup(entries, now, key);
    if current.Some? && current.value.retries < MaxRetries && reply.Rejected? {
      LookupAfterPut(entries, now, key, current.value.(retries := current.value.retries + 1), DefaultTtl, now);
    }
  }

  /** The sweep over the first `n` of `keys`, in order; the transport's
      replies are numbered from `start` and consumed by the steps that
      send. At most one mail is sent per key. */
  function Sweep(entries: Table<RetryRecord>, now: int, answer: nat -> TransportReply, start: nat,
                 keys: seq<string>, n: nat): (r: (Table<RetryRecord>, seq<MailMessage>))
    requires n <= |keys|
    ensures |r.1| <= n
    decreases n
  {
    if n == 0 then (entries, [])
    else
      var before := Sweep(entries, now, answer, start, keys, n - 1);
      var last := Step(before.0, now, keys[n - 1], answer(start + |before.1|));
      (last.0, before.1 + last.1)
  }

  /** The body of the sweep's loop for one key. */
  method RetryKey(key: string, cache: Store<RetryRecord>, transport: Transport)
    modifies cache`entries, transport`sent
    ensures var step := Step(old(cache.entries), cache.now, key, transport.answer(|old(transport.sent)|));
            cache.entries == step.0 && transport.sent == old(transport.sent) + step.1
  {
    var retryData := cache.Get(key);
    if retryData.None? {
      return;
    }
    var rec := retryData.value;
    if rec.retries >= MaxRetries {
      cache.Del(key);
      return;
    }
    var reply := transport.SendMail(Resend(rec));
    match reply {
      case Delivered(_) =>
        cache.Del(key);
      case Rejected(_) =>
        cache.Set(key, rec.(retries := rec.retries + 1));
    }
  }

  /** The loop of the sweep over the filtered keys. */
  method SweepKeys(keys: seq<string>, cache: Store<RetryRecord>, transport: Transport)
    modifies cache`entries, transport`sent
    ensures var s := Sweep(old(cache.entries), cache.now, transport.answer, |old(transport.sent)|, keys, |keys|);
            cache.entries == s.0 && transport.sent == old(transport.sent) + s.1
  {
    ghost var entries0, sent0, now := cache.entries, transport.sent, cache.now;
    for i := 0 to |keys|
      invariant cache.now == now
      invariant cache.entries == Sweep(entries0, now, transport.answer, |sent0|, keys, i).0
      invariant transport.sent == sent0 + Sweep(entries0, now, transport.answer, |sent0|, keys, i).1
    {
      RetryKey(keys[i], cache, transport);
    }
  }

  /** `RetryEmail()` given what `keys()` returned: `None` is a falsy
      result, which only logs "No Email For Retry". */
  method RetryEmail(allKeys: Option<seq<string>>, cache: Store<RetryRecord>, transport: Transport)
    modifies cache`entries, transport`sent
    ensures allKeys.None? ==> cache.entries == old(cache.entries) && transport.sent == old(transport.sent)
    ensures allKeys.Some? ==>
              var s := Sweep(old(cache.entries), cache.now, transport.answer, |old(transport.sent)|,
                             FailedKeys(allKeys.value), |FailedKeys(allKeys.value)|);
              cache.entries == s.0 && transport.sent == old(transport.sent) + s.1
  {
    if allKeys.Some? {
      SweepKeys(FailedKeys(allKeys.value), cache, transport);
    }
  }

  /** The sweep as wired: `keys()` yields `undefined`, so the sweep never
      changes the cache and never calls the transport. */
  method RetryEmailAsWired(cache: Store<RetryRecord>, transport: Transport)
    modifies cache`entries, transport`sent
    ensures cache.entries == old(cache.entries) && transport.sent == old(transport.sent)
  {
    var allKeys := cache.Keys();
    RetryEmail(allKeys, cache, transport);
  }

  /** The sweep with a `keys()` that returns the cache's keys: every key of
      the cache is listed once, in the store's order, and the sweep runs over
      the `FAILED_EMAIL_` ones. */
  method RetryEmailFixed(cache: Store<RetryRecord>, transport: Transport) returns (order: seq<string>)
    modifies cache`entries, transport`sent
    ensures forall k :: k in order <==> k in old(cache.entries)
    ensures forall i, j :: 0 <= i < j < |order| ==> order[i] != order[j]
    ensures var s := Sweep(old(cache.entries), cache.now, transport.answer, |old(transport.sent)|,
                           FailedKeys(order), |FailedKeys(order)|);
            cache.entries == s.0 && transport.sent == old(transport.sent) + s.1
  {
    order := cache.ListKeys();
    RetryEmail(Some(order), cache, transport);
  }

  lemma StartsWithTrans(k: string, key: string, p: string)
    requires StartsWith(k, key) && StartsWith(key, p)
    ensures StartsWith(k, p)
  {
    assert k[..|p|] == k[..|key|][..|p|];
  }

  /** Only keys that extend one of the swept keys can change. */
  lemma {:induction false} SweepFrame(entries: Table<RetryRecord>, now: int, answer: nat -> TransportReply, start: nat,
                                      keys: seq<string>, n: nat, k: string)
    requires n <= |keys|
    requires forall j :: 0 <= j < n ==> !StartsWith(k, keys[j])
    ensures var after := Sweep(entries, now, answer, start, keys, n).0;
            (k in after <==> k in entries) && (k in entries ==> after[k] == entries[k])
  {
    if n > 0 {
      SweepFrame(entries, now, answer, start, keys, n - 1, k);
      var before := Sweep(entries, now, answer, start, keys, n - 1);
      StepEffects(before.0, now, keys[n - 1], answer(start + |before.1|));
    }
  }

  /** A sweep touches only `FAILED_EMAIL_` keys: every other entry keeps its
      presence and its value. */
  lemma SweepKeepsOtherKeys(entries: Table<RetryRecord>, now: int, answer: nat -> TransportReply, start: nat,
                            keys: seq<string>, k: string)
    requires !StartsWith(k, FailedPrefix)
    ensures var after := Sweep(entries, now, answer, start, FailedKeys(keys), |FailedKeys(keys)|).0;
            (k in after <==> k in entries) && (k in entries ==> after[k] == entries[k])
  {
    var failed := FailedKeys(keys);
    forall j | 0 <= j < |failed|
      ensures !StartsWith(k, failed[j])
    {
      if StartsWith(k, failed[j]) {
        StartsWithTrans(k, failed[j], FailedPrefix);
      }
    }
    SweepFrame(entries, now, answer, start, failed, |failed|, k);
  }

  /** How many more resends the record under `key` can cause: none when
      it is missing, expired or already at the limit. */
  function Budget(entries: Table<RetryRecord>, t: int, key: string): nat {
    match Lookup(entries, t, key)
    case None => 0
    case Some(rec) => if rec.retries >= MaxRetries then 0 else MaxRetries - rec.retries
  }

  /** A record readable at some time was readable at every earlier time. */
  lemma BudgetShrinksWithTime(entries: Table<RetryRecord>, t: int, t': int, key: string)
    requires t <= t'
    ensures Budget(entries, t', key) <= Budget(entries, t, key)
  {
  }

  /** Each step on a key spends one unit of its budget per mail it sends. */
  lemma StepSpendsBudget(entries: Table<RetryRecord>, now: int, key: string, reply: TransportReply)
    ensures var r := Step(entries, now, key, reply);
            Budget(r.0, now, key) + |r.1| <= Budget(entries, now, key)
  {
    StepEffects(entries, now, key, reply);
  }

  /** A step on any key spends the budget of `key`: a step on `key`
      itself by one unit per mail it sends, a step on another key never
      raises it (its prefix delete can only lower it). */
  lemma StepBudgetOn(entries: Table<RetryRecord>, now: int, k: string, key: string, reply: TransportReply)
    ensures var r := Step(entries, now, k, reply);
            Budget(r.0, now, key) + (if k == key then |r.1| else 0) <= Budget(entries, now, key)
  {
    if k == key {
      StepSpendsBudget(entries, now, key, reply);
    }
  }

  /** How many of the mails of `Sweep(entries, now, answer, start, keys, n)`
      were sent by the iterations whose key is `key`. */
  function SentOn(entries: Table<RetryRecord>, now: int, answer: nat -> TransportReply, start: nat,
                  keys: seq<string>, n: nat, key: string): (r: nat)
    requires n <= |keys|
    decreases n
  {
    if n == 0 then 0
    else
      var before := Sweep(entries, now, answer, start, keys, n - 1);
      var last := Step(before.0, now, keys[n - 1], answer(start + |before.1|));
      SentOn(entries, now, answer, start, keys, n - 1, key) + if keys[n - 1] == key then |last.1| else 0
  }

  /** Within one sweep, the mails sent for `key` plus the budget left
      afterwards are at most the budget before the sweep. */
  lemma {:induction false} SweepBudget(entries: Table<RetryRecord>, now: int, answer: nat -> TransportReply, start: nat,
                                       keys: seq<string>, n: nat, key: string)
    requires n <= |keys|
    ensures Budget(Sweep(entries, now, answer, start, keys, n).0, now, key)
            + SentOn(entries, now, answer, start, keys, n, key) <= Budget(entries, now, key)
  {
    if n > 0 {
      var before := Sweep(entries, now, answer, start, keys, n - 1);
      var last := Step(before.0, now, keys[n - 1], answer(start + |before.1|));
      SweepBudget(entries, now, answer, start, keys, n - 1, key);
      StepBudgetOn(before.0, now, keys[n - 1], key, answer(start + |before.1|));
      assert Sweep(entries, now, answer, start, keys, n).0 == last.0;
      assert SentOn(entries, now, answer, start, keys, n, key)
             == SentOn(entries, now, answer, start, keys, n - 1, key) + if keys[n - 1] == key then |last.1| else 0;
    }
  }

  /** A key the sweep does not reach sends nothing. */
  lemma {:induction false} SentOnUnlisted(entries: Table<RetryRecord>, now: int, answer: nat -> TransportReply, start: nat,
                                          keys: seq<string>, n: nat, key: string)
    requires n <= |keys|
    requires forall j :: 0 <= j < n ==> keys[j] != key
    ensures SentOn(entries, now, answer, start, keys, n, key) == 0
  {
    if n > 0 {
      SentOnUnlisted(entries, now, answer, start, keys, n - 1, key);
    }
  }

  /** Over a list of distinct keys, each key gets at most one transport
      call per sweep. */
  lemma {:induction false} SentOncePerKey(entries: Table<RetryRecord>, now: int, answer: nat -> TransportReply, start: nat,
                                          keys: seq<string>, n: nat, key: string)
    requires n <= |keys|
    requires forall i, j :: 0 <= i < j < n ==> keys[i] != keys[j]
    ensures SentOn(entries, now, answer, start, keys, n, key) <= 1
  {
    if n > 0 {
      if keys[n - 1] == key {
        SentOnUnlisted(entries, now, answer, start, keys, n - 1, key);
      } else {
        SentOncePerKey(entries, now, answer, start, keys, n - 1, key);
      }
    }
  }

  /** Filtering a list of distinct keys keeps them distinct. */
  lemma {:induction false} FailedKeysDistinct(keys: seq<string>)
    requires forall i, j :: 0 <= i < j < |keys| ==> keys[i] != keys[j]
    ensures forall i, j :: 0 <= i < j < |FailedKeys(keys)| ==> FailedKeys(keys)[i] != FailedKeys(keys)[j]
  {
    if keys != [] {
      FailedKeysDistinct(keys[1..]);
      assert keys[0] !in keys[1..];
    }
  }

  /** The sweep of `RetryEmailFixed`, over the distinct keys of the store,
      calls the transport at most once for each key. */
  lemma FixedSweepOncePerKey(entries: Table<RetryRecord>, now: int, answer: nat -> TransportReply, start: nat,
                             order: seq<string>, key: string)
    requires forall i, j :: 0 <= i < j < |order| ==> order[i] != order[j]
    ensures SentOn(entries, now, answer, start, FailedKeys(order), |FailedKeys(order)|, key) <= 1
  {
    FailedKeysDistinct(order);
    SentOncePerKey(entries, now, answer, start, FailedKeys(order), |FailedKeys(order)|, key);
  }

  /** One sweep seen from `key`: given the table before it, its time, the
      number of the first reply it gets and the keys it lists, the table
      after it, the number of replies it used and how many of its mails
      were sent for `key`. */
  function SweepFor(answer: nat -> TransportReply, key: string)
    : (Table<RetryRecord>, int, nat, seq<string>) -> (Table<RetryRecord>, nat, nat)
  {
    (entries: Table<RetryRecord>, now: int, start: nat, keys: seq<string>) =>
      var s := Sweep(entries, now, answer, start, keys, |keys|);
      (s.0, |s.1|, SentOn(entries, now, answer, start, keys, |keys|, key))
  }

  /** Rounds `i` onwards of a run of sweeps, round `j` at time `times[j]`
      over `lists[j]`, each one a call of `round` that continues the reply
      numbering of the one before. The result is the final table and the
      number of mails sent for `key` by those rounds. */
  function Run(entries: Table<RetryRecord>, round: (Table<RetryRecord>, int, nat, seq<string>) -> (Table<RetryRecord>, nat, nat),
               start: nat, times: seq<int>, lists: seq<seq<string>>, i: nat): (Table<RetryRecord>, nat)
    requires |times| == |lists| && i <= |times|
    decreases |times| - i
  {
    if i == |times| then (entries, 0)
    else
      var r := round(entries, times[i], start, lists[i]);
      var rest := Run(r.0, round, start + r.1, times, lists, i + 1);
      (rest.0, r.2 + rest.1)
  }

  /** A run of rounds that each spend the budget of `key` by what they send
      for it, at non-decreasing times, sends for `key` at most the budget
      it had at any time `t0` before the first round. */
  lemma {:induction false} RunBudget(entries: Table<RetryRecord>, t0: int, key: string,
                                     round: (Table<RetryRecord>, int, nat, seq<string>) -> (Table<RetryRecord>, nat, nat),
                                     start: nat, times: seq<int>, lists: seq<seq<string>>, i: nat)
    requires forall e, t, st, ks :: Budget(round(e, t, st, ks).0, t, key) + round(e, t, st, ks).2 <= Budget(e, t, key)
    requires |times| == |lists| && i <= |times|
    requires forall j :: i <= j < |times| ==> t0 <= times[j]
    requires forall j, k :: i <= j < k < |times| ==> times[j] <= times[k]
    ensures Run(entries, round, start, times, lists, i).1 <= Budget(entries, t0, key)
    decreases |times| - i
  {
    if i < |times| {
      var r := round(entries, times[i], start, lists[i]);
      RunBudget(r.0, times[i], key, round, start + r.1, times, lists, i + 1);
      BudgetShrinksWithTime(entries, t0, times[i], key);
    }
  }

  /** Across any number of sweeps at non-decreasing times, whatever keys
      they list and in whatever order, a record is resent at most
      `3 - retries` times. */
  lemma ResendBudget(entries: Table<RetryRecord>, t0: int, key: string, answer: nat -> TransportReply,
                     start: nat, times: seq<int>, lists: seq<seq<string>>)
    requires |times| == |lists|
    requires forall j :: 0 <= j < |times| ==> t0 <= times[j]
    requires forall j, k :: 0 <= j < k < |times| ==> times[j] <= times[k]
    ensures Run(entries, SweepFor(answer, key), start, times, lists, 0).1 <= Budget(entries, t0, key)
  {
    var round := SweepFor(answer, key);
    forall e, t, st, ks
      ensures Budget(round(e, t, st, ks).0, t, key) + round(e, t, st, ks).2 <= Budget(e, t, key)
    {
      SweepBudget(e, t, answer, st, ks, |ks|, key);
    }
    RunBudget(entries, t0, key, round, start, times, lists, 0);
  }

  /** A record written by a first failed send (`retries == 1`) is resent
      at most twice by later sweeps. */
  lemma ResendAtMostTwice(entries: Table<RetryRecord>, t0: int, key: string, answer: nat -> TransportReply,
                          start: nat, times: seq<int>, lists: seq<seq<string>>)
    requires Lookup(entries, t0, key).Some? && Lookup(entries, t0, key).value.retries == 1
    requires |times| == |lists|
    requires forall j :: 0 <= j < |times| ==> t0 <= times[j]
    requires forall j, k :: 0 <= j < k < |times| ==> times[j] <= times[k]
    ensures Run(entries, SweepFor(answer, key), start, times, lists, 0).1 <= 2
  {
    ResendBudget(entries, t0, key, answer, start, times, lists);
  }

  /** `del(key)` is the prefix delete of the cache, so retiring the record
      of `a@x.co` also drops a live record of `a@x.com`. */
  lemma RetiringDropsExtendingKeys(rec: RetryRecord, other: RetryRecord, now: int, reply: TransportReply)
    requires rec.retries >= MaxRetries
    ensures var entries := map[FailedKey("a@x.co") := Entry(rec, None), FailedKey("a@x.com") := Entry(other, None)];
            Step(entries, now, FailedKey("a@x.co"), reply).0 == map[]
  {
    var entries := map[FailedKey("a@x.co") := Entry(rec, None), FailedKey("a@x.com") := Entry(other, None)];
    assert StartsWith(FailedKey("a@x.com"), FailedKey("a@x.co"));
    assert StartsWith(FailedKey("a@x.co"), FailedKey("a@x.co"));
    assert DropPrefix(entries, FailedKey("a@x.co")).Keys == {};
  }
}
