/** The Arkham whale-transfer monitor: fetch recent transfers of an entity, keep a
    set of processed transaction hashes (cleared wholesale once it grows past
    5000), and push one Telegram message per unseen transfer, oldest first. */
module Arkham {
  import opened PyValues
  import opened Strings

  /** `processed_txs` is cleared once it holds more than this many hashes. */
  const ProcessedLimit := 5000

  // ---------------------------------------------------------------- fetching

  /** The JSON `get_arkham_transfers` hands on. `body` is `None` when decoding the
      response (or the request itself) raised, which the function catches. */
  function Transfers(status: int, body: Option<Json>): (r: Json)
    ensures status != 200 || body.None? ==> r == JList([])
    ensures status == 200 && body.Some? && body.value.JList? ==> r == body.value
    ensures status == 200 && body.Some? && body.value.JObj? && "transfers" in body.value.fields ==>
                r == body.value.fields["transfers"]
    ensures status == 200 && body.Some? && !body.value.JList? && !(body.value.JObj? && "transfers" in body.value.fields) ==>
              r == JList([])
  {
    if status == 200 && body.Some? then
      match body.value
      case JObj(fields) => if "transfers" in fields then fields["transfers"] else JList([])
      case JList(_) => body.value
      case _ => JList([])
    else JList([])
  }

  // ---------------------------------------------------------------- Python conversions

  /** Values `hash()` accepts; lists and dicts raise `TypeError` on `in set`. */
  predicate Hashable(j: Json) {
    !j.JList? && !j.JObj?
  }

  predicate IsDigit(c: char) { '0' <= c <= '9' }

  /** The decimal numerals `float()` accepts: surrounding whitespace, an optional
      sign, digits with at most one point, and at least one digit. */
  predicate DecimalLiteral(s: string) {
    var t := Strip(s);
    var u := if t != [] && (t[0] == '+' || t[0] == '-') then t[1..] else t;
    && (forall i :: 0 <= i < |u| ==> IsDigit(u[i]) || u[i] == '.')
    && (forall i, j :: 0 <= i < j < |u| && u[i] == '.' ==> u[j] != '.')
    && (exists i :: 0 <= i < |u| && IsDigit(u[i]))
  }

  /** `float(j)` does not raise. */
  predicate FloatOk(j: Json) {
    match j
    case JNum(_) => true
    case JBool(_) => true
    case JStr(s) => DecimalLiteral(s)
    case _ => false
  }

  // ---------------------------------------------------------------- labels

  /** The nested `get_label`: `None` when it raises. An empty address record reads
      "Unknown"; a record with a dict `arkhamLabel` gives the label's name, falling
      back to the address; otherwise the first 8 characters of the address with
      "..." appended, where a missing address reads "Unknown...". */
  function Label(info: Json): (r: Option<Json>)
    ensures !Truthy(info) ==> r == Some(JStr("Unknown"))
    ensures Truthy(info) && !info.JObj? ==> r.None?
    ensures info.JObj? && Truthy(info) && Get(info.fields, "arkhamLabel", JNull).JObj? ==>
                r == Some(Get(Get(info.fields, "arkhamLabel", JNull).fields, "name", Get(info.fields, "address", JNull)))
    ensures info.JObj? && Truthy(info) && !Get(info.fields, "arkhamLabel", JNull).JObj? ==>
                (r.Some? <==> Get(info.fields, "address", JStr("Unknown")).JStr?)
    ensures info.JObj? && Truthy(info) && !Get(info.fields, "arkhamLabel", JNull).JObj? && r.Some? ==>
                var address := Get(info.fields, "address", JStr("Unknown")).s;
                && r.value.JStr? && |r.value.s| == (if |address| < 8 then |address| else 8) + 3
                && r.value.s[..|r.value.s| - 3] <= address && r.value.s[|r.value.s| - 3..] == "..."
  {
    if !Truthy(info) then Some(JStr("Unknown"))
    else if !info.JObj? then None
    else
      var arkhamLabel := Get(info.fields, "arkhamLabel", JNull);
      if arkhamLabel.JObj? then Some(Get(arkhamLabel.fields, "name", Get(info.fields, "address", JNull)))
      else
        var address := Get(info.fields, "address", JStr("Unknown"));
        if address.JStr? then Some(JStr(Take(address.s, 8) + "...")) else None
  }

  /** An entity label gives its name, even a missing one; empty info is "Unknown". */
  lemma LabelExamples()
    ensures Label(JObj(map["arkhamLabel" := JObj(map["name" := JStr("Binance")])])) == Some(JStr("Binance"))
    ensures Label(JObj(map["arkhamLabel" := JObj(map[])])) == Some(JNull)
    ensures Label(JNull) == Some(JStr("Unknown"))
  {
    assert "arkhamLabel" in map["arkhamLabel" := JObj(map["name" := JStr("Binance")])];
    assert "arkhamLabel" in map["arkhamLabel" := JObj(map[])];
  }

  /** Without an entity label the address is shortened to eight characters. */
  lemma LabelAddressExamples()
    ensures Label(JObj(map["address" := JStr("0x1234567890abcdef")])) == Some(JStr("0x123456..."))
    ensures Label(JObj(map["chain" := JStr("ethereum")])) == Some(JStr("Unknown..."))
  {
    assert Take("0x1234567890abcdef", 8) == "0x123456";
    assert Take("Unknown", 8) == "Unknown";
    assert "0x123456" + "..." == "0x123456...";
    assert "Unknown" + "..." == "Unknown...";
    assert "address" in map["address" := JStr("0x1234567890abcdef")];
    assert "chain" in map["chain" := JStr("ethereum")];
    assert "address"[1] != "arkhamLabel"[1] && "chain"[0] != "arkhamLabel"[0] && "chain"[0] != "address"[0];
  }

  // ---------------------------------------------------------------- one transfer

  /** The message pushed for one transfer; amounts are kept as the raw JSON that
      `float()` was applied to. */
  datatype TransferAlert = TransferAlert(
    entity: string, usdValue: Json, tokenAmount: Json, tokenSymbol: Json,
    sender: Json, receiver: Json, blockTime: Json, txHash: Json)

  /** The state after visiting some transfers: the processed set, the messages
      pushed, and whether the batch stopped on an exception. */
  datatype Outcome = Outcome(seen: set<Json>, alerts: seq<TransferAlert>, aborted: bool)

  /** `tx.get('transactionHash')` for a dict transfer. */
  function TxHash(tx: Json): Json
    requires tx.JObj?
  {
    Get(tx.fields, "transactionHash", JNull)
  }

  /** `tx.get('fromAddress') or {}` and its `toAddress` twin. */
  function OrEmpty(j: Json): Json {
    if Truthy(j) then j else JObj(map[])
  }

  /** The processed set after adding a new hash: the addition, or nothing at all
      when the addition took the set past the limit. */
  function AddHash(seen: set<Json>, h: Json): (r: set<Json>)
    ensures |seen + {h}| > ProcessedLimit ==> r == {}
    ensures |seen + {h}| <= ProcessedLimit ==> r == seen + {h}
  {
    var added := seen + {h};
    if |added| > ProcessedLimit then {} else added
  }

  /** `float()` of both amounts and `get_label` of both parties succeed. */
  predicate Converts(tx: Json)
    requires tx.JObj?
  {
    var f := tx.fields;
    && FloatOk(Get(f, "unitValue", JNum(0))) && FloatOk(Get(f, "historicalUSD", JNum(0)))
    && Label(OrEmpty(Get(f, "fromAddress", JNull))).Some? && Label(OrEmpty(Get(f, "toAddress", JNull))).Some?
  }

  /** One iteration of the loop in `analyze_and_alert`. The hash is recorded before
      the amounts are converted and the labels computed, so a transfer whose
      conversion raises is recorded without a message. */
  function Visit(seen: set<Json>, entity: string, tx: Json): (r: Outcome)
    ensures |r.alerts| <= 1
    ensures !tx.JObj? ==> r == Outcome(seen, [], true)
    ensures tx.JObj? && !Hashable(TxHash(tx)) ==> r == Outcome(seen, [], true)
    ensures tx.JObj? && Hashable(TxHash(tx)) && TxHash(tx) in seen ==> r == Outcome(seen, [], false)
    ensures tx.JObj? && Hashable(TxHash(tx)) && TxHash(tx) !in seen ==>
                && r.seen == AddHash(seen, TxHash(tx))
                && (r.aborted <==> !Converts(tx))
                && (|r.alerts| == 1 <==> Converts(tx))
    ensures r.alerts != [] ==>
                var f := tx.fields;
                && tx.JObj? && TxHash(tx) !in seen && !r.aborted
                && r.alerts[0] == TransferAlert(entity, Get(f, "historicalUSD", JNum(0)), Get(f, "unitValue", JNum(0)),
                                                Get(f, "tokenSymbol", JStr("Unknown")),
                                                Label(OrEmpty(Get(f, "fromAddress", JNull))).value,
                                                Label(OrEmpty(Get(f, "toAddress", JNull))).value,
                                                Get(f, "blockTimestamp", JStr("Unknown Time")), TxHash(tx))
  {
    if !tx.JObj? then Outcome(seen, [], true)
    else
      var h := TxHash(tx);
      if !Hashable(h) then Outcome(seen, [], true)
      else if h in seen then Outcome(seen, [], false)
      else
        var seen' := AddHash(seen, h);
        var f := tx.fields;
        var amount := Get(f, "unitValue", JNum(0));
        var usd := Get(f, "historicalUSD", JNum(0));
        if !FloatOk(amount) || !FloatOk(usd) then Outcome(seen', [], true)
        else
          var sender := Label(OrEmpty(Get(f, "fromAddress", JNull)));
          var receiver := Label(OrEmpty(Get(f, "toAddress", JNull)));
          if sender.None? || receiver.None? then Outcome(seen', [], true)
          else
            var a := TransferAlert(entity, usd, amount, Get(f, "tokenSymbol", JStr("Unknown")),
                                   sender.value, receiver.value, Get(f, "blockTimestamp", JStr("Unknown Time")), h);
            Outcome(seen', [a], false)
  }

  // ---------------------------------------------------------------- a batch

  /** `for tx in reversed(xs)`: the tail is visited first, then `xs[0]`; after an
      exception nothing further is visited. */
  function Run(seen: set<Json>, entity: string, xs: seq<Json>): Outcome
    decreases |xs|
  {
    if xs == [] then Outcome(seen, [], false)
    else
      var p := Run(seen, entity, xs[1..]);
      if p.aborted then p
      else
        var o := Visit(p.seen, entity, xs[0]);
        Outcome(o.seen, p.alerts + o.alerts, o.aborted)
  }

  /** `analyze_and_alert(entity, txs)`: nothing for a falsy `txs`; anything else but
      a list raises before a transfer is visited. */
  function Analyze(seen: set<Json>, entity: string, txs: Json): Outcome {
    if !Truthy(txs) then Outcome(seen, [], false)
    else if !txs.JList? then Outcome(seen, [], true)
    else Run(seen, entity, txs.items)
  }

  /** The `count` of `analyze_and_alert`: the transfers whose hash is absent from
      the processed set at their turn, oldest first, with the set they leave. */
  function NewHashCount(seen: set<Json>, xs: seq<Json>): (r: (nat, set<Json>))
    ensures r.0 <= |xs|
    decreases |xs|
  {
    if xs == [] then (0, seen)
    else
      var p := NewHashCount(seen, xs[1..]);
      if xs[0].JObj? && Hashable(TxHash(xs[0])) && TxHash(xs[0]) !in p.1 then (p.0 + 1, AddHash(p.1, TxHash(xs[0])))
      else p
  }

  /** A batch that runs to the end pushes one message per transfer it counts as
      new, and leaves the processed set the counting leaves. */
  lemma {:induction false} RunCountsNewHashes(seen: set<Json>, entity: string, xs: seq<Json>)
    requires !Run(seen, entity, xs).aborted
    ensures |Run(seen, entity, xs).alerts| == NewHashCount(seen, xs).0
    ensures Run(seen, entity, xs).seen == NewHashCount(seen, xs).1
    decreases |xs|
  {
    if xs != [] {
      var p := Run(seen, entity, xs[1..]);
      assert !p.aborted;
      RunCountsNewHashes(seen, entity, xs[1..]);
      var o := Visit(p.seen, entity, xs[0]);
      assert Run(seen, entity, xs) == Outcome(o.seen, p.alerts + o.alerts, o.aborted);
    }
  }

  /** Once a batch stops, visiting more (earlier) transfers changes nothing. */
  lemma {:induction false} RunAbortSticks(seen: set<Json>, entity: string, xs: seq<Json>, k: nat)
    requires k <= |xs| && Run(seen, entity, xs[k..]).aborted
    ensures Run(seen, entity, xs) == Run(seen, entity, xs[k..])
    decreases k
  {
    if k > 0 {
      assert xs[k - 1..][1..] == xs[k..];
      RunAbortSticks(seen, entity, xs, k - 1);
    }
  }

  /** The processed set never holds more than 5000 hashes. */
  lemma {:induction false} RunBounded(seen: set<Json>, entity: string, xs: seq<Json>)
    requires |seen| <= ProcessedLimit
    ensures |Run(seen, entity, xs).seen| <= ProcessedLimit
    decreases |xs|
  {
    if xs != [] {
      RunBounded(seen, entity, xs[1..]);
    }
  }

  /** Concatenating alert lists is associative. */
  lemma AppendAssoc<T>(a: seq<T>, b: seq<T>, c: seq<T>)
    ensures a + b + c == a + (b + c)
  {
  }

  /** A batch is its newer part `xs[k..]` followed by its older part `xs[..k]`,
      run from the set the newer part leaves; an exception in the newer part
      stops the batch there. Each part where no clear happens is then covered by
      `RunNoRepeats`, wherever the clears of the batch fall. */
  lemma {:induction false} RunSplit(seen: set<Json>, entity: string, xs: seq<Json>, k: nat)
    requires k <= |xs|
    ensures var newer := Run(seen, entity, xs[k..]);
      var older := Run(newer.seen, entity, xs[..k]);
      Run(seen, entity, xs) == if newer.aborted then newer else Outcome(older.seen, newer.alerts + older.alerts, older.aborted)
    decreases k
  {
    var newer := Run(seen, entity, xs[k..]);
    if k == 0 {
      assert xs[k..] == xs;
      assert newer.alerts + [] == newer.alerts;
    } else {
      assert xs[1..][k - 1..] == xs[k..];
      assert xs[1..][..k - 1] == xs[..k][1..];
      RunSplit(seen, entity, xs[1..], k - 1);
      var mid := Run(newer.seen, entity, xs[..k][1..]);
      if !newer.aborted && !mid.aborted {
        var o := Visit(mid.seen, entity, xs[0]);
        assert xs[..k][0] == xs[0];
        AppendAssoc(newer.alerts, mid.alerts, o.alerts);
      }
    }
  }

  /** While no clear can happen, a batch pushes each transfer hash at most once,
      never one that was already processed, and records every hash it pushed. */
  lemma {:induction false} RunNoRepeats(seen: set<Json>, entity: string, xs: seq<Json>)
    requires |seen| + |xs| <= ProcessedLimit
    ensures var r := Run(seen, entity, xs);
      && seen <= r.seen && |r.seen| <= |seen| + |xs|
      && (forall i :: 0 <= i < |r.alerts| ==> r.alerts[i].txHash !in seen && r.alerts[i].txHash in r.seen)
      && (forall i, j :: 0 <= i < j < |r.alerts| ==> r.alerts[i].txHash != r.alerts[j].txHash)
    decreases |xs|
  {
    if xs != [] {
      var p := Run(seen, entity, xs[1..]);
      RunNoRepeats(seen, entity, xs[1..]);
      if !p.aborted {
        var o := Visit(p.seen, entity, xs[0]);
        var r := Outcome(o.seen, p.alerts + o.alerts, o.aborted);
        assert Run(seen, entity, xs) == r;
        if xs[0].JObj? && Hashable(TxHash(xs[0])) && TxHash(xs[0]) !in p.seen {
          assert |p.seen + {TxHash(xs[0])}| == |p.seen| + 1;
        }
        assert p.seen <= o.seen;
        forall i | 0 <= i < |r.alerts| ensures r.alerts[i].txHash !in seen && r.alerts[i].txHash in r.seen {
          if i >= |p.alerts| {
            assert r.alerts[i] == o.alerts[0];
          } else {
            assert r.alerts[i] == p.alerts[i];
          }
        }
        forall i, j | 0 <= i < j < |r.alerts| ensures r.alerts[i].txHash != r.alerts[j].txHash {
          assert r.alerts[i] == p.alerts[i];
          if j >= |p.alerts| {
            assert r.alerts[j] == o.alerts[0];
          } else {
            assert r.alerts[j] == p.alerts[j];
          }
        }
      }
    }
  }

  /** Every transfer of `xs` is a dict whose hash is hashable and in `s`. */
  predicate AllRecorded(s: set<Json>, xs: seq<Json>) {
    forall i :: 0 <= i < |xs| ==> xs[i].JObj? && Hashable(TxHash(xs[i])) && TxHash(xs[i]) in s
  }

  /** A batch that ran to the end without a clear has recorded every transfer. */
  lemma {:induction false} RunRecordsAll(seen: set<Json>, entity: string, xs: seq<Json>)
    requires |seen| + |xs| <= ProcessedLimit
    requires !Run(seen, entity, xs).aborted
    ensures AllRecorded(Run(seen, entity, xs).seen, xs)
    decreases |xs|
  {
    if xs != [] {
      var p := Run(seen, entity, xs[1..]);
      RunRecordsAll(seen, entity, xs[1..]);
      RunNoRepeats(seen, entity, xs[1..]);
      var o := Visit(p.seen, entity, xs[0]);
      assert Run(seen, entity, xs).seen == o.seen;
      assert |p.seen + {TxHash(xs[0])}| <= |p.seen| + 1;
      assert p.seen <= o.seen && TxHash(xs[0]) in o.seen;
      forall i | 0 <= i < |xs| ensures xs[i].JObj? && Hashable(TxHash(xs[i])) && TxHash(xs[i]) in o.seen {
        if i > 0 {
          assert xs[i] == xs[1..][i - 1];
        }
      }
    }
  }

  /** A batch whose every hash is already processed pushes nothing and changes nothing. */
  lemma {:induction false} RunAllSeen(seen: set<Json>, entity: string, xs: seq<Json>)
    requires AllRecorded(seen, xs)
    ensures Run(seen, entity, xs) == Outcome(seen, [], false)
    decreases |xs|
  {
    if xs != [] {
      assert AllRecorded(seen, xs[1..]) by {
        forall i | 0 <= i < |xs[1..]| ensures xs[1..][i] == xs[i + 1] {}
      }
      RunAllSeen(seen, entity, xs[1..]);
    }
  }

  /** Polling the same transfers twice (with no clear in between) alerts only the
      first time: the second pass pushes nothing and changes nothing. */
  lemma ReplayIsQuiet(seen: set<Json>, entity: string, xs: seq<Json>)
    requires |seen| + |xs| <= ProcessedLimit
    requires !Run(seen, entity, xs).aborted
    ensures var r := Run(seen, entity, xs);
      Run(r.seen, entity, xs) == Outcome(r.seen, [], false)
  {
    RunRecordsAll(seen, entity, xs);
    RunAllSeen(Run(seen, entity, xs).seen, entity, xs);
  }

  /** A new hash arriving at a full set empties it, the new hash included. */
  lemma ClearAtLimit(seen: set<Json>, entity: string, tx: Json)
    requires |seen| == ProcessedLimit && tx.JObj? && Hashable(TxHash(tx)) && TxHash(tx) !in seen
    ensures Visit(seen, entity, tx).seen == {}
  {
    assert |seen + {TxHash(tx)}| == ProcessedLimit + 1;
  }

  // ---------------------------------------------------------------- Telegram

  /** One `sendMessage` POST; only the thread id varies between the attempts. */
  datatype Post = Post(threadId: Option<int>)

  datatype Delivery = Delivery(posts: seq<Post>, delivered: bool)

  /** `"message thread not found" in d` for the reply's `description`; `None` when
      `in` raises (a number, a boolean or `None`). */
  function MentionsMissingThread(d: Json): Option<bool> {
    var phrase := "message thread not found";
    match d
    case JStr(s) => Some(Contains(s, phrase))
    case JList(items) => Some(JStr(phrase) in items)
    case JObj(fields) => Some(phrase in fields)
    case _ => None
  }

  /** The retry condition of `send_tg`; `None` when evaluating it raises. */
  function RetryWanted(reply: Json): Option<bool> {
    if !reply.JObj? then None
    else if Truthy(Get(reply.fields, "ok", JNull)) then Some(false)
    else MentionsMissingThread(Get(reply.fields, "description", JStr("")))
  }

  /** `send_tg`: post with the topic's thread id (when the topic is non-zero), and
      when the reply is not ok and names a missing thread, post once more without
      it. `first` and `second` are the decoded replies, `None` when the POST or the
      decoding raised; every exception is caught and the message is not delivered. */
  function SendTg(topic: int, first: Option<Json>, second: Option<Json>): (r: Delivery)
    ensures 1 <= |r.posts| <= 2
    ensures r.posts[0].threadId == (if topic != 0 then Some(topic) else None)
    ensures |r.posts| == 2 <==> first.Some? && RetryWanted(first.value) == Some(true)
    ensures |r.posts| == 2 ==> r.posts[1].threadId.None?
    ensures |r.posts| == 2 ==> (r.delivered <==> second.Some? && second.value.JObj? && Truthy(Get(second.value.fields, "ok", JNull)))
    ensures |r.posts| == 1 ==> (r.delivered <==> first.Some? && first.value.JObj? && Truthy(Get(first.value.fields, "ok", JNull)))
  {
    var firstPost := Post(if topic != 0 then Some(topic) else None);
    if first.None? then Delivery([firstPost], false)
    else
      var retry := RetryWanted(first.value);
      if retry.None? then Delivery([firstPost], false)
      else if retry.value then
        var secondPost := Post(None);
        var ok := second.Some? && second.value.JObj? && Truthy(Get(second.value.fields, "ok", JNull));
        Delivery([firstPost, secondPost], ok)
      else Delivery([firstPost], Truthy(Get(first.value.fields, "ok", JNull)))
  }

  /** The retry fires only after a reply that was not ok; a message is delivered
      only on an ok reply; with topic 0 no post names a thread. */
  lemma SendTgSpec(topic: int, first: Option<Json>, second: Option<Json>)
    ensures var r := SendTg(topic, first, second);
      && (|r.posts| == 2 ==> first.Some? && first.value.JObj? && !Truthy(Get(first.value.fields, "ok", JNull)))
      && (r.delivered ==> exists reply :: (reply == first || reply == second) && reply.Some? && reply.value.JObj?
                                      && Truthy(Get(reply.value.fields, "ok", JNull)))
      && (topic == 0 ==> forall i :: 0 <= i < |r.posts| ==> r.posts[i].threadId.None?)
  {
    var r := SendTg(topic, first, second);
    if r.delivered {
      var reply := if |r.posts| == 2 then second else first;
      assert reply.Some? && reply.value.JObj? && Truthy(Get(reply.value.fields, "ok", JNull));
    }
  }

  /** "message thread not found" retries without the thread id and delivers. */
  lemma SendTgRetryExample()
    ensures var notFound := JObj(map["ok" := JBool(false), "description" := JStr("Bad Request: " + "message thread not found")]);
      SendTg(1, Some(notFound), Some(JObj(map["ok" := JBool(true)]))) == Delivery([Post(Some(1)), Post(None)], true)
  {
    var prefix, pat := "Bad Request: ", "message thread not found";
    assert (prefix + pat)[|prefix|..] == pat;
    OccursContains(prefix + pat, pat, |prefix|);
  }

  /** An ok first reply sends once. */
  lemma SendTgOkExample()
    ensures var notFound := JObj(map["ok" := JBool(false), "description" := JStr("Bad Request: message thread not found")]);
      SendTg(1, Some(JObj(map["ok" := JBool(true)])), Some(notFound)) == Delivery([Post(Some(1))], true)
  {
  }

  // ---------------------------------------------------------------- state

  /** One entity's fetch: its name and the HTTP status and decoded body. */
  datatype Fetch = Fetch(entity: string, status: int, body: Option<Json>)

  /** `job()`: each entity's exceptions are caught and the next entity is scanned. */
  function JobRun(seen: set<Json>, fetches: seq<Fetch>): (r: Outcome)
    ensures !r.aborted
    decreases |fetches|
  {
    if fetches == [] then Outcome(seen, [], false)
    else
      var n := |fetches| - 1;
      var p := JobRun(seen, fetches[..n]);
      var o := Analyze(p.seen, fetches[n].entity, Transfers(fetches[n].status, fetches[n].body));
      Outcome(o.seen, p.alerts + o.alerts, false)
  }

  /** A whole scan never lets the processed set grow past the limit. */
  lemma {:induction false} JobRunBounded(seen: set<Json>, fetches: seq<Fetch>)
    requires |seen| <= ProcessedLimit
    ensures |JobRun(seen, fetches).seen| <= ProcessedLimit
    decreases |fetches|
  {
    if fetches != [] {
      var n := |fetches| - 1;
      JobRunBounded(seen, fetches[..n]);
      var p := JobRun(seen, fetches[..n]);
      var txs := Transfers(fetches[n].status, fetches[n].body);
      if Truthy(txs) && txs.JList? {
        RunBounded(p.seen, fetches[n].entity, txs.items);
      }
    }
  }

  /** Scanning one more entity analyses it from the set the earlier ones left. */
  lemma JobRunSnoc(seen: set<Json>, fs: seq<Fetch>, f: Fetch, whole: seq<Fetch>)
    requires whole == fs + [f]
    ensures var p := JobRun(seen, fs);
      var o := Analyze(p.seen, f.entity, Transfers(f.status, f.body));
      JobRun(seen, whole) == Outcome(o.seen, p.alerts + o.alerts, false)
  {
    assert whole[..|fs|] == fs;
  }

  /** A scan of `fs1 + fs2` is the scan of `fs1` followed by the scan of `fs2`
      from the set it leaves, whatever happened in `fs1`: an entity whose
      analysis raised keeps the alerts it pushed, and the later entities are
      still scanned. */
  lemma {:induction false} JobRunAppend(seen: set<Json>, fs1: seq<Fetch>, fs2: seq<Fetch>)
    ensures var first := JobRun(seen, fs1);
      var second := JobRun(first.seen, fs2);
      JobRun(seen, fs1 + fs2) == Outcome(second.seen, first.alerts + second.alerts, false)
    decreases |fs2|
  {
    var first := JobRun(seen, fs1);
    if fs2 == [] {
      assert fs1 + fs2 == fs1;
      assert first.alerts + [] == first.alerts;
    } else {
      var pre, f := fs2[..|fs2| - 1], fs2[|fs2| - 1];
      assert fs2 == pre + [f];
      assert fs1 + fs2 == (fs1 + pre) + [f];
      JobRunAppend(seen, fs1, pre);
      JobRunSnoc(seen, fs1 + pre, f, fs1 + fs2);
      JobRunSnoc(first.seen, pre, f, fs2);
      var mid := JobRun(first.seen, pre);
      var o := Analyze(mid.seen, f.entity, Transfers(f.status, f.body));
      AppendAssoc(first.alerts, mid.alerts, o.alerts);
    }
  }

  /** The module-level `processed_txs` set and the loops over it. */
  class Monitor {
    var processed: set<Json>

    ghost predicate Valid()
      reads this
    {
      |processed| <= ProcessedLimit
    }

    constructor ()
      ensures Valid() && processed == {}
    {
      processed := {};
    }

    /** `analyze_and_alert(entity, txs)` */
    method AnalyzeAndAlert(entity: string, txs: Json) returns (alerts: seq<TransferAlert>, aborted: bool)
      requires Valid()
      modifies this
      ensures Valid()
      ensures Outcome(processed, alerts, aborted) == Analyze(old(processed), entity, txs)
    {
      alerts := [];
      aborted := false;
      if !Truthy(txs) {
        return;
      }
      if !txs.JList? {
        aborted := true;
        return;
      }
      var items := txs.items;
      ghost var start := processed;
      var i := |items|;
      while i > 0
        invariant 0 <= i <= |items|
        invariant Run(start, entity, items[i..]) == Outcome(processed, alerts, false)
        invariant |processed| <= ProcessedLimit
      {
        i := i - 1;
        assert items[i..][1..] == items[i + 1..];
        RunBounded(start, entity, items[i..]);
        var tx := items[i];
        if !tx.JObj? {
          aborted := true;
        } else {
          var h := Get(tx.fields, "transactionHash", JNull);
          if !Hashable(h) {
            aborted := true;
          } else if h !in processed {
            processed := processed + {h};
            if |processed| > ProcessedLimit {
              processed := {};
            }
            var f := tx.fields;
            var amount := Get(f, "unitValue", JNum(0));
            var usd := Get(f, "historicalUSD", JNum(0));
            if !FloatOk(amount) || !FloatOk(usd) {
              aborted := true;
            } else {
              var sender := Label(OrEmpty(Get(f, "fromAddress", JNull)));
              var receiver := Label(OrEmpty(Get(f, "toAddress", JNull)));
              if sender.None? || receiver.None? {
                aborted := true;
              } else {
                alerts := alerts + [TransferAlert(entity, usd, amount, Get(f, "tokenSymbol", JStr("Unknown")),
                                                  sender.value, receiver.value,
                                                  Get(f, "blockTimestamp", JStr("Unknown Time")), h)];
              }
            }
          }
        }
        if aborted {
          RunAbortSticks(start, entity, items, i);
          assert items[0..] == items;
          return;
        }
      }
      assert items[0..] == items;
    }

    /** `job()` over the fetched transfers of every target entity, in order. */
    method Job(fetches: seq<Fetch>) returns (alerts: seq<TransferAlert>)
      requires Valid()
      modifies this
      ensures Valid()
      ensures Outcome(processed, alerts, false) == JobRun(old(processed), fetches)
    {
      alerts := [];
      var i := 0;
      while i < |fetches|
        invariant 0 <= i <= |fetches|
        invariant Valid()
        invariant Outcome(processed, alerts, false) == JobRun(old(processed), fetches[..i])
      {
        assert fetches[..i + 1][..i] == fetches[..i];
        var txs := Transfers(fetches[i].status, fetches[i].body);
        var more, _ := AnalyzeAndAlert(fetches[i].entity, txs);
        alerts := alerts + more;
        i := i + 1;
      }
      assert fetches[..i] == fetches;
    }
  }
}
