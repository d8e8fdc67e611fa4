# Crypto alert bots — a Dafny model

This project models the decision logic and in-memory state of four small Python
bots that push crypto-market alerts to Telegram:

- **the Binance stream monitor** (`bianjk.py`): routes each combined-stream frame
  by stream name. Per trade it applies the single-trade threshold and the
  burst window per (symbol, side): a deque evicted from its head and cleared when
  it fires. Per closed 5-minute candle it applies the volume-spike rule against
  the start-up baseline, whose sentinel is 99999999. Per depth snapshot it
  applies the order-wall rule, with a 300-second cooldown keyed by
  (symbol, side, integer price);
- **the Arkham transfer monitor** (`arkm.py`): parses the response shape,
  processes transfers oldest first against the `processed_txs` set (cleared
  wholesale once it grows past 5000), renders address labels, and retries the
  Telegram send without the thread id when the topic is missing;
- **the Twitter-webhook forwarder** (`botsever.py`): the request classification
  of `handle_twitter_webhook`, the `TWITTER_KEYWORDS` parsing and the
  first-match keyword loop. It also models the two logger classes
  `TwitterLogger` and `MonitorLogger`: their counters, the bounded message
  queue, the interface-health map, uptime formatting and the status reports;
- **the Mlion news poller** (`zixun.py`): the error-code check, the newest-item
  extraction, the `id or pub_time or title` fingerprint, the last-fingerprint
  dedup and `format_message`. The module calls `sys.exit(0)` at import
  (zixun.py:10), so this code never runs as shipped; the model follows the
  logic below that line as written.

Telegram sends become returned alert values or explicit inputs (the decoded
replies). HTTP responses are inputs (the status and the decoded body, or `None`
when decoding raised). Clocks are `now` parameters. Python values are a `Json`
datatype with Python truthiness, `dict.get` defaults and `int()` truncation
(`py_values.dfy`). The few `str` methods used are in `strings.dfy`. Objects the
source mutates are classes: `Binance.Monitor`, `Arkham.Monitor`,
`Webhook.TwitterLogger`, `Webhook.MonitorLogger` and `News.NewsFeed`. Each
method states its new state in full. For the two monitors and the news feed it
is a pure function of the old state, and the properties are proved about those
functions. The two loggers state each field in terms of its old value.

## Model

| member | source | states |
|---|---|---|
| Binance.FormatAmount | bianjk.py:91-97 | the bucket is M iff amount ≥ 1,000,000, K iff 1,000 ≤ amount < 1,000,000, none otherwise; value × factor = amount; the scaled value is ≥ 1 in M and K, and < 1000 in K |
| Binance.FormatAmountExamples | bianjk.py:91-97 | 1,500,000 → 1.5 M, 50,000 → 50 K, 100.5 → 100.5 |
| Binance.SingleTradeAlert | bianjk.py:195-211 | an alert iff the symbol has a non-zero threshold and qty ≥ threshold; the alert carries side (a buyer-maker trade is a sell), qty, price, price × qty and time |
| Binance.Evict | bianjk.py:219-220 | the result is a suffix of the queue; its head is within the 6000 ms window; every dropped entry was older than the window |
| Binance.BurstStep | bianjk.py:214-234 | after append and eviction the new entry is last; it fires iff the window holds more than the trigger; a firing reports the count and the sum and empties the queue; otherwise the queue is the evicted window; the queue never exceeds the trigger |
| Binance.BurstExample | bianjk.py:28-30 | with defaults, two $100,001 trades 500 ms apart: the first is queued, the second fires with count 2 and empties the queue |
| Binance.TradeStep | bianjk.py:189-234 | only the trade's (symbol, side) queue changes; a trade under the USD floor changes no queue |
| Binance.TradeStepSpec | bianjk.py:189-234 | alerts = the single-trade alert, then a burst alert iff the trade reaches the floor and the evicted window holds more than the trigger; the key's queue becomes [] or the window |
| Binance.TradeStepKeepsWindowsBounded | bianjk.py:214-234 | every window keeps ≤ trigger entries, each at or above the USD floor |
| Binance.BurstStepEntries | bianjk.py:214-234 | a burst step on a window of ≤ trigger entries at or above the floor, with a new entry at or above it, leaves such a window |
| Binance.Monitor.ProcessTrade | bianjk.py:189-234 | the deque update and alerts equal `TradeStep`; the window invariant is kept |
| Binance.Monitor.EvictHead | bianjk.py:219-220 | the `popleft` loop leaves exactly `Evict(q, now)` |
| Binance.Monitor.PushBurst | bianjk.py:216-234 | the append, eviction and firing on one deque equal `BurstStep` |
| Binance.KlineAlert | bianjk.py:128-152 | an alert iff the candle is closed, the symbol has a baseline > 0 and volume > baseline × multiplier; a missing baseline never alerts; the alert carries the symbol, the candle volume, the baseline as average, the event time, amount = volume × close, and a multiple with multiple × baseline = volume and multiple > multiplier |
| Binance.KlineExample | bianjk.py:137-140 | baseline 100, closed volume 350 alerts with multiple 3.5 |
| Binance.Mean | bianjk.py:118-119 | mean × count = sum of volumes |
| Binance.MeanBetween | bianjk.py:118-119 | the average lies between the smallest and the largest candle volume |
| Binance.BaselineValue | bianjk.py:113-126 | no or empty history gives 99999999; otherwise value × count = sum |
| Binance.BaselineAfterSpec | bianjk.py:106-126 | after start-up every symbol's upper-case name has a baseline equal to its last occurrence's value; other keys keep theirs |
| Binance.Monitor.InitBaseline | bianjk.py:106-126 | the loop leaves the baseline map equal to `BaselineAfter` |
| Binance.WallStep | bianjk.py:167-187 | one alert iff price × qty ≥ threshold and now − last alert for (symbol, side, int(price)) ≥ 300; an alert records now for that key; no alert changes nothing |
| Binance.WallScan | bianjk.py:161-176 | every alert of a side scan is an order-wall alert for that symbol and side |
| Binance.WallExample | bianjk.py:167-176 | a 200 × 50000 bid alerts, is suppressed 299 s later, and alerts again at 300 s |
| Binance.WallScanHistory | bianjk.py:154-176 | over one side, every alerted key's history is now; at most one alert per level |
| Binance.WallScanUntouched | bianjk.py:154-176 | a key that did not alert keeps its history entry or its absence |
| Binance.WallScanDistinct | bianjk.py:154-176 | no key alerts twice within one snapshot side |
| Binance.AlertKeysAppend | bianjk.py:170 | the alerted keys of two runs of alerts are the union of each run's keys |
| Binance.Monitor.CheckWall | bianjk.py:167-187 | the history update and alert equal `WallStep` |
| Binance.Monitor.CheckSide | bianjk.py:161-165 | the loop over levels equals `WallScan` |
| Binance.Monitor.ProcessDepth | bianjk.py:154-165 | bids (`bids` or `b`) are scanned, then asks (`asks` or `a`), at one clock reading |
| Binance.StreamSymbol | bianjk.py:264-265 | the symbol is the upper-cased text before the first `@`, and holds no `@` |
| Binance.StreamSymbolAt | bianjk.py:264-265 | for a `@` at position k with none before, the symbol is `Upper(stream[..k])` |
| Binance.RouteOf | bianjk.py:267-272 | `aggTrade` wins, then `kline`, then `depth`; unrouted iff none occurs |
| Binance.StreamSymbolOf | bianjk.py:264-265 | for a name without `@`, the stream `name@rest` carries `Upper(name)` |
| Binance.LowerNameLacksAggTrade | bianjk.py:19 | a lower-cased symbol cannot hold `aggTrade`, which has an upper-case letter |
| Binance.TradeStreamRouted | bianjk.py:239 | `<symbol>@aggTrade` carries the upper-cased symbol and routes to the trade handler |
| Binance.KlineStreamRouted | bianjk.py:240 | for a lower-cased symbol, `<symbol>@kline_5m` carries the upper-cased symbol and routes to the candle handler |
| Binance.DepthStreamRouted | bianjk.py:241 | for a lower-cased symbol without `kline`, `<symbol>@depth20@100ms` carries the upper-cased symbol and routes to the depth handler |
| Binance.NotContainedAcrossAt | bianjk.py:267-272 | a pattern absent from the symbol, holding a character the suffix lacks, is absent from `symbol@suffix` |
| Binance.Monitor.HandleFrame | bianjk.py:259-272 | a frame without `data` changes nothing; otherwise the routed handler's state change and alerts; the window invariant is kept |
| Arkham.Transfers | arkm.py:114-137 | status 200: a dict's `transfers` or a list as is, else []; any other status or an exception gives [] |
| Arkham.Label | arkm.py:163-170 | falsy info gives "Unknown"; a truthy non-dict raises; a dict `arkhamLabel` gives its `name`, falling back to `address`; otherwise the result exists iff the address (default "Unknown") is a string, and is its first min(8, length) characters followed by "..." |
| Arkham.LabelExamples | arkm.py:166-170 | concrete labels: an entity label's name, a label without a name (null), empty info ("Unknown") |
| Arkham.LabelAddressExamples | arkm.py:166-170 | concrete labels without an entity label: an address cut to eight characters plus "...", a missing address giving "Unknown..." |
| Arkham.AddHash | arkm.py:151-154 | the hash is added, and the set is emptied when that takes it past 5000 |
| Arkham.Visit | arkm.py:143-185 | a non-dict transfer or an unhashable hash raises with the set unchanged; a seen hash is skipped; a new hash is recorded before conversion, and the transfer raises iff a `float()` or a label fails, otherwise it gives exactly one alert carrying the entity, USD value, amount, token, both labels, block time and hash |
| Arkham.NewHashCount | arkm.py:143-156 | the `count` of new transfers never exceeds the batch length |
| Arkham.RunCountsNewHashes | arkm.py:143-185 | a batch that runs to the end pushes exactly `count` messages, one per transfer whose hash was absent at its turn, and leaves the same processed set |
| Arkham.RunAbortSticks | arkm.py:139-185 | after an exception, earlier transfers are not visited |
| Arkham.RunBounded | arkm.py:151-154 | the processed set stays ≤ 5000 |
| Arkham.RunSplit | arkm.py:143-185 | a batch is its newer part followed by its older part, run from the set the newer part leaves, with the alerts concatenated; an exception in the newer part ends the batch there |
| Arkham.RunNoRepeats | arkm.py:143-154 | with no clear possible, no hash is pushed twice or when already processed, and every pushed hash is recorded |
| Arkham.RunRecordsAll | arkm.py:143-154 | a batch that completes has recorded every transfer's hash |
| Arkham.RunAllSeen | arkm.py:146-147 | a batch of processed hashes pushes nothing and changes nothing |
| Arkham.ReplayIsQuiet | arkm.py:143-154 | replaying the same batch pushes nothing and changes nothing |
| Arkham.ClearAtLimit | arkm.py:151-154 | a new hash at a full set of 5000 empties it |
| Arkham.Monitor.AnalyzeAndAlert | arkm.py:139-187 | the reversed loop over `txs` equals `Analyze`: falsy does nothing, a non-list raises, otherwise `Run` |
| Arkham.SendTg | arkm.py:55-91 | the first post carries the thread id iff the topic is non-zero; a second post without it happens iff the first reply is not ok and names a missing thread; delivery is decided by the last reply's `ok` |
| Arkham.SendTgSpec | arkm.py:70-91 | a retry follows only a not-ok reply; delivery needs an ok reply; topic 0 never sends a thread id |
| Arkham.SendTgRetryExample | arkm.py:70-87 | a "message thread not found" reply is retried without the thread id, and the second ok reply delivers |
| Arkham.SendTgOkExample | arkm.py:70-87 | an ok first reply sends once, with the thread id |
| Arkham.JobRun | arkm.py:189-198 | a scan never raises: every entity's exception is caught |
| Arkham.JobRunAppend | arkm.py:189-198 | a scan of two runs of entities is the first scan followed by the second from the set it leaves, whatever the first did: a raising entity keeps the alerts it pushed and never stops the entities after it |
| Arkham.JobRunBounded | arkm.py:189-198 | a whole scan keeps the processed set ≤ 5000 |
| Arkham.Monitor.Job | arkm.py:189-198 | the loop over entities equals `JobRun`; the invariant is kept |
| Webhook.PushBounded | botsever.py:103-107 | the queue grows by one up to the bound and never beyond it |
| Webhook.PushBoundedShape | botsever.py:103-107 | the pushed queue is a suffix of the appended queue and ends with the new entry |
| Webhook.PushBoundedDropsOldest | botsever.py:103-107 | a full queue of 100 loses exactly its oldest entry |
| Webhook.TwitterLogger.AddToQueue | botsever.py:103-107 | the queue becomes `PushBounded(queue, entry, 100)` |
| Webhook.FormatUptime | botsever.py:159-163 | h × 3600 + m × 60 + s = int(seconds), with 0 ≤ m, s < 60 |
| Webhook.UptimeUnique | botsever.py:286-291 | that split is the only one with minutes and seconds below 60 |
| Webhook.UptimeExample | botsever.py:159-163 | 3725.9 s is 1h 2m 5s |
| Webhook.SuccessRateBounds | botsever.py:305 | the rate is in [0, 100], and is 100 iff requests > 0 and none failed |
| Webhook.TwitterLogger.constructor | botsever.py:23-51 | all counters zero, queue empty, bound 100 |
| Webhook.TwitterLogger.LogWebhookRequest | botsever.py:53-62 | requests +1; success +1, or error +1 and the message is recorded |
| Webhook.TwitterLogger.LogWebhookIgnored | botsever.py:64-69 | ignored +1 and an entry is queued |
| Webhook.TwitterLogger.LogKeywordMatch | botsever.py:71-77 | matched +1 and the keyword is added, or not-matched +1 |
| Webhook.TwitterLogger.LogTweetParsed | botsever.py:79-88 | parsed +1, or parse-errors +1 and the message is recorded |
| Webhook.TwitterLogger.LogTelegramForward | botsever.py:90-96 | forward success +1, or forward errors +1 and the message is recorded |
| Webhook.TwitterLogger.LogTwitterApiCheck | botsever.py:98-101 | the API status becomes the result |
| Webhook.TwitterLogger.StatusReport | botsever.py:109-157 | healthy iff no webhook error; recent logs are the last ≤ 20 queue entries |
| Webhook.MonitorLogger.constructor | botsever.py:232-250 | zero counters; telegram status unknown, webhook and flask healthy |
| Webhook.MonitorLogger.LogRequest | botsever.py:252-266 | requests +1; success +1, or error +1 with the message; the webhook health is the result; the count identity is kept |
| Webhook.MonitorLogger.LogTelegramResult | botsever.py:268-277 | telegram success +1, or errors +1 with the message; the telegram health is the result |
| Webhook.MonitorLogger.LogWebhookReceived | botsever.py:279-284 | received +1 or ignored +1 |
| Webhook.MonitorLogger.StatusReport | botsever.py:293-324 | healthy iff no error; the interface map is reported as is |
| Webhook.MonitorReportRate | botsever.py:293-324 | for a consistent monitor the rate is in [0, 100], and is 100 iff healthy with a request |
| Webhook.ParseKeywords | botsever.py:688-692 | at least one keyword, none holds a comma |
| Webhook.ParseKeywordsSpec | botsever.py:688-692 | the keywords joined by commas give the lower-cased setting; no keyword holds an upper-case letter |
| Webhook.FirstMatchIndex | botsever.py:743-750 | no earlier keyword matches; the index matches unless it is past the end |
| Webhook.FirstMatchIndexUnique | botsever.py:743-750 | the first matching position is unique |
| Webhook.FirstMatchFrom | botsever.py:743-750 | the index found from `start` is the first matching keyword at or after it, or the end |
| Webhook.FirstMatch | botsever.py:743-750 | none iff no stripped non-empty keyword occurs in the text; otherwise the first such keyword, stripped |
| Webhook.FindKeyword | botsever.py:742-750 | the loop with `break` returns `FirstMatch` |
| Webhook.Classify | botsever.py:706-771 | a handshake iff the data is falsy; a `.get` failure iff it is truthy and not a dict; for a truthy dict: no content iff the text is the placeholder and the link empty; otherwise a `.lower` failure iff the text is not a string; otherwise a forward iff some keyword matches the lower-cased text, and no keyword iff none does; a forward carries the first matching keyword and the message of user, text and link |
| Webhook.RequestData | botsever.py:708-710 | a truthy JSON body is the data; otherwise the form fields are |
| Webhook.PresentEmptyTextWins | botsever.py:724-726 | a present empty `text` wins over any other field; the empty text matches no keyword |
| Webhook.ClassifyRequest | botsever.py:707-750 | the classification steps compute `Classify` |
| Webhook.MonitorLogger.RecordWebhook | botsever.py:705-775 | the monitor's calls for a verdict: a `.get`/`.lower` failure counts 2 requests, 1 success and 1 error; ignored cases and Telegram results are counted; the count identity is kept |
| Webhook.TwitterLogger.RecordWebhook | botsever.py:705-775 | the Twitter logger's calls, verdict by verdict: one successful request; a handshake or empty data queues one ignore; a parsed tweet counts a parse; a no-content tweet also queues an ignore; a missing keyword counts a non-match, with the ignored counter and queue unchanged; a forward counts a match and the Telegram result; every other counter is unchanged |
| Webhook.TwitterLogger.RecordForward | botsever.py:728-775 | a forward counts one parse, one keyword match and one Telegram result; a failed send clears `last_error_msg` |
| Webhook.HandleTwitterWebhook | botsever.py:700-775 | the reply and forwarded message follow `Classify`; every counter of both loggers changes as stated; both invariants are kept |
| News.CodeAccepted | zixun.py:104-113 | a dict passes iff its `code` is present and equals 0 or 200; a list always passes |
| News.LatestItem | zixun.py:115-122 | the head of a non-empty `data` list of a dict, or of a non-empty list response; otherwise none |
| News.Fingerprint | zixun.py:127-132 | one of id, pub_time and title; truthy iff one of them is; id wins when truthy, then pub_time, and otherwise the title value (null when absent) |
| News.NewsStep | zixun.py:78-146 | an item is returned iff status 200, body decoded, code accepted, truthy dict item and fingerprint ≠ stored; it is then stored; otherwise the stored fingerprint is unchanged |
| News.NewsStepIdempotent | zixun.py:137-142 | polling the same response again returns nothing and changes nothing |
| News.DuplicateSkipped | zixun.py:137-138 | an item whose id is stored is skipped |
| News.FirstItemDelivered | zixun.py:121-142 | a first poll of a one-item list returns it and stores its id |
| News.PollsNoBackToBackRepeat | zixun.py:137-142 | over any run of polls the stored fingerprint is the last delivered item's; consecutive deliveries differ in fingerprint |
| News.Polls | zixun.py:78-146 | a run of polls delivers at most one item per response, each a dict |
| News.NewsFeed.GetLatestNews | zixun.py:78-146 | no key gives none; otherwise the returned item and the new state equal `NewsStep` |
| News.FormatMessage | zixun.py:149-193 | none iff the item is falsy; a truthy non-dict raises |
| News.HashTags | zixun.py:177 | one "#tag" per list item, in order |
| News.TagsText | zixun.py:173-179 | a string verbatim; an empty list or any non-string non-list gives "" |
| News.TagsSplitBack | zixun.py:173-179 | a non-empty tag list with no spaces splits back on " " into its "#tag" items |
| News.TimeText | zixun.py:158-170 | a non-numeric `pub_time` is shown as is |
| News.TitleShown | zixun.py:183-186 | the part before the content holds the title |
| News.LinkShown | zixun.py:190-191 | the link part holds the url and ends with the anchor |
| News.MessageShape | zixun.py:183-193 | the message contains the title and the content; with a link it contains the link and ends with the anchor, otherwise it ends after the content |
| News.DefaultsShown | zixun.py:156-157 | an item without title and content shows "无标题" and "暂无摘要" |
| News.FieldsShown | zixun.py:156-193 | a dict item's title, content and url appear; the anchor ends the message iff the url is non-empty |
| PyValues.FirstPresentIsNestedGet | botsever.py:724-730 | the ordered key list equals the nested `get` chain |
| PyValues.FirstPresent | botsever.py:724-730 | the first present key's value, or the default when no key is present |
| PyValues.Trunc | bianjk.py:170 | `int()` truncates toward zero |
| Strings.JoinSplit | botsever.py:688-692 | joining a split gives back the text |
| Strings.SplitJoin | zixun.py:177 | splitting a join of separator-free pieces gives back the pieces |
| Strings.StripShape | botsever.py:745 | the stripped text is the slice between the leading and trailing whitespace runs, with non-space ends |
| Strings.Lower | bianjk.py:19 | each character is lower-cased, length kept |
| Strings.Upper | bianjk.py:265 | each character is upper-cased, length kept |
| Strings.Take | arkm.py:170 | the first n characters, or the whole text when shorter |

## Left out

- Network, Telegram and Arkham/Mlion/Binance HTTP calls, WebSocket reconnects,
  `time.sleep`, `schedule` loops, `asyncio` and threads: responses and replies
  are inputs, sends are returned values.
- Wall-clock reads: `now`, uptime seconds and trade times are parameters;
  `last_request_time`, `last_tweet_time`, `last_error_time` and the other
  timestamps are not modelled.
- Message text of the Binance, Arkham and webhook alerts, and float rendering
  (`:.2f`, `:,.0f`, `.1f`, `%`): alerts are structured values. `format_amount`
  keeps the bucket and the scaled value. `format_message` is rendered, with
  Python's `str()` of non-string values and the epoch-to-date conversion
  given as parameters (`show`, `stamp`).
- JSON numbers are integers in `Json`; prices, quantities and volumes are reals.
  Python's `True == 1` identity inside sets (Arkham `processed_txs`) and in
  fingerprint comparison is not modelled; the model uses structural equality.
- Arkham.FloatOk: `float()` on strings accepts decimal literals only (no
  exponent, `inf`, `nan` or underscores).
- Arkham.RunNoRepeats: at-most-once alerting is proved for a stretch of the
  batch in which no clear can happen (`|seen| + |xs| <= 5000`); a batch with
  clears is cut into such stretches with Arkham.RunSplit, and a duplicate on
  either side of a clear may alert again, as in the source.
- Strings.Lower: `lower()` acts on ASCII letters only; other characters are kept as they are.
- Strings.Upper: `upper()` acts on ASCII letters only; other characters are kept as they are.
- Webhook.RequestData: Flask's `request.json` on a non-JSON body is taken to be
  `None` (the form data is then used).
- Webhook.ErrorText: only the two exceptions the handler can raise on its
  parsed data are modelled (`.get` on a non-dict, `.lower` on a non-string).
- Webhook.MonitorLogger.RecordWebhook: the handler interleaves the calls on the
  two loggers; the model applies each logger's calls, in order, in one method.
  The two loggers share no state, so the final state is the same.
- Webhook.TwitterLogger.StatusReport: the `last_error` record puts the message
  in its `time` field too, as the source does; the report's `last_check` is
  not modelled.
- Binance.Monitor.HandleFrame: a payload whose shape does not match its stream
  raises in the source, possibly after some bid walls have been recorded, and
  the connection is re-opened; the model cannot represent such a frame and
  drops it with the state unchanged.
- `send_to_telegram` in `botsever.py` is reduced to its outcome
  (`Webhook.SendResult`); its Telegram call is not modelled.
- `TelegramConnectivityTester`, `check_twitter_connectivity`, `print_status`,
  the Flask status routes, `get_available_port`, `main.py`, `prod_server.py`,
  environment-variable loading and the fingerprint file
  (`load_last_fingerprint`/`save_last_fingerprint`) are not part of this model.
- News.NewsFeed.GetLatestNews: the missing-API-key branch is a parameter; the
  module raises at import when the key is missing, so it cannot be reached.
