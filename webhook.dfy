/** The Twitter-webhook forwarder: classify an incoming webhook payload, match it
    against the configured keywords, forward matching tweets to Telegram, and keep
    the counters of the two monitoring loggers. */
module Webhook {
  import opened PyValues
  import opened Strings

  // ---------------------------------------------------------------- bounded log queue

  /** One entry of the Twitter logger's message queue (its timestamp is not modelled). */
  datatype LogEntry = Ignored(reason: string)

  /** `_add_to_queue`: append, then drop the oldest entry when over the bound. */
  function PushBounded<T>(q: seq<T>, e: T, bound: nat): (r: seq<T>)
    requires |q| <= bound
    ensures |r| == if |q| + 1 <= bound then |q| + 1 else bound
  {
    var appended := q + [e];
    if |appended| > bound then appended[1..] else appended
  }

  /** A bounded push keeps the newest entries: the result is a suffix of the
      appended queue and ends with the new entry. */
  lemma PushBoundedShape<T>(q: seq<T>, e: T, bound: nat)
    requires |q| <= bound
    ensures var r := PushBounded(q, e, bound);
      r == (q + [e])[|q| + 1 - |r|..] && (r != [] ==> r[|r| - 1] == e)
  {
    var r := PushBounded(q, e, bound);
    if |q| + 1 > bound {
      assert r == (q + [e])[1..];
    } else {
      assert r == (q + [e])[0..];
    }
  }

  /** A full queue of 100 loses its oldest entry on a push. */
  lemma PushBoundedDropsOldest<T>(q: seq<T>, e: T)
    requires |q| == 100
    ensures PushBounded(q, e, 100) == q[1..] + [e]
  {
    assert (q + [e])[1..] == q[1..] + [e];
  }

  // ---------------------------------------------------------------- uptime

  datatype Uptime = Uptime(hours: int, minutes: int, seconds: int)

  /** `_format_uptime` / `get_uptime`: `divmod(int(seconds), 3600)`, then `divmod(rest, 60)`. */
  function FormatUptime(seconds: real): (r: Uptime)
    ensures r.hours * 3600 + r.minutes * 60 + r.seconds == Trunc(seconds)
    ensures 0 <= r.minutes < 60 && 0 <= r.seconds < 60
  {
    var total := Trunc(seconds);
    var rest := total % 3600;
    Uptime(total / 3600, rest / 60, rest % 60)
  }

  /** The hours/minutes/seconds split is the only one with minutes and seconds below 60. */
  lemma UptimeUnique(seconds: real, u: Uptime)
    requires u.hours * 3600 + u.minutes * 60 + u.seconds == Trunc(seconds)
    requires 0 <= u.minutes < 60 && 0 <= u.seconds < 60
    ensures u == FormatUptime(seconds)
  {
    var r := FormatUptime(seconds);
    var a := u.minutes * 60 + u.seconds;
    var b := r.minutes * 60 + r.seconds;
    assert 0 <= a < 3600 && 0 <= b < 3600;
    assert (u.hours - r.hours) * 3600 == b - a;
    assert u.hours == r.hours;
    assert u.minutes * 60 + u.seconds == r.minutes * 60 + r.seconds;
    assert (u.minutes - r.minutes) * 60 == r.seconds - u.seconds;
  }

  lemma UptimeExample()
    ensures FormatUptime(3725.9) == Uptime(1, 2, 5)
  {
  }

  /** `success / total * 100`, or 0 with no requests. */
  function SuccessRate(success: nat, total: nat): real {
    if total > 0 then success as real / total as real * 100.0 else 0.0
  }

  /** With `total == success + errors` the rate is a percentage, and it is 100
      exactly when some request was made and none failed. */
  lemma SuccessRateBounds(success: nat, errors: nat)
    ensures var rate := SuccessRate(success, success + errors);
      && 0.0 <= rate <= 100.0
      && (rate == 100.0 <==> success + errors > 0 && errors == 0)
  {
    var total := success + errors;
    if total > 0 {
      var q := success as real / total as real;
      assert q * total as real == success as real;
      assert 0.0 <= q <= 1.0;
      if errors > 0 {
        assert q * total as real < total as real;
      }
    }
  }

  // ---------------------------------------------------------------- Twitter logger

  /** The reasons the handler logs for the requests it ignores, and the keyword it
      logs when nothing matched. */
  const HandshakeReason := "handshake/empty_data"
  const NoContentReason := "no_content"
  const NoMatchKeyword := "none"

  /** `TwitterLogger`: counters of the webhook endpoint (clock fields are not modelled). */
  class TwitterLogger {
    var webhookRequests: nat
    var webhookSuccess: nat
    var webhookError: nat
    var webhookIgnored: nat
    var keywordMatched: nat
    var keywordNotMatched: nat
    var matchedKeywords: set<string>
    var twitterApiStatus: Option<bool>
    var tweetParsedSuccess: nat
    var tweetParsedError: nat
    var lastErrorMsg: Option<string>
    var forwardTelegramSuccess: nat
    var forwardTelegramError: nat
    var messageQueue: seq<LogEntry>
    const maxQueueSize: nat

    ghost predicate Valid()
      reads this
    {
      webhookRequests == webhookSuccess + webhookError && |messageQueue| <= maxQueueSize
    }

    constructor ()
      ensures Valid() && maxQueueSize == 100
      ensures webhookRequests == 0 && webhookSuccess == 0 && webhookError == 0 && webhookIgnored == 0
      ensures keywordMatched == 0 && keywordNotMatched == 0 && matchedKeywords == {}
      ensures twitterApiStatus == None && tweetParsedSuccess == 0 && tweetParsedError == 0 && lastErrorMsg == None
      ensures forwardTelegramSuccess == 0 && forwardTelegramError == 0 && messageQueue == []
    {
      webhookRequests, webhookSuccess, webhookError, webhookIgnored := 0, 0, 0, 0;
      keywordMatched, keywordNotMatched, matchedKeywords := 0, 0, {};
      twitterApiStatus, tweetParsedSuccess, tweetParsedError, lastErrorMsg := None, 0, 0, None;
      forwardTelegramSuccess, forwardTelegramError, messageQueue := 0, 0, [];
      maxQueueSize := 100;
    }

    /** `log_webhook_request` */
    method LogWebhookRequest(success: bool, errorMsg: Option<string>)
      requires Valid()
      modifies this`webhookRequests, this`webhookSuccess, this`webhookError, this`lastErrorMsg
      ensures Valid()
      ensures webhookRequests == old(webhookRequests) + 1
      ensures success ==> webhookSuccess == old(webhookSuccess) + 1 && webhookError == old(webhookError)
                          && lastErrorMsg == old(lastErrorMsg)
      ensures !success ==> webhookError == old(webhookError) + 1 && webhookSuccess == old(webhookSuccess)
                           && lastErrorMsg == errorMsg
    {
      webhookRequests := webhookRequests + 1;
      if success {
        webhookSuccess := webhookSuccess + 1;
      } else {
        webhookError := webhookError + 1;
        lastErrorMsg := errorMsg;
      }
    }

    /** `log_webhook_ignored` */
    method LogWebhookIgnored(reason: string)
      requires Valid()
      modifies this`webhookIgnored, this`messageQueue
      ensures Valid()
      ensures webhookIgnored == old(webhookIgnored) + 1
      ensures messageQueue == PushBounded(old(messageQueue), Ignored(reason), maxQueueSize)
    {
      webhookIgnored := webhookIgnored + 1;
      AddToQueue(Ignored(reason));
    }

    /** `log_keyword_match` */
    method LogKeywordMatch(keyword: string, matched: bool)
      modifies this`keywordMatched, this`keywordNotMatched, this`matchedKeywords
      ensures matched ==> keywordMatched == old(keywordMatched) + 1 && keywordNotMatched == old(keywordNotMatched)
                          && matchedKeywords == old(matchedKeywords) + {keyword}
      ensures !matched ==> keywordNotMatched == old(keywordNotMatched) + 1 && keywordMatched == old(keywordMatched)
                           && matchedKeywords == old(matchedKeywords)
    {
      if matched {
        keywordMatched := keywordMatched + 1;
        matchedKeywords := matchedKeywords + {keyword};
      } else {
        keywordNotMatched := keywordNotMatched + 1;
      }
    }

    /** `log_tweet_parsed` */
    method LogTweetParsed(success: bool, errorMsg: Option<string>)
      modifies this`tweetParsedSuccess, this`tweetParsedError, this`lastErrorMsg
      ensures success ==> tweetParsedSuccess == old(tweetParsedSuccess) + 1 && tweetParsedError == old(tweetParsedError)
                          && lastErrorMsg == old(lastErrorMsg)
      ensures !success ==> tweetParsedError == old(tweetParsedError) + 1 && tweetParsedSuccess == old(tweetParsedSuccess)
                           && lastErrorMsg == errorMsg
    {
      if success {
        tweetParsedSuccess := tweetParsedSuccess + 1;
      } else {
        tweetParsedError := tweetParsedError + 1;
        lastErrorMsg := errorMsg;
      }
    }

    /** `log_telegram_forward` */
    method LogTelegramForward(success: bool, errorMsg: Option<string>)
      modifies this`forwardTelegramSuccess, this`forwardTelegramError, this`lastErrorMsg
      ensures success ==> forwardTelegramSuccess == old(forwardTelegramSuccess) + 1
                          && forwardTelegramError == old(forwardTelegramError) && lastErrorMsg == old(lastErrorMsg)
      ensures !success ==> forwardTelegramError == old(forwardTelegramError) + 1
                           && forwardTelegramSuccess == old(forwardTelegramSuccess) && lastErrorMsg == errorMsg
    {
      if success {
        forwardTelegramSuccess := forwardTelegramSuccess + 1;
      } else {
        forwardTelegramError := forwardTelegramError + 1;
        lastErrorMsg := errorMsg;
      }
    }

    /** `log_twitter_api_check` */
    method LogTwitterApiCheck(status: bool)
      modifies this`twitterApiStatus
      ensures twitterApiStatus == Some(status)
    {
      twitterApiStatus := Some(status);
    }

    /** `_add_to_queue` */
    method AddToQueue(entry: LogEntry)
      requires |messageQueue| <= maxQueueSize
      modifies this`messageQueue
      ensures |messageQueue| <= maxQueueSize
      ensures messageQueue == PushBounded(old(messageQueue), entry, maxQueueSize)
    {
      messageQueue := messageQueue + [entry];
      if |messageQueue| > maxQueueSize {
        messageQueue := messageQueue[1..];
      }
    }

    /** The calls `handle_twitter_webhook` makes on the Twitter logger for a request
        with verdict `v`, in the handler's order: the request counts as a success,
        then what each verdict logs. */
    method RecordWebhook(v: Verdict, send: SendResult)
      requires Valid()
      modifies this
      ensures Valid()
      ensures webhookRequests == old(webhookRequests) + 1 && webhookSuccess == old(webhookSuccess) + 1
      ensures unchanged(this`webhookError, this`tweetParsedError, this`twitterApiStatus)
      ensures v.Handshake? ==>
        && webhookIgnored == old(webhookIgnored) + 1
        && messageQueue == PushBounded(old(messageQueue), Ignored(HandshakeReason), maxQueueSize)
        && unchanged(this`tweetParsedSuccess, this`keywordMatched, this`keywordNotMatched, this`matchedKeywords)
        && unchanged(this`forwardTelegramSuccess, this`forwardTelegramError, this`lastErrorMsg)
      ensures v.NotADict? ==>
        && unchanged(this`webhookIgnored, this`messageQueue, this`tweetParsedSuccess)
        && unchanged(this`keywordMatched, this`keywordNotMatched, this`matchedKeywords)
        && unchanged(this`forwardTelegramSuccess, this`forwardTelegramError, this`lastErrorMsg)
      ensures v.NoContent? ==>
        && webhookIgnored == old(webhookIgnored) + 1
        && messageQueue == PushBounded(old(messageQueue), Ignored(NoContentReason), maxQueueSize)
        && tweetParsedSuccess == old(tweetParsedSuccess) + 1
        && unchanged(this`keywordMatched, this`keywordNotMatched, this`matchedKeywords)
        && unchanged(this`forwardTelegramSuccess, this`forwardTelegramError, this`lastErrorMsg)
      ensures v.TextNotString? ==>
        && tweetParsedSuccess == old(tweetParsedSuccess) + 1
        && unchanged(this`webhookIgnored, this`messageQueue, this`keywordMatched, this`keywordNotMatched, this`matchedKeywords)
        && unchanged(this`forwardTelegramSuccess, this`forwardTelegramError, this`lastErrorMsg)
      ensures v.NoKeyword? ==>
        && tweetParsedSuccess == old(tweetParsedSuccess) + 1
        && keywordNotMatched == old(keywordNotMatched) + 1
        && unchanged(this`webhookIgnored, this`messageQueue, this`keywordMatched, this`matchedKeywords)
        && unchanged(this`forwardTelegramSuccess, this`forwardTelegramError, this`lastErrorMsg)
      ensures v.Forward? ==>
        && tweetParsedSuccess == old(tweetParsedSuccess) + 1
        && keywordMatched == old(keywordMatched) + 1
        && matchedKeywords == old(matchedKeywords) + {v.keyword}
        && unchanged(this`webhookIgnored, this`messageQueue, this`keywordNotMatched)
        && (send.Sent? ==> forwardTelegramSuccess == old(forwardTelegramSuccess) + 1
                           && unchanged(this`forwardTelegramError, this`lastErrorMsg))
        && (!send.Sent? ==> forwardTelegramError == old(forwardTelegramError) + 1 && lastErrorMsg == None
                            && unchanged(this`forwardTelegramSuccess))
    {
      LogWebhookRequest(true, None);
      match v
      case Handshake => LogWebhookIgnored(HandshakeReason);
      case NotADict(_) =>
      case NoContent =>
        LogTweetParsed(true, None);
        LogWebhookIgnored(NoContentReason);
      case TextNotString(_) => LogTweetParsed(true, None);
      case NoKeyword =>
        LogTweetParsed(true, None);
        LogKeywordMatch(NoMatchKeyword, false);
      case Forward(keyword, _) => RecordForward(keyword, send);
    }

    /** A matched tweet: parsed, the keyword recorded, then the forward's outcome. */
    method RecordForward(keyword: string, send: SendResult)
      modifies this`tweetParsedSuccess, this`tweetParsedError, this`lastErrorMsg
      modifies this`keywordMatched, this`keywordNotMatched, this`matchedKeywords
      modifies this`forwardTelegramSuccess, this`forwardTelegramError
      ensures tweetParsedSuccess == old(tweetParsedSuccess) + 1 && tweetParsedError == old(tweetParsedError)
      ensures keywordMatched == old(keywordMatched) + 1 && keywordNotMatched == old(keywordNotMatched)
      ensures matchedKeywords == old(matchedKeywords) + {keyword}
      ensures send.Sent? ==> forwardTelegramSuccess == old(forwardTelegramSuccess) + 1
                             && forwardTelegramError == old(forwardTelegramError) && lastErrorMsg == old(lastErrorMsg)
      ensures !send.Sent? ==> forwardTelegramError == old(forwardTelegramError) + 1
                                   && forwardTelegramSuccess == old(forwardTelegramSuccess) && lastErrorMsg == None
    {
      LogTweetParsed(true, None);
      LogKeywordMatch(keyword, true);
      LogTelegramForward(send.Sent?, None);
    }

    /** `get_status_report`, given the uptime in seconds. */
    function StatusReport(uptimeSeconds: real): (r: TwitterReport)
      reads this
      ensures r.healthy <==> webhookError == 0
      ensures |r.recentLogs| == if |messageQueue| < 20 then |messageQueue| else 20
      ensures r.recentLogs == messageQueue[|messageQueue| - |r.recentLogs|..]
    {
      TwitterReport(
        webhookError == 0, FormatUptime(uptimeSeconds),
        webhookRequests, webhookSuccess, webhookError, webhookIgnored,
        SuccessRate(webhookSuccess, webhookRequests),
        keywordMatched, keywordNotMatched, |matchedKeywords|, matchedKeywords,
        tweetParsedSuccess, tweetParsedError, forwardTelegramSuccess, forwardTelegramError,
        twitterApiStatus,
        if lastErrorMsg.Some? && lastErrorMsg.value != "" then Some(ErrorInfo(lastErrorMsg.value, lastErrorMsg.value)) else None,
        if |messageQueue| < 20 then messageQueue else messageQueue[|messageQueue| - 20..])
    }
  }

  /** The `last_error` record of a report; the Twitter logger fills both fields with the message. */
  datatype ErrorInfo = ErrorInfo(time: string, message: string)

  datatype TwitterReport = TwitterReport(
    healthy: bool, uptime: Uptime,
    totalRequests: nat, success: nat, errors: nat, ignored: nat, successRate: real,
    matched: nat, notMatched: nat, uniqueKeywords: nat, matchedKeywords: set<string>,
    parsedSuccess: nat, parsedErrors: nat, forwardSuccess: nat, forwardErrors: nat,
    twitterApi: Option<bool>, lastError: Option<ErrorInfo>, recentLogs: seq<LogEntry>)

  // ---------------------------------------------------------------- general monitor

  const TelegramApi := "telegram_api"
  const WebhookEndpoint := "webhook_endpoint"
  const FlaskServer := "flask_server"

  /** `MonitorLogger`: request and Telegram counters and the interface health map
      (clock fields are not modelled). */
  class MonitorLogger {
    var requestCount: nat
    var successCount: nat
    var errorCount: nat
    var lastErrorMsg: Option<string>
    var telegramSuccessCount: nat
    var telegramErrorCount: nat
    var webhookReceivedCount: nat
    var webhookIgnoredCount: nat
    var interfaceStatus: map<string, Option<bool>>

    ghost predicate Valid()
      reads this
    {
      requestCount == successCount + errorCount
      && interfaceStatus.Keys == {TelegramApi, WebhookEndpoint, FlaskServer}
    }

    constructor ()
      ensures Valid()
      ensures requestCount == 0 && successCount == 0 && errorCount == 0 && lastErrorMsg == None
      ensures telegramSuccessCount == 0 && telegramErrorCount == 0 && webhookReceivedCount == 0 && webhookIgnoredCount == 0
      ensures interfaceStatus == map[TelegramApi := None, WebhookEndpoint := Some(true), FlaskServer := Some(true)]
    {
      requestCount, successCount, errorCount, lastErrorMsg := 0, 0, 0, None;
      telegramSuccessCount, telegramErrorCount, webhookReceivedCount, webhookIgnoredCount := 0, 0, 0, 0;
      interfaceStatus := map[TelegramApi := None, WebhookEndpoint := Some(true), FlaskServer := Some(true)];
    }

    /** `log_request` */
    method LogRequest(success: bool, errorMsg: Option<string>)
      requires Valid()
      modifies this`requestCount, this`successCount, this`errorCount, this`lastErrorMsg, this`interfaceStatus
      ensures Valid()
      ensures requestCount == old(requestCount) + 1
      ensures interfaceStatus == old(interfaceStatus)[WebhookEndpoint := Some(success)]
      ensures success ==> successCount == old(successCount) + 1 && errorCount == old(errorCount)
                          && lastErrorMsg == old(lastErrorMsg)
      ensures !success ==> errorCount == old(errorCount) + 1 && successCount == old(successCount)
                           && lastErrorMsg == errorMsg
    {
      requestCount := requestCount + 1;
      if success {
        successCount := successCount + 1;
        interfaceStatus := interfaceStatus[WebhookEndpoint := Some(true)];
      } else {
        errorCount := errorCount + 1;
        lastErrorMsg := errorMsg;
        interfaceStatus := interfaceStatus[WebhookEndpoint := Some(false)];
      }
    }

    /** `log_telegram_result` */
    method LogTelegramResult(success: bool, errorMsg: Option<string>)
      requires Valid()
      modifies this`telegramSuccessCount, this`telegramErrorCount, this`lastErrorMsg, this`interfaceStatus
      ensures Valid()
      ensures interfaceStatus == old(interfaceStatus)[TelegramApi := Some(success)]
      ensures success ==> telegramSuccessCount == old(telegramSuccessCount) + 1
                          && telegramErrorCount == old(telegramErrorCount) && lastErrorMsg == old(lastErrorMsg)
      ensures !success ==> telegramErrorCount == old(telegramErrorCount) + 1
                           && telegramSuccessCount == old(telegramSuccessCount) && lastErrorMsg == errorMsg
    {
      if success {
        telegramSuccessCount := telegramSuccessCount + 1;
        interfaceStatus := interfaceStatus[TelegramApi := Some(true)];
      } else {
        telegramErrorCount := telegramErrorCount + 1;
        lastErrorMsg := errorMsg;
        interfaceStatus := interfaceStatus[TelegramApi := Some(false)];
      }
    }

    /** `log_webhook_received` */
    method LogWebhookReceived(ignored: bool)
      modifies this`webhookReceivedCount, this`webhookIgnoredCount
      ensures ignored ==> webhookIgnoredCount == old(webhookIgnoredCount) + 1 && webhookReceivedCount == old(webhookReceivedCount)
      ensures !ignored ==> webhookReceivedCount == old(webhookReceivedCount) + 1 && webhookIgnoredCount == old(webhookIgnoredCount)
    {
      if ignored {
        webhookIgnoredCount := webhookIgnoredCount + 1;
      } else {
        webhookReceivedCount := webhookReceivedCount + 1;
      }
    }

    /** The calls `handle_twitter_webhook` makes on the general monitor for a request
        with verdict `v`, in the handler's order; `send` is what `send_to_telegram`
        logged for a forwarded tweet. A request whose parsing raised is logged twice. */
    method RecordWebhook(v: Verdict, send: SendResult)
      requires Valid()
      modifies this
      ensures Valid()
      ensures var failed := v.NotADict? || v.TextNotString?;
        && requestCount == old(requestCount) + (if failed then 2 else 1)
        && successCount == old(successCount) + 1
        && errorCount == old(errorCount) + (if failed then 1 else 0)
        && lastErrorMsg == (if failed then Some(ErrorText(v))
                            else if v.Forward? && send.SendFailed? then Some(send.error)
                            else old(lastErrorMsg))
        && interfaceStatus == (if v.Forward? then old(interfaceStatus)[WebhookEndpoint := Some(true)][TelegramApi := Some(send.Sent?)]
                               else old(interfaceStatus)[WebhookEndpoint := Some(!failed)])
        && webhookReceivedCount == old(webhookReceivedCount) + (if v.Handshake? then 0 else 1)
        && webhookIgnoredCount == old(webhookIgnoredCount) + (if v.Handshake? || v.NoContent? || v.NoKeyword? then 1 else 0)
        && telegramSuccessCount == old(telegramSuccessCount) + (if v.Forward? && send.Sent? then 1 else 0)
        && telegramErrorCount == old(telegramErrorCount) + (if v.Forward? && send.SendFailed? then 1 else 0)
    {
      LogRequest(true, None);
      LogWebhookReceived(v.Handshake?);
      if v.NotADict? || v.TextNotString? {
        LogRequest(false, Some(ErrorText(v)));
      } else if v.NoContent? || v.NoKeyword? {
        LogWebhookReceived(true);
      } else if v.Forward? {
        LogTelegramResult(send.Sent?, if send.SendFailed? then Some(send.error) else None);
      }
    }

    /** `get_status_report`, given the uptime in seconds. */
    function StatusReport(uptimeSeconds: real): (r: MonitorReport)
      reads this
      ensures r.healthy <==> errorCount == 0
      ensures r.interfaceStatus == interfaceStatus
    {
      MonitorReport(errorCount == 0, FormatUptime(uptimeSeconds), requestCount, successCount, errorCount,
                    SuccessRate(successCount, requestCount), telegramSuccessCount, telegramErrorCount,
                    webhookReceivedCount, webhookIgnoredCount, interfaceStatus)
    }
  }

  datatype MonitorReport = MonitorReport(
    healthy: bool, uptime: Uptime, totalRequests: nat, successful: nat, failed: nat, successRate: real,
    telegramSuccess: nat, telegramErrors: nat, webhookReceived: nat, webhookIgnored: nat,
    interfaceStatus: map<string, Option<bool>>)

  /** A consistent monitor reports a success rate between 0 and 100, and reports
      100 exactly when it is healthy and has seen a request. */
  lemma MonitorReportRate(m: MonitorLogger, uptimeSeconds: real)
    requires m.Valid()
    ensures var r := m.StatusReport(uptimeSeconds);
      0.0 <= r.successRate <= 100.0 && (r.successRate == 100.0 <==> r.healthy && r.totalRequests > 0)
  {
    SuccessRateBounds(m.successCount, m.errorCount);
  }

  // ---------------------------------------------------------------- keywords

  /** `TWITTER_KEYWORDS`: the raw setting, lower-cased, split on commas. */
  function ParseKeywords(raw: string): (ks: seq<string>)
    ensures |ks| >= 1
    ensures forall i :: 0 <= i < |ks| ==> ',' !in ks[i]
  {
    Split(Lower(raw), ',')
  }

  const DefaultKeywords := "bitcoin,btc,ethereum,eth,crypto,binance,arkham"

  /** The keywords are the lower-cased setting cut at its commas: joining them back
      gives the lower-cased setting, and no keyword holds an upper-case letter. */
  lemma ParseKeywordsSpec(raw: string)
    ensures Join(ParseKeywords(raw), ',') == Lower(raw)
    ensures forall i, j :: 0 <= i < |ParseKeywords(raw)| && 0 <= j < |ParseKeywords(raw)[i]| ==>
              !IsUpperAscii(ParseKeywords(raw)[i][j])
  {
    JoinSplit(Lower(raw), ',');
    var ks := ParseKeywords(raw);
    forall i, j | 0 <= i < |ks| && 0 <= j < |ks[i]| ensures !IsUpperAscii(ks[i][j]) {
      var m := JoinPosition(ks, ',', i, j);
      assert Lower(raw)[m] == LowerChar(raw[m]);
    }
  }

  /** The keyword test: the stripped keyword is non-empty and occurs in the text. */
  predicate Matches(keyword: string, text: string) {
    Strip(keyword) != "" && Contains(text, Strip(keyword))
  }

  /** The position of the first keyword at or after `start` that matches, or
      `|keywords|` when none does. */
  function FirstMatchFrom(keywords: seq<string>, text: string, start: nat): (i: nat)
    requires start <= |keywords|
    ensures start <= i <= |keywords|
    ensures forall j :: start <= j < i ==> !Matches(keywords[j], text)
    ensures i < |keywords| ==> Matches(keywords[i], text)
    decreases |keywords| - start
  {
    if start == |keywords| || Matches(keywords[start], text) then start
    else FirstMatchFrom(keywords, text, start + 1)
  }

  /** The position of the first keyword that matches, or `|keywords|` when none does. */
  function FirstMatchIndex(keywords: seq<string>, text: string): (i: nat)
    ensures i <= |keywords|
    ensures forall j :: 0 <= j < i ==> !Matches(keywords[j], text)
    ensures i < |keywords| ==> Matches(keywords[i], text)
  {
    FirstMatchFrom(keywords, text, 0)
  }

  /** Any position that matches with no match before it is the first match. */
  lemma FirstMatchIndexUnique(keywords: seq<string>, text: string, i: nat)
    requires i <= |keywords|
    requires forall j :: 0 <= j < i ==> !Matches(keywords[j], text)
    requires i < |keywords| ==> Matches(keywords[i], text)
    ensures FirstMatchIndex(keywords, text) == i
  {
    var k := FirstMatchIndex(keywords, text);
    assert !(k < i);
    assert !(i < k);
  }

  /** The stripped first matching keyword, which the handler records. */
  function FirstMatch(keywords: seq<string>, text: string): (r: Option<string>)
    ensures r.None? <==> forall i :: 0 <= i < |keywords| ==> !Matches(keywords[i], text)
    ensures r.Some? ==> r.value == Strip(keywords[FirstMatchIndex(keywords, text)]) && r.value != ""
                        && Contains(text, r.value)
  {
    var i := FirstMatchIndex(keywords, text);
    if i < |keywords| then Some(Strip(keywords[i])) else None
  }

  /** The keyword loop of the handler, with its `break` on the first match. */
  method FindKeyword(keywords: seq<string>, textLower: string) returns (found: Option<string>)
    ensures found == FirstMatch(keywords, textLower)
  {
    found := None;
    var i := 0;
    while i < |keywords|
      invariant 0 <= i <= |keywords|
      invariant forall j :: 0 <= j < i ==> !Matches(keywords[j], textLower)
    {
      var keyword := Strip(keywords[i]);
      if keyword != "" && Contains(textLower, keyword) {
        found := Some(keyword);
        break;
      }
      i := i + 1;
    }
    FirstMatchIndexUnique(keywords, textLower, i);
  }

  // ---------------------------------------------------------------- classification

  /** A webhook request: the decoded JSON body (`None` when the body is not JSON)
      and the form fields. */
  datatype Request = Request(json: Option<Json>, form: map<string, string>)

  /** `request.form.to_dict()` as a JSON object. */
  function FormJson(form: map<string, string>): Json {
    JObj(map k | k in form :: JStr(form[k]))
  }

  /** `data = request.json`, replaced by the form when falsy. */
  function RequestData(req: Request): (data: Json)
    ensures req.json.Some? && Truthy(req.json.value) ==> data == req.json.value
    ensures !(req.json.Some? && Truthy(req.json.value)) ==> data == FormJson(req.form)
  {
    if req.json.Some? && Truthy(req.json.value) then req.json.value else FormJson(req.form)
  }

  const NoText := "无正文内容"
  const UnknownUser := "未知用户"

  /** Python's name for the type of a JSON value, as it appears in an `AttributeError`. */
  function PyTypeName(j: Json): string {
    match j
    case JNull => "NoneType"
    case JBool(_) => "bool"
    case JNum(_) => "int"
    case JStr(_) => "str"
    case JList(_) => "list"
    case JObj(_) => "dict"
  }

  /** The message forwarded to Telegram. */
  datatype TweetMessage = TweetMessage(user: Json, text: string, link: Json)

  /** What the handler decides for a request. */
  datatype Verdict =
    | Handshake                              // nothing in the JSON body or the form
    | NotADict(typeName: string)             // `data.get` raised
    | NoContent                              // placeholder text and empty link
    | TextNotString(typeName: string)        // `tweet_text.lower()` raised
    | NoKeyword
    | Forward(keyword: string, message: TweetMessage)

  /** The three ordered field fallbacks of the handler. */
  function TweetText(fields: map<string, Json>): Json {
    FirstPresent(fields, ["text", "content", "full_text"], JStr(NoText))
  }
  function TweetLink(fields: map<string, Json>): Json {
    FirstPresent(fields, ["link", "url", "tweet_url"], JStr(""))
  }
  function TweetUser(fields: map<string, Json>): Json {
    FirstPresent(fields, ["user", "author", "screen_name"], JStr(UnknownUser))
  }

  /** The decision `handle_twitter_webhook` reaches for a request. */
  function Classify(req: Request, keywords: seq<string>): (v: Verdict)
    ensures v.Handshake? <==> !Truthy(RequestData(req))
    ensures v.NotADict? <==> Truthy(RequestData(req)) && !RequestData(req).JObj?
    ensures v.NotADict? ==> v.typeName == PyTypeName(RequestData(req))
    ensures var data := RequestData(req);
      Truthy(data) && data.JObj? ==>
        var text := TweetText(data.fields);
        var link := TweetLink(data.fields);
        var placeholder := text == JStr(NoText) && link == JStr("");
        && (v.NoContent? <==> placeholder)
        && (v.TextNotString? <==> !placeholder && !text.JStr?)
        && (v.TextNotString? ==> v.typeName == PyTypeName(text))
        && (v.Forward? <==> !placeholder && text.JStr? && exists i :: 0 <= i < |keywords| && Matches(keywords[i], Lower(text.s)))
        && (v.NoKeyword? <==> !placeholder && text.JStr? && forall i :: 0 <= i < |keywords| ==> !Matches(keywords[i], Lower(text.s)))
        && (v.Forward? ==> v.message == TweetMessage(TweetUser(data.fields), text.s, link)
                           && FirstMatch(keywords, Lower(text.s)) == Some(v.keyword)
                           && v.keyword != "" && Contains(Lower(text.s), v.keyword))
  {
    var data := RequestData(req);
    if !Truthy(data) then Handshake
    else if !data.JObj? then NotADict(PyTypeName(data))
    else
      var text := TweetText(data.fields);
      var link := TweetLink(data.fields);
      if text == JStr(NoText) && link == JStr("") then NoContent
      else if !text.JStr? then TextNotString(PyTypeName(text))
      else
        match FirstMatch(keywords, Lower(text.s))
        case None => NoKeyword
        case Some(k) => Forward(k, TweetMessage(TweetUser(data.fields), text.s, link))
  }

  /** A present `text` key wins the fallback even when it is empty, whatever
      `content` holds, and the empty text matches no keyword. */
  lemma PresentEmptyTextWins(fields: map<string, Json>, form: map<string, string>, keywords: seq<string>)
    requires "text" in fields && fields["text"] == JStr("")
    ensures Classify(Request(Some(JObj(fields)), form), keywords) == NoKeyword
  {
    assert Truthy(JObj(fields));
    assert TweetText(fields) == JStr("");
    forall i | 0 <= i < |keywords| ensures !Matches(keywords[i], Lower("")) {
      if Strip(keywords[i]) != "" {
        assert !(Strip(keywords[i]) <= "");
      }
    }
  }

  /** The body of the JSON reply (its HTTP status is always 200). */
  datatype Reply = Reply(status: string, msg: Option<string>, reason: Option<string>)

  /** The text of the exception a failing verdict raised. */
  function ErrorText(v: Verdict): string
    requires v.NotADict? || v.TextNotString?
  {
    if v.NotADict? then "'" + v.typeName + "' object has no attribute 'get'"
    else "'" + v.typeName + "' object has no attribute 'lower'"
  }

  function ReplyOf(v: Verdict): Reply {
    match v
    case Handshake => Reply("success", Some("Handshake received"), None)
    case NoContent => Reply("ignored", None, None)
    case NoKeyword => Reply("ignored", None, Some("no_keyword_match"))
    case Forward(_, _) => Reply("success", None, None)
    case _ => Reply("error", Some(ErrorText(v)), None)
  }

  /** What `send_to_telegram` reports: delivered, or the error it logged. */
  datatype SendResult = Sent | SendFailed(error: string)

  /** The classification steps of `handle_twitter_webhook`, with its keyword loop. */
  method ClassifyRequest(req: Request, keywords: seq<string>) returns (v: Verdict)
    ensures v == Classify(req, keywords)
  {
    var data := RequestData(req);
    if !Truthy(data) {
      return Handshake;
    }
    if !data.JObj? {
      return NotADict(PyTypeName(data));
    }
    var text := TweetText(data.fields);
    var link := TweetLink(data.fields);
    var user := TweetUser(data.fields);
    if text == JStr(NoText) && link == JStr("") {
      return NoContent;
    }
    if !text.JStr? {
      return TextNotString(PyTypeName(text));
    }
    var found := FindKeyword(keywords, Lower(text.s));
    if found.None? {
      return NoKeyword;
    }
    return Forward(found.value, TweetMessage(user, text.s, link));
  }

  /** `handle_twitter_webhook`: classify the request, update both loggers, and hand
      a matching tweet to Telegram. `send` is the outcome of that hand-off, and
      `outbox` the message handed off. */
  method HandleTwitterWebhook(monitor: MonitorLogger, tw: TwitterLogger, keywords: seq<string>, req: Request, send: SendResult)
    returns (reply: Reply, outbox: Option<TweetMessage>)
    requires monitor.Valid() && tw.Valid()
    modifies monitor, tw
    ensures monitor.Valid() && tw.Valid()
    ensures var v := Classify(req, keywords);
      && reply == ReplyOf(v)
      && outbox == (if v.Forward? then Some(v.message) else None)
    ensures var v := Classify(req, keywords);
      var failed := v.NotADict? || v.TextNotString?;
      && monitor.requestCount == old(monitor.requestCount) + (if failed then 2 else 1)
      && monitor.successCount == old(monitor.successCount) + 1
      && monitor.errorCount == old(monitor.errorCount) + (if failed then 1 else 0)
      && monitor.lastErrorMsg == (if failed then Some(ErrorText(v))
                                  else if v.Forward? && send.SendFailed? then Some(send.error)
                                  else old(monitor.lastErrorMsg))
      && monitor.interfaceStatus == (if v.Forward? then old(monitor.interfaceStatus)[WebhookEndpoint := Some(true)][TelegramApi := Some(send.Sent?)]
                                     else old(monitor.interfaceStatus)[WebhookEndpoint := Some(!failed)])
      && monitor.webhookReceivedCount == old(monitor.webhookReceivedCount) + (if v.Handshake? then 0 else 1)
      && monitor.webhookIgnoredCount == old(monitor.webhookIgnoredCount) + (if v.Handshake? || v.NoContent? || v.NoKeyword? then 1 else 0)
      && monitor.telegramSuccessCount == old(monitor.telegramSuccessCount) + (if v.Forward? && send.Sent? then 1 else 0)
      && monitor.telegramErrorCount == old(monitor.telegramErrorCount) + (if v.Forward? && send.SendFailed? then 1 else 0)
    ensures tw.webhookRequests == old(tw.webhookRequests) + 1 && tw.webhookSuccess == old(tw.webhookSuccess) + 1
    ensures unchanged(tw`webhookError, tw`tweetParsedError, tw`twitterApiStatus)
    ensures var v := Classify(req, keywords);
      v.Handshake? || v.NoContent? ==>
        && tw.webhookIgnored == old(tw.webhookIgnored) + 1
        && tw.messageQueue == PushBounded(old(tw.messageQueue), Ignored(if v.Handshake? then HandshakeReason else NoContentReason), tw.maxQueueSize)
    ensures var v := Classify(req, keywords);
      !v.Handshake? && !v.NoContent? ==> unchanged(tw`webhookIgnored, tw`messageQueue)
    ensures var v := Classify(req, keywords);
      tw.tweetParsedSuccess == old(tw.tweetParsedSuccess) + (if v.Handshake? || v.NotADict? then 0 else 1)
    ensures var v := Classify(req, keywords);
      && (v.NoKeyword? ==> tw.keywordNotMatched == old(tw.keywordNotMatched) + 1 && unchanged(tw`keywordMatched, tw`matchedKeywords))
      && (v.Forward? ==> tw.keywordMatched == old(tw.keywordMatched) + 1 && tw.matchedKeywords == old(tw.matchedKeywords) + {v.keyword}
                         && unchanged(tw`keywordNotMatched))
      && (!v.NoKeyword? && !v.Forward? ==> unchanged(tw`keywordMatched, tw`keywordNotMatched, tw`matchedKeywords))
    ensures var v := Classify(req, keywords);
      && (v.Forward? && send.Sent? ==> tw.forwardTelegramSuccess == old(tw.forwardTelegramSuccess) + 1
                                       && unchanged(tw`forwardTelegramError, tw`lastErrorMsg))
      && (v.Forward? && !send.Sent? ==> tw.forwardTelegramError == old(tw.forwardTelegramError) + 1 && tw.lastErrorMsg == None
                                        && unchanged(tw`forwardTelegramSuccess))
      && (!v.Forward? ==> unchanged(tw`forwardTelegramSuccess, tw`forwardTelegramError, tw`lastErrorMsg))
  {
    var v := ClassifyRequest(req, keywords);
    monitor.RecordWebhook(v, send);
    tw.RecordWebhook(v, send);
    reply := ReplyOf(v);
    outbox := if v.Forward? then Some(v.message) else None;
  }
}
