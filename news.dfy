/** The Mlion news poller: fetch the real-time news list, take its newest item,
    skip it when its fingerprint equals the last one seen, and render it as a
    Telegram HTML message. (The module exits at import, so none of this runs as
    shipped; the logic is modelled as written.) */
module News {
  import opened PyValues
  import opened Strings

  // ---------------------------------------------------------------- the payload

  /** The internal error-code check: a dict response passes only when its "code"
      is present and equal to 0 or 200; a list response always passes. */
  function CodeAccepted(data: Json): (ok: bool)
    ensures !data.JObj? ==> ok
    ensures data.JObj? ==>
              (ok <==> "code" in data.fields && (PyEqInt(data.fields["code"], 0) || PyEqInt(data.fields["code"], 200)))
  {
    !(data.JObj? && !PyEqInt(Get(data.fields, "code", JNull), 0) && !PyEqInt(Get(data.fields, "code", JNum(0)), 200))
  }

  /** The newest item: the head of a non-empty `data` list inside a dict, or the
      head of a non-empty list response; `None` otherwise. */
  function LatestItem(data: Json): (r: Json)
    ensures data.JObj? && "data" in data.fields && data.fields["data"].JList? && data.fields["data"].items != [] ==>
              r == data.fields["data"].items[0]
    ensures data.JList? && data.items != [] ==> r == data.items[0]
    ensures r != JNull ==> (data.JObj? && "data" in data.fields && data.fields["data"].JList? && data.fields["data"].items != [])
                           || (data.JList? && data.items != [])
  {
    match data
    case JObj(fields) =>
      if "data" in fields && fields["data"].JList? && fields["data"].items != [] then fields["data"].items[0] else JNull
    case JList(items) => if items != [] then items[0] else JNull
    case _ => JNull
  }

  /** `id or pub_time or title`: the first truthy of the three, else the title
      value (`None` when absent). */
  function Fingerprint(fields: map<string, Json>): (r: Json)
    ensures var id := Get(fields, "id", JNull);
      var pubTime := Get(fields, "pub_time", JNull);
      var title := Get(fields, "title", JNull);
      && (r == id || r == pubTime || r == title)
      && (Truthy(r) <==> Truthy(id) || Truthy(pubTime) || Truthy(title))
      && (Truthy(id) ==> r == id)
      && (!Truthy(id) && Truthy(pubTime) ==> r == pubTime)
      && (!Truthy(id) && !Truthy(pubTime) ==> r == title)
  {
    var id := Get(fields, "id", JNull);
    if Truthy(id) then id
    else
      var pubTime := Get(fields, "pub_time", JNull);
      if Truthy(pubTime) then pubTime else Get(fields, "title", JNull)
  }

  // ---------------------------------------------------------------- one poll

  /** The item a poll returns (if any) and the stored fingerprint afterwards. */
  datatype NewsOutcome = NewsOutcome(news: Option<Json>, last: Json)

  /** `get_latest_news` with the key configured, for a response with HTTP `status`
      whose decoded body is `body` (`None` when decoding raised). An item that is
      not a dict makes `.get` raise, which the function catches. */
  function NewsStep(last: Json, status: int, body: Option<Json>): (r: NewsOutcome)
    ensures r.news.None? ==> r.last == last
    ensures r.news.Some? <==>
              && status == 200 && body.Some? && CodeAccepted(body.value)
              && LatestItem(body.value).JObj? && Truthy(LatestItem(body.value))
              && Fingerprint(LatestItem(body.value).fields) != last
    ensures r.news.Some? ==> r.news.value == LatestItem(body.value) && r.last == Fingerprint(r.news.value.fields)
  {
    if status != 200 || body.None? then NewsOutcome(None, last)
    else
      var data := body.value;
      if !CodeAccepted(data) then NewsOutcome(None, last)
      else
        var item := LatestItem(data);
        if !Truthy(item) || !item.JObj? then NewsOutcome(None, last)
        else
          var fingerprint := Fingerprint(item.fields);
          if fingerprint == last then NewsOutcome(None, last)
          else NewsOutcome(Some(item), fingerprint)
  }

  /** Polling twice with the same response returns nothing the second time and
      leaves the stored fingerprint where the first poll put it. */
  lemma NewsStepIdempotent(last: Json, status: int, body: Option<Json>)
    ensures var r := NewsStep(last, status, body);
      NewsStep(r.last, status, body) == NewsOutcome(None, r.last)
  {
  }

  /** An item whose id is the stored fingerprint is skipped. */
  lemma DuplicateSkipped(id: string, title: string)
    requires id != ""
    ensures var item := JObj(map["id" := JStr(id), "title" := JStr(title)]);
      NewsStep(JStr(id), 200, Some(JList([item]))) == NewsOutcome(None, JStr(id))
  {
    var fields := map["id" := JStr(id), "title" := JStr(title)];
    assert Get(fields, "id", JNull) == JStr(id);
    assert Fingerprint(fields) == JStr(id);
  }

  /** A first poll of a one-item list response returns the item and stores its id. */
  lemma FirstItemDelivered(id: string, title: string)
    requires id != ""
    ensures var item := JObj(map["id" := JStr(id), "title" := JStr(title)]);
      NewsStep(JNull, 200, Some(JList([item]))) == NewsOutcome(Some(item), JStr(id))
  {
    var fields := map["id" := JStr(id), "title" := JStr(title)];
    assert "id" in fields;
    assert Truthy(JObj(fields));
    assert Fingerprint(fields) == JStr(id);
  }

  // ---------------------------------------------------------------- successive polls

  /** A response as a poll sees it: HTTP status and decoded body. */
  datatype Response = Response(status: int, body: Option<Json>)

  /** The items a run of polls delivers, and the stored fingerprint after them. */
  datatype PollLog = PollLog(delivered: seq<Json>, last: Json)

  function Polls(last: Json, rs: seq<Response>): (r: PollLog)
    ensures |r.delivered| <= |rs|
    ensures forall i :: 0 <= i < |r.delivered| ==> r.delivered[i].JObj?
    decreases |rs|
  {
    if rs == [] then PollLog([], last)
    else
      var before := Polls(last, rs[..|rs| - 1]);
      var step := NewsStep(before.last, rs[|rs| - 1].status, rs[|rs| - 1].body);
      match step.news
      case None => PollLog(before.delivered, before.last)
      case Some(item) => PollLog(before.delivered + [item], step.last)
  }

  /** Across any run of polls, the stored fingerprint is that of the last item
      delivered, and no two items delivered one after the other share a
      fingerprint. */
  lemma {:induction false} PollsNoBackToBackRepeat(last: Json, rs: seq<Response>)
    ensures var r := Polls(last, rs);
      && (r.delivered != [] ==> r.last == Fingerprint(r.delivered[|r.delivered| - 1].fields))
      && (r.delivered == [] ==> r.last == last)
      && forall i :: 0 <= i < |r.delivered| - 1 ==>
           Fingerprint(r.delivered[i].fields) != Fingerprint(r.delivered[i + 1].fields)
    decreases |rs|
  {
    if rs != [] {
      var before := Polls(last, rs[..|rs| - 1]);
      PollsNoBackToBackRepeat(last, rs[..|rs| - 1]);
      var step := NewsStep(before.last, rs[|rs| - 1].status, rs[|rs| - 1].body);
      if step.news.Some? {
        var d := before.delivered + [step.news.value];
        forall i | 0 <= i < |d| - 1
          ensures Fingerprint(d[i].fields) != Fingerprint(d[i + 1].fields)
        {
          if i + 1 < |before.delivered| {
            assert d[i] == before.delivered[i] && d[i + 1] == before.delivered[i + 1];
          }
        }
      }
    }
  }

  // ---------------------------------------------------------------- the state

  /** The poller's state: the fingerprint of the last item delivered
      (`last_news_fingerprint`, loaded at start-up). */
  class NewsFeed {
    var lastFingerprint: Json

    constructor (stored: Json)
      ensures lastFingerprint == stored
    {
      lastFingerprint := stored;
    }

    /** `get_latest_news`: `None` without an API key; otherwise one poll of the
        given response, recording the fingerprint of a new item. */
    method GetLatestNews(hasApiKey: bool, status: int, body: Option<Json>) returns (news: Option<Json>)
      modifies this
      ensures NewsOutcome(news, lastFingerprint) ==
                (if hasApiKey then NewsStep(old(lastFingerprint), status, body) else NewsOutcome(None, old(lastFingerprint)))
    {
      news := None;
      if !hasApiKey || status != 200 || body.None? {
        return;
      }
      var data := body.value;
      if data.JObj? && !PyEqInt(Get(data.fields, "code", JNull), 0) && !PyEqInt(Get(data.fields, "code", JNum(0)), 200) {
        return;
      }
      var latest := JNull;
      if data.JObj? && "data" in data.fields {
        var contentList := data.fields["data"];
        if contentList.JList? && |contentList.items| > 0 {
          latest := contentList.items[0];
        }
      } else if data.JList? && |data.items| > 0 {
        latest := data.items[0];
      }
      if !Truthy(latest) || !latest.JObj? {
        return;
      }
      var current := Fingerprint(latest.fields);
      if current == lastFingerprint {
        return;
      }
      lastFingerprint := current;
      news := Some(latest);
    }
  }

  // ---------------------------------------------------------------- the message

  const NoTitle := "无标题"
  const NoSummary := "暂无摘要"
  const Header := "<b>📰 Mlion 快讯</b>\n\n"

  /** What `format_message` gives: nothing for a falsy item, the message, or the
      `AttributeError` a truthy non-dict item raises. */
  datatype Formatted = NoMessage | Message(text: string) | Raised

  /** `str(j)` inside an f-string: a string is itself; other values go through
      `show`, Python's rendering of them. */
  function Str(j: Json, show: Json -> string): (r: string)
    ensures j.JStr? ==> r == j.s
  {
    if j.JStr? then j.s else show(j)
  }

  /** The "#tag" items of a tag list. */
  function HashTags(items: seq<Json>, show: Json -> string): (r: seq<string>)
    ensures |r| == |items|
    ensures forall i :: 0 <= i < |items| ==> r[i] == "#" + Str(items[i], show)
  {
    seq(|items|, i requires 0 <= i < |items| => "#" + Str(items[i], show))
  }

  /** The tags field: a string verbatim, a list as space-separated "#tag" items,
      anything else as the empty string. */
  function TagsText(tags: Json, show: Json -> string): (r: string)
    ensures tags.JStr? ==> r == tags.s
    ensures !tags.JStr? && !tags.JList? ==> r == ""
    ensures tags.JList? && tags.items == [] ==> r == ""
  {
    match tags
    case JStr(s) => s
    case JList(items) => Join(HashTags(items, show), ' ')
    case _ => ""
  }

  /** A tag list whose rendered tags hold no space splits back into its "#tag"
      items: one item per tag, in order. */
  lemma TagsSplitBack(items: seq<Json>, show: Json -> string)
    requires items != []
    requires forall i :: 0 <= i < |items| ==> ' ' !in Str(items[i], show)
    ensures Split(TagsText(JList(items), show), ' ') == HashTags(items, show)
  {
    var tags := HashTags(items, show);
    forall i | 0 <= i < |tags| ensures ' ' !in tags[i] {
      assert tags[i] == "#" + Str(items[i], show);
    }
    SplitJoin(tags, ' ');
  }

  /** The publication time: a number (or bool) is an epoch second that `stamp`
      renders, `None` when the conversion raised and the value is kept. */
  function TimeText(time: Json, show: Json -> string, stamp: int -> Option<string>): (r: string)
    ensures !time.JNum? && !time.JBool? ==> r == Str(time, show)
  {
    var epoch := match time
      case JNum(n) => Some(n)
      case JBool(b) => Some(if b then 1 else 0)
      case _ => None;
    if epoch.Some? && stamp(epoch.value).Some? then stamp(epoch.value).value else Str(time, show)
  }

  function Anchor(link: string): string {
    "<a href='" + (link + "'>🔗 查看详情</a>")
  }

  /** The f-string layout up to the summary. */
  function BeforeContent(title: string, time: string, tags: string): string {
    Header + ("<b>• " + (title + ("</b>\n\n" + ("🗓 " + (time + (" | " + (tags + "\n\n")))))))
  }

  /** What follows the summary: the blank line, then the anchor when there is a link. */
  function AfterContent(link: Option<string>): string {
    if link.Some? then "\n\n" + Anchor(link.value) else "\n\n"
  }

  /** The f-string layout, with the anchor appended when there is a link. */
  function MessageText(title: string, time: string, tags: string, content: string, link: Option<string>): string {
    BeforeContent(title, time, tags) + (content + AfterContent(link))
  }

  /** `format_message(news)`, rendering non-string values with `show` and epoch
      times with `stamp`. */
  function FormatMessage(news: Json, show: Json -> string, stamp: int -> Option<string>): (r: Formatted)
    ensures r.NoMessage? <==> !Truthy(news)
    ensures r.Raised? <==> Truthy(news) && !news.JObj?
  {
    if !Truthy(news) then NoMessage
    else if !news.JObj? then Raised
    else
      var f := news.fields;
      var title := Get(f, "title", JStr(NoTitle));
      var content := Get(f, "content", JStr(NoSummary));
      var time := Get(f, "pub_time", JStr(""));
      var tags := Get(f, "tags", JList([]));
      var link := Get(f, "url", JStr(""));
      Message(MessageText(Str(title, show), TimeText(time, show, stamp), TagsText(tags, show), Str(content, show),
                          if Truthy(link) then Some(Str(link, show)) else None))
  }

  lemma TitleShown(title: string, time: string, tags: string)
    ensures Contains(BeforeContent(title, time, tags), title)
  {
    var rest := "</b>\n\n" + ("🗓 " + (time + (" | " + (tags + "\n\n"))));
    ContainsStart(title, rest);
    ContainsRight("<b>• ", title + rest, title);
    ContainsRight(Header, "<b>• " + (title + rest), title);
  }

  lemma LinkShown(content: string, link: string)
    ensures Contains(content + AfterContent(Some(link)), link)
    ensures EndsWith(content + AfterContent(Some(link)), Anchor(link))
  {
    var close := "'>🔗 查看详情</a>";
    ContainsStart(link, close);
    ContainsRight("<a href='", link + close, link);
    ContainsRight("\n\n", Anchor(link), link);
    ContainsRight(content, AfterContent(Some(link)), link);
    EndsWithSelf(Anchor(link));
    EndsWithAppend("\n\n", Anchor(link), Anchor(link));
    EndsWithAppend(content, AfterContent(Some(link)), Anchor(link));
  }

  /** The title and the summary both appear in the message, and so does the link
      when there is one; the message ends with the link's anchor when there is a
      link, and with the summary and a blank line otherwise. */
  lemma MessageShape(title: string, time: string, tags: string, content: string, link: Option<string>)
    ensures var text := MessageText(title, time, tags, content, link);
      && Contains(text, title)
      && Contains(text, content)
      && (link.Some? ==> Contains(text, link.value) && EndsWith(text, Anchor(link.value)))
      && (link.None? ==> EndsWith(text, content + "\n\n"))
  {
    var before := BeforeContent(title, time, tags);
    var after := content + AfterContent(link);
    TitleShown(title, time, tags);
    ContainsLeft(before, after, title);
    ContainsStart(content, AfterContent(link));
    ContainsRight(before, after, content);
    if link.Some? {
      LinkShown(content, link.value);
      ContainsRight(before, after, link.value);
      EndsWithAppend(before, after, Anchor(link.value));
    } else {
      EndsWithSelf(after);
      EndsWithAppend(before, after, content + "\n\n");
    }
  }

  /** An item without a title or a summary shows the placeholders. */
  lemma DefaultsShown(fields: map<string, Json>, show: Json -> string, stamp: int -> Option<string>)
    requires fields != map[]
    requires "title" !in fields && "content" !in fields
    ensures var r := FormatMessage(JObj(fields), show, stamp);
      r.Message? && Contains(r.text, NoTitle) && Contains(r.text, NoSummary)
  {
    var f := fields;
    var time := Get(f, "pub_time", JStr(""));
    var tags := Get(f, "tags", JList([]));
    var link := Get(f, "url", JStr(""));
    MessageShape(NoTitle, TimeText(time, show, stamp), TagsText(tags, show), NoSummary,
                 if Truthy(link) then Some(Str(link, show)) else None);
  }

  /** A dict item's own string title, summary and url appear in its message, and
      the message ends with the anchor exactly when the url is non-empty. */
  lemma FieldsShown(fields: map<string, Json>, title: string, content: string, url: string,
                    show: Json -> string, stamp: int -> Option<string>)
    requires Get(fields, "title", JNull) == JStr(title) && Get(fields, "content", JNull) == JStr(content)
    requires Get(fields, "url", JNull) == JStr(url)
    ensures var r := FormatMessage(JObj(fields), show, stamp);
      && r.Message? && Contains(r.text, title) && Contains(r.text, content)
      && (url != "" ==> Contains(r.text, url) && EndsWith(r.text, Anchor(url)))
      && (url == "" ==> EndsWith(r.text, content + "\n\n"))
  {
    assert "title" in fields;
    var f := fields;
    var time := Get(f, "pub_time", JStr(""));
    var tags := Get(f, "tags", JList([]));
    var link := if url != "" then Some(url) else None;
    MessageShape(title, TimeText(time, show, stamp), TagsText(tags, show), content, link);
  }
}
