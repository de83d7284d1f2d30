/** The Lambda entry point (lambda_function.py): checks a batch of URLs against
    the website table, collects the sites that changed and publishes one digest
    of them. The table, the environment, the probes and the clock are inputs. */
module Handler {
  import opened PyValues
  import opened Site

  /** An integer environment variable as `int(os.environ[name])` sees it. */
  datatype EnvInt = Unset | NotAnInt | IntValue(n: int)

  /** The environment variables the core reads. */
  datatype Env = Env(responseLimit: EnvInt, snsTopic: Option<string>, statusPageUrl: Option<string>)

  /** What the network and the clock do when one URL is checked. */
  datatype ProbeRun = ProbeRun(probe: Probe, changeTime: DateTime, checkTime: DateTime)

  /** One SNS publish call. */
  datatype Notification = Notification(topicArn: string, subject: string, message: string)

  datatype LambdaResponse = LambdaResponse(statusCode: int, body: string)

  /** How processing one URL ended: the exception logged for it, or the
      record written to the table. */
  datatype UrlOutcome = Failed(url: string, error: Exception) | Processed(url: string, site: Record)

  /** The handler as written rebuilds a WebSite from the object check_website
      returns; the fixed handler uses that object directly. */
  datatype Variant = AsWritten | Fixed

  /** The state the URL loop carries: the table, changed_sites, and the per-URL outcomes. */
  datatype Batch = Batch(items: map<string, Item>, changed: seq<Record>, trace: seq<UrlOutcome>)

  datatype PublishResult = PublishResult(raised: Option<Exception>, sent: Option<Notification>)

  datatype HandlerResult = HandlerResult(
    items: map<string, Item>, response: LambdaResponse, sent: Option<Notification>, trace: seq<UrlOutcome>)

  const Processed200 := LambdaResponse(200, "\"Website processed\"")
  const Error500 := LambdaResponse(500, "\"Error scanning DynamoDB\"")
  const Subject := "Notification of Website Status Change"
  const DigestHeader := "The following websites are reporting a status change:\n\n"

  function DigestFooter(statusUrl: string): string {
    "\nYou can view the full website status here: " + statusUrl
  }

  /** The digest line of one changed site. */
  function DigestLine(url: Value, status: Value, reason: Value): string {
    Concat([PyStr(url), ": status: ", PyStr(status), " - ", PyStr(reason), "\n"])
  }

  /** The digest lines of the changed sites, in list order. */
  function DigestLines(rows: seq<Record>): (lines: seq<string>)
    ensures |lines| == |rows|
  {
    if rows == [] then []
    else
      var last := rows[|rows| - 1];
      DigestLines(rows[..|rows| - 1]) + [DigestLine(last.url, last.httpStatus, last.httpReason)]
  }

  function Concat(lines: seq<string>): string {
    if lines == [] then "" else Concat(lines[..|lines| - 1]) + lines[|lines| - 1]
  }

  /** The message publish_changes sends for the changed sites. */
  function Digest(rows: seq<Record>, statusUrl: string): string {
    DigestHeader + Concat(DigestLines(rows)) + DigestFooter(statusUrl)
  }

  /** `topic_arn.split(':')[-1]`: the longest suffix without a colon. */
  function TopicName(topicArn: string): (name: string)
    ensures ':' !in name
    ensures |name| <= |topicArn| && topicArn[|topicArn| - |name|..] == name
    ensures |name| == |topicArn| || topicArn[|topicArn| - |name| - 1] == ':'
  {
    if |topicArn| == 0 || topicArn[|topicArn| - 1] == ':' then ""
    else TopicName(topicArn[..|topicArn| - 1]) + [topicArn[|topicArn| - 1]]
  }

  /** The name of the topic `arn:aws:sns:<region>:<account>:<name>` is `<name>`. */
  lemma TopicNameOfArn(prefix: string, name: string)
    requires ':' !in name
    ensures TopicName(prefix + ":" + name) == name
  {
    var s := prefix + ":" + name;
    var r := TopicName(s);
    assert s[|s| - |name|..] == name;
    assert s[|prefix|] == ':';
    assert |r| == |name|;
  }

  /** `line` occurs in `msg` at offset `off`. */
  predicate OccursAt(msg: string, off: int, line: string) {
    0 <= off && off + |line| <= |msg| && msg[off..off + |line|] == line
  }

  /** A slice inside the left operand of a concatenation. */
  lemma SliceOfLeft(a: string, b: string, off: int, len: int)
    requires 0 <= off && 0 <= len && off + len <= |a|
    ensures (a + b)[off..off + len] == a[off..off + len]
  {
  }

  /** Line i of a concatenation sits right after lines 0..i-1. */
  lemma {:induction false} ConcatLineAt(lines: seq<string>, i: int)
    requires 0 <= i < |lines|
    ensures var off := |Concat(lines[..i])|;
      off + |lines[i]| <= |Concat(lines)| && Concat(lines)[off..off + |lines[i]|] == lines[i]
  {
    var n := |lines|;
    var front := Concat(lines[..n - 1]);
    assert Concat(lines) == front + lines[n - 1];
    if i < n - 1 {
      ConcatLineAt(lines[..n - 1], i);
      assert lines[..n - 1][..i] == lines[..i];
      SliceOfLeft(front, lines[n - 1], |Concat(lines[..i])|, |lines[i]|);
    } else {
      assert lines[..n - 1] == lines[..i];
      assert (front + lines[n - 1])[|front|..] == lines[n - 1];
    }
  }

  /** In a message made of a header, lines and a footer, line i sits right
      after the header and lines 0..i-1. */
  lemma FramedLineAt(header: string, lines: seq<string>, footer: string, i: int)
    requires 0 <= i < |lines|
    ensures OccursAt(header + Concat(lines) + footer, |header| + |Concat(lines[..i])|, lines[i])
  {
    var body := Concat(lines);
    var off := |Concat(lines[..i])|;
    ConcatLineAt(lines, i);
    SliceOfLeft(body, footer, off, |lines[i]|);
    assert (header + body + footer)[|header| + off..|header| + off + |lines[i]|]
        == (body + footer)[off..off + |lines[i]|];
  }

  /** The i-th digest line is the line of the i-th site. */
  lemma {:induction false} DigestLineOfSite(rows: seq<Record>, i: int)
    requires 0 <= i < |rows|
    ensures DigestLines(rows)[i] == DigestLine(rows[i].url, rows[i].httpStatus, rows[i].httpReason)
    ensures DigestLines(rows)[..i] == DigestLines(rows[..i])
  {
    var n := |rows|;
    if i < n - 1 {
      DigestLineOfSite(rows[..n - 1], i);
      assert rows[..n - 1][..i] == rows[..i];
    } else {
      assert rows[..n - 1] == rows[..i];
    }
  }

  /** A message made of a header, a body and a footer starts with the header
      and ends with the footer. */
  lemma FramedEnds(header: string, body: string, footer: string)
    ensures OccursAt(header + body + footer, 0, header)
    ensures OccursAt(header + body + footer, |header + body + footer| - |footer|, footer)
  {
    var msg := header + body + footer;
    assert msg[..|header|] == header;
    assert msg[|msg| - |footer|..] == footer;
  }

  /** The digest starts with the fixed header and ends with the footer naming
      the status page. */
  lemma DigestFraming(rows: seq<Record>, statusUrl: string)
    ensures OccursAt(Digest(rows, statusUrl), 0, DigestHeader)
    ensures OccursAt(Digest(rows, statusUrl), |Digest(rows, statusUrl)| - |DigestFooter(statusUrl)|, DigestFooter(statusUrl))
  {
    FramedEnds(DigestHeader, Concat(DigestLines(rows)), DigestFooter(statusUrl));
  }

  /** Between header and footer the digest holds one line per site, in list
      order: site i's line comes right after the lines of sites 0..i-1. */
  lemma DigestListsSitesInOrder(rows: seq<Record>, statusUrl: string)
    ensures forall i :: 0 <= i < |rows| ==>
      OccursAt(Digest(rows, statusUrl), |DigestHeader| + |Concat(DigestLines(rows[..i]))|,
               DigestLine(rows[i].url, rows[i].httpStatus, rows[i].httpReason))
  {
    forall i | 0 <= i < |rows|
      ensures OccursAt(Digest(rows, statusUrl), |DigestHeader| + |Concat(DigestLines(rows[..i]))|,
                       DigestLine(rows[i].url, rows[i].httpStatus, rows[i].httpReason))
    {
      FramedLineAt(DigestHeader, DigestLines(rows), DigestFooter(statusUrl), i);
      DigestLineOfSite(rows, i);
    }
  }

  /** The attribute values of a list of WebSite objects. */
  function Snapshots(sites: seq<WebSite>): (rows: seq<Record>)
    reads sites
    ensures |rows| == |sites|
  {
    if sites == [] then [] else Snapshots(sites[..|sites| - 1]) + [sites[|sites| - 1].Snapshot()]
  }

  /** publish_changes, on the values of the changed sites. */
  function Publish(changed: seq<Record>, env: Env, publishOk: bool): PublishResult {
    if env.snsTopic.None? then PublishResult(Some(KeyError("SNS_TOPIC")), None)
    else if env.statusPageUrl.None? then PublishResult(Some(KeyError("STATUS_PAGE_URL")), None)
    else if |changed| > 0 && publishOk
    then PublishResult(None, Some(Notification(env.snsTopic.value, Subject, Digest(changed, env.statusPageUrl.value))))
    else PublishResult(None, None)
  }

  /** Appending site i's line to the message built from sites 0..i-1 gives the
      message built from sites 0..i. */
  lemma DigestStep(sites: seq<WebSite>, i: int, msg: string)
    requires 0 <= i < |sites|
    requires msg == DigestHeader + Concat(DigestLines(Snapshots(sites[..i])))
    ensures msg + DigestLine(sites[i].url, sites[i].httpStatus, sites[i].httpReason)
         == DigestHeader + Concat(DigestLines(Snapshots(sites[..i + 1])))
  {
    var line := DigestLine(sites[i].url, sites[i].httpStatus, sites[i].httpReason);
    var lines := DigestLines(Snapshots(sites[..i]));
    assert sites[..i + 1][..i] == sites[..i];
    var rows := Snapshots(sites[..i]) + [sites[i].Snapshot()];
    assert Snapshots(sites[..i + 1]) == rows;
    assert rows[..i] == Snapshots(sites[..i]);
    assert DigestLines(rows) == lines + [line];
    ConcatSnoc(lines, line);
  }

  lemma ConcatSnoc(lines: seq<string>, line: string)
    ensures Concat(lines + [line]) == Concat(lines) + line
  {
    assert (lines + [line])[..|lines|] == lines;
  }

  /** Builds the digest message line by line, as the loop in publish_changes does. */
  method BuildDigest(sites: seq<WebSite>, statusUrl: string) returns (msg: string)
    ensures msg == Digest(Snapshots(sites), statusUrl)
  {
    msg := DigestHeader;
    var i := 0;
    while i < |sites|
      invariant 0 <= i <= |sites|
      invariant msg == DigestHeader + Concat(DigestLines(Snapshots(sites[..i])))
    {
      var site := sites[i];
      DigestStep(sites, i, msg);
      msg := msg + DigestLine(site.url, site.httpStatus, site.httpReason);
      i := i + 1;
    }
    assert sites[..i] == sites;
    msg := msg + DigestFooter(statusUrl);
  }

  /** publish_changes: reads the topic and the status page URL (a missing one
      raises KeyError out of it); when some site changed, builds the digest and
      publishes it, swallowing a failed publish. */
  method PublishChanges(changedSites: seq<WebSite>, env: Env, publishOk: bool)
    returns (raised: Option<Exception>, sent: Option<Notification>)
    ensures PublishResult(raised, sent) == Publish(Snapshots(changedSites), env, publishOk)
  {
    if env.snsTopic.None? {
      return Some(KeyError("SNS_TOPIC")), None;
    }
    if env.statusPageUrl.None? {
      return Some(KeyError("STATUS_PAGE_URL")), None;
    }
    var topicArn := env.snsTopic.value;
    var statusUrl := env.statusPageUrl.value;
    var topicName := TopicName(topicArn);  // named only in log messages
    raised, sent := None, None;
    if |changedSites| > 0 {
      var msg := BuildDigest(changedSites, statusUrl);
      if publishOk {
        sent := Some(Notification(topicArn, Subject, msg));
      }
    }
  }

  /** No notification is attempted when no site changed. */
  lemma NothingSentWithoutChanges(env: Env, publishOk: bool)
    ensures Publish([], env, publishOk).sent == None
  {
  }

  /** A failed publish is swallowed; only a missing environment variable raises. */
  lemma PublishRaisesOnlyOnMissingEnv(changed: seq<Record>, env: Env, publishOk: bool)
    ensures Publish(changed, env, publishOk).raised.Some? <==> env.snsTopic.None? || env.statusPageUrl.None?
    ensures Publish(changed, env, publishOk).sent.Some? <==>
      env.snsTopic.Some? && env.statusPageUrl.Some? && |changed| > 0 && publishOk
  {
  }

  /** The DynamoDB table: items keyed by their "url" attribute. */
  class Table {
    var items: map<string, Item>

    predicate Valid()
      reads this
    {
      forall k :: k in items ==> "url" in items[k] && items[k]["url"] == VStr(k)
    }

    /** `get_item(Key={'url': url})['Item']`; None when the response has no item. */
    method GetItem(url: string) returns (item: Option<Item>)
      requires Valid()
      ensures item.Some? <==> url in items
      ensures item.Some? ==> item.value == items[url] && Get(item.value, "url", VNone) == VStr(url)
    {
      if url in items {
        item := Some(items[url]);
      } else {
        item := None;
      }
    }

    /** `put_item(Item=item)`: stores the item under its "url" attribute. */
    method PutItem(item: Item)
      requires Valid()
      requires "url" in item && item["url"].VStr?
      modifies this
      ensures Valid()
      ensures items == old(items)[item["url"].s := item]
    {
      items := items[item["url"].s := item];
    }
  }

  function LimitOf(responseLimit: EnvInt): Option<int>
    requires !responseLimit.Unset?
  {
    if responseLimit.IntValue? then Some(responseLimit.n) else None
  }

  /** How the inner try block ends for `url`; `limit` is `int(response_limit)`,
      None when int() raises. */
  function UrlStep(items: map<string, Item>, url: string, limit: Option<int>, run: ProbeRun, variant: Variant): UrlOutcome {
    if url !in items then Failed(url, KeyError("Item"))
    else if limit.None? then Failed(url, ValueError)
    else
      match Checked(Construct(items[url]), run.probe, limit, run.changeTime, run.checkTime)
      case Err(e) => Failed(url, e)
      case Ok(site) => if variant.AsWritten? then Failed(url, AttributeError("get")) else Processed(url, site)
  }

  /** One iteration of the URL loop: a processed site is written to the table
      and, when it changed, appended to changed_sites. */
  function Step(b: Batch, url: string, limit: Option<int>, run: ProbeRun, variant: Variant): Batch {
    var outcome := UrlStep(b.items, url, limit, run, variant);
    match outcome
    case Failed(_, _) => b.(trace := b.trace + [outcome])
    case Processed(_, site) =>
      b.(items := b.items[url := AttrDict(site)],
         changed := if site.isChanged then b.changed + [site] else b.changed,
         trace := b.trace + [outcome])
  }

  /** One step's effect on the table, changed_sites and the trace, in terms of
      the URL's outcome. */
  lemma StepOf(b: Batch, url: string, limit: Option<int>, run: ProbeRun, variant: Variant, o: UrlOutcome)
    requires o == UrlStep(b.items, url, limit, run, variant)
    ensures Step(b, url, limit, run, variant) ==
      Batch(if o.Processed? then b.items[url := AttrDict(o.site)] else b.items,
            if o.Processed? && o.site.isChanged then b.changed + [o.site] else b.changed,
            b.trace + [o])
  {
  }

  /** The URL loop over `urls`, with `runs[i]` what the network and clock do for `urls[i]`. */
  function Run(urls: seq<string>, runs: seq<ProbeRun>, start: Batch, limit: Option<int>, variant: Variant): Batch
    requires |runs| == |urls|
  {
    if urls == [] then start
    else
      var n := |urls| - 1;
      Step(Run(urls[..n], runs[..n], start, limit, variant), urls[n], limit, runs[n], variant)
  }

  /** lambda_handler: the response, the notification sent, the per-URL outcomes
      and the table afterwards. */
  function Handle(urls: Option<seq<string>>, items: map<string, Item>, env: Env, runs: seq<ProbeRun>,
                  publishOk: bool, variant: Variant): HandlerResult
    requires urls.Some? ==> |runs| == |urls.value|
  {
    if env.responseLimit.Unset? || urls.None? then HandlerResult(items, Error500, None, [])
    else
      var b := Run(urls.value, runs, Batch(items, [], []), LimitOf(env.responseLimit), variant);
      var p := Publish(b.changed, env, publishOk);
      HandlerResult(b.items, if p.raised.Some? then Error500 else Processed200, p.sent, b.trace)
  }

  /** The inner try block for one URL: fetch the item, build a WebSite, check
      it, and (fixed variant) store the result. Returns the site to append to
      changed_sites, if any, and how the block ended. */
  method ProcessUrl(table: Table, url: string, limit: Option<int>, run: ProbeRun, variant: Variant)
    returns (changedSite: Option<WebSite>, outcome: UrlOutcome)
    requires table.Valid()
    modifies table
    ensures table.Valid()
    ensures outcome == UrlStep(old(table.items), url, limit, run, variant)
    ensures table.items == if outcome.Processed? then old(table.items)[url := AttrDict(outcome.site)] else old(table.items)
    ensures changedSite.Some? <==> outcome.Processed? && outcome.site.isChanged
    ensures changedSite.Some? ==> fresh(changedSite.value) && changedSite.value.Snapshot() == outcome.site
  {
    changedSite := None;
    var item := table.GetItem(url);
    if item.None? {
      return None, Failed(url, KeyError("Item"));
    }
    var webSite := new WebSite(item.value);
    if limit.None? {
      return None, Failed(url, ValueError);
    }
    ghost var prev := Construct(item.value);
    var checked := webSite.CheckWebsite(run.probe, limit, run.changeTime, run.checkTime);
    if checked.Err? {
      return None, Failed(url, checked.error);
    }
    if variant.AsWritten? {
      // WebSite(updated_site_dict) calls .get on a WebSite object
      return None, Failed(url, AttributeError("get"));
    }
    var updatedSite := checked.value;
    ghost var site := Checked(prev, run.probe, limit, run.changeTime, run.checkTime).value;
    assert updatedSite.Snapshot() == site;
    CheckRaisesOnlyOtherErrors(prev, run.probe, limit, run.changeTime, run.checkTime);
    CheckKeepsUrlAndStampsCheckTime(prev, run.probe, limit, run.changeTime, run.checkTime);
    AttrDictUrl(site);
    if updatedSite.isChanged {
      changedSite := Some(updatedSite);
    }
    table.PutItem(AttrDict(updatedSite.Snapshot()));
    outcome := Processed(url, updatedSite.Snapshot());
  }

  /** The loop over the first i + 1 URLs is the loop over the first i, then one step. */
  lemma RunSnoc(urls: seq<string>, runs: seq<ProbeRun>, i: int, start: Batch, limit: Option<int>, variant: Variant)
    requires |runs| == |urls| && 0 <= i < |urls|
    ensures Run(urls[..i + 1], runs[..i + 1], start, limit, variant)
         == Step(Run(urls[..i], runs[..i], start, limit, variant), urls[i], limit, runs[i], variant)
  {
    assert urls[..i + 1][..i] == urls[..i] && runs[..i + 1][..i] == runs[..i];
  }

  lemma SnapshotsSnoc(sites: seq<WebSite>, site: WebSite)
    ensures Snapshots(sites + [site]) == Snapshots(sites) + [site.Snapshot()]
  {
    assert (sites + [site])[..|sites|] == sites;
  }

  /** lambda_handler. A missing RESPONSE_LIMIT, a missing url list, or a missing
      SNS_TOPIC or STATUS_PAGE_URL gives 500; an exception for one URL is logged
      and the loop goes on with the next. */
  method LambdaHandler(urls: Option<seq<string>>, table: Table, env: Env, runs: seq<ProbeRun>,
                       publishOk: bool, variant: Variant)
    returns (response: LambdaResponse, sent: Option<Notification>, trace: seq<UrlOutcome>)
    requires table.Valid()
    requires urls.Some? ==> |runs| == |urls.value|
    modifies table
    ensures table.Valid()
    ensures Handle(urls, old(table.items), env, runs, publishOk, variant) == HandlerResult(table.items, response, sent, trace)
  {
    trace := [];
    if env.responseLimit.Unset? {
      return Error500, None, trace;  // os.environ['RESPONSE_LIMIT'] raises KeyError
    }
    if urls.None? {
      return Error500, None, trace;  // iterating over None raises TypeError
    }
    var us := urls.value;
    var limit := LimitOf(env.responseLimit);
    var changedSites: seq<WebSite> := [];
    var i := 0;
    while i < |us|
      invariant 0 <= i <= |us|
      invariant table.Valid()
      invariant Run(us[..i], runs[..i], Batch(old(table.items), [], []), limit, variant)
                == Batch(table.items, Snapshots(changedSites), trace)
    {
      RunSnoc(us, runs, i, Batch(old(table.items), [], []), limit, variant);
      ghost var before := Batch(table.items, Snapshots(changedSites), trace);
      var changedSite, outcome := ProcessUrl(table, us[i], limit, runs[i], variant);
      StepOf(before, us[i], limit, runs[i], variant, outcome);
      if changedSite.Some? {
        SnapshotsSnoc(changedSites, changedSite.value);
        changedSites := changedSites + [changedSite.value];
      }
      trace := trace + [outcome];
      i := i + 1;
    }
    assert us[..i] == us && runs[..i] == runs;
    var raised;
    raised, sent := PublishChanges(changedSites, env, publishOk);
    response := if raised.Some? then Error500 else Processed200;
  }

  // ----- properties of the URL loop -----

  /** The processed sites that report a change, in trace order. */
  function ChangedIn(trace: seq<UrlOutcome>): seq<Record> {
    if trace == [] then []
    else
      var o := trace[|trace| - 1];
      ChangedIn(trace[..|trace| - 1]) + (if o.Processed? && o.site.isChanged then [o.site] else [])
  }

  /** Some outcome in the trace stored a record for `url`. */
  predicate ProcessedIn(trace: seq<UrlOutcome>, url: string) {
    exists j :: 0 <= j < |trace| && trace[j].Processed? && trace[j].url == url
  }

  /** Every URL gets exactly one outcome, in list order: an exception for one
      URL does not stop the loop. */
  lemma {:induction false} EveryUrlHasOneOutcome(urls: seq<string>, runs: seq<ProbeRun>, start: Batch,
                                                 limit: Option<int>, variant: Variant)
    requires |runs| == |urls|
    ensures var b := Run(urls, runs, start, limit, variant);
      |b.trace| == |start.trace| + |urls| && b.trace[..|start.trace|] == start.trace &&
      forall j :: 0 <= j < |urls| ==> b.trace[|start.trace| + j].url == urls[j]
  {
    if urls != [] {
      var n := |urls| - 1;
      EveryUrlHasOneOutcome(urls[..n], runs[..n], start, limit, variant);
      var before := Run(urls[..n], runs[..n], start, limit, variant);
      assert Run(urls, runs, start, limit, variant).trace == before.trace + [UrlStep(before.items, urls[n], limit, runs[n], variant)];
    }
  }

  /** changed_sites is always the list of processed sites that report a change. */
  lemma {:induction false} RunCollectsChangedSites(urls: seq<string>, runs: seq<ProbeRun>, start: Batch,
                                                   limit: Option<int>, variant: Variant)
    requires |runs| == |urls|
    requires start.changed == ChangedIn(start.trace)
    ensures Run(urls, runs, start, limit, variant).changed == ChangedIn(Run(urls, runs, start, limit, variant).trace)
  {
    if urls != [] {
      var n := |urls| - 1;
      RunCollectsChangedSites(urls[..n], runs[..n], start, limit, variant);
      var before := Run(urls[..n], runs[..n], start, limit, variant);
      var o := UrlStep(before.items, urls[n], limit, runs[n], variant);
      assert (before.trace + [o])[..|before.trace|] == before.trace;
    }
  }

  /** The table keeps its keys, and an item changes only for a URL some
      outcome stored: one whose fetch, construction, check and storing all
      succeeded. */
  lemma {:induction false} StoreWrittenOnlyWhenProcessed(urls: seq<string>, runs: seq<ProbeRun>, start: Batch,
                                                         limit: Option<int>, variant: Variant, k: string)
    requires |runs| == |urls|
    ensures var b := Run(urls, runs, start, limit, variant);
      b.items.Keys == start.items.Keys &&
      (k in start.items && !ProcessedIn(b.trace, k) ==> b.items[k] == start.items[k])
  {
    if urls != [] {
      var n := |urls| - 1;
      StoreWrittenOnlyWhenProcessed(urls[..n], runs[..n], start, limit, variant, k);
      var before := Run(urls[..n], runs[..n], start, limit, variant);
      var o := UrlStep(before.items, urls[n], limit, runs[n], variant);
      var after := Run(urls, runs, start, limit, variant);
      assert after.trace == before.trace + [o];
      if ProcessedIn(before.trace, k) {
        var j :| 0 <= j < |before.trace| && before.trace[j].Processed? && before.trace[j].url == k;
        assert after.trace[j] == before.trace[j];
      }
      if o.Processed? && o.url == k {
        assert after.trace[|before.trace|] == o;
      }
    }
  }

  /** The URLs of a batch are pairwise distinct. */
  predicate DistinctUrls(urls: seq<string>) {
    forall a, b :: 0 <= a < b < |urls| ==> urls[a] != urls[b]
  }

  /** The trace from offset `s` on holds one outcome per URL of `urls`, and
      every processed one left its checked record in the table under its URL. */
  predicate StoresProcessed(urls: seq<string>, s: nat, b: Batch) {
    |b.trace| == s + |urls| &&
    forall j :: 0 <= j < |urls| && b.trace[s + j].Processed? ==>
      urls[j] in b.items && b.items[urls[j]] == AttrDict(b.trace[s + j].site)
  }

  /** One more step keeps StoresProcessed when its URL is new to the batch. */
  lemma StoresProcessedStep(urls: seq<string>, s: nat, before: Batch, o: UrlOutcome)
    requires |urls| > 0 && DistinctUrls(urls)
    requires StoresProcessed(urls[..|urls| - 1], s, before)
    ensures StoresProcessed(urls, s,
      Batch(if o.Processed? then before.items[urls[|urls| - 1] := AttrDict(o.site)] else before.items,
            before.changed, before.trace + [o]))
  {
    var n := |urls| - 1;
    var items := if o.Processed? then before.items[urls[n] := AttrDict(o.site)] else before.items;
    var trace := before.trace + [o];
    forall j | 0 <= j < |urls| && trace[s + j].Processed?
      ensures urls[j] in items && items[urls[j]] == AttrDict(trace[s + j].site)
    {
      if j < n {
        assert trace[s + j] == before.trace[s + j];
        assert urls[..n][j] == urls[j];
        assert urls[j] != urls[n];
      }
    }
  }

  /** For a batch of distinct URLs, every processed URL ends up in the table
      holding the attribute dictionary of the record its check produced. */
  lemma {:induction false} RunStoresProcessedSites(urls: seq<string>, runs: seq<ProbeRun>, start: Batch,
                                       limit: Option<int>, variant: Variant)
    requires |runs| == |urls|
    requires DistinctUrls(urls)
    ensures StoresProcessed(urls, |start.trace|, Run(urls, runs, start, limit, variant))
  {
    if urls != [] {
      var n := |urls| - 1;
      assert DistinctUrls(urls[..n]);
      RunStoresProcessedSites(urls[..n], runs[..n], start, limit, variant);
      var before := Run(urls[..n], runs[..n], start, limit, variant);
      var o := UrlStep(before.items, urls[n], limit, runs[n], variant);
      StepOf(before, urls[n], limit, runs[n], variant, o);
      StoresProcessedStep(urls, |start.trace|, before, o);
    }
  }

  /** The outcome of a URL depends on the table only through that URL's item. */
  lemma UrlStepReadsOwnItem(m1: map<string, Item>, m2: map<string, Item>, url: string, limit: Option<int>,
                            run: ProbeRun, variant: Variant)
    requires url in m1 <==> url in m2
    requires url in m1 ==> m1[url] == m2[url]
    ensures UrlStep(m1, url, limit, run, variant) == UrlStep(m2, url, limit, run, variant)
  {
    if url in m1 {
      assert m1[url] == m2[url];
    }
  }

  /** The trace of the first k URLs is the first part of the trace of all of them. */
  lemma {:induction false} RunTracePrefix(urls: seq<string>, runs: seq<ProbeRun>, start: Batch,
                                          limit: Option<int>, variant: Variant, k: int)
    requires |runs| == |urls| && 0 <= k <= |urls|
    ensures |Run(urls, runs, start, limit, variant).trace| == |start.trace| + |urls|
    ensures Run(urls, runs, start, limit, variant).trace[..|start.trace| + k]
         == Run(urls[..k], runs[..k], start, limit, variant).trace
  {
    EveryUrlHasOneOutcome(urls, runs, start, limit, variant);
    if k == |urls| {
      assert urls[..k] == urls && runs[..k] == runs;
    } else {
      var n := |urls| - 1;
      RunTracePrefix(urls[..n], runs[..n], start, limit, variant, k);
      var before := Run(urls[..n], runs[..n], start, limit, variant);
      var o := UrlStep(before.items, urls[n], limit, runs[n], variant);
      StepOf(before, urls[n], limit, runs[n], variant, o);
      assert (before.trace + [o])[..|start.trace| + k] == before.trace[..|start.trace| + k];
      assert urls[..n][..k] == urls[..k] && runs[..n][..k] == runs[..k];
    }
  }

  /** URL j's outcome is its own step, taken on the table the URLs before it left. */
  lemma {:induction false} OutcomeAt(urls: seq<string>, runs: seq<ProbeRun>, start: Batch, limit: Option<int>,
                                     variant: Variant, j: int)
    requires |runs| == |urls| && 0 <= j < |urls|
    ensures |Run(urls, runs, start, limit, variant).trace| == |start.trace| + |urls|
    ensures Run(urls, runs, start, limit, variant).trace[|start.trace| + j]
         == UrlStep(Run(urls[..j], runs[..j], start, limit, variant).items, urls[j], limit, runs[j], variant)
    decreases |urls|, 1
  {
    if j < |urls| - 1 {
      OutcomeBeforeLast(urls, runs, start, limit, variant, j);
    } else {
      OutcomeOfLast(urls, runs, start, limit, variant);
    }
  }

  /** The last URL's outcome is its step on the table the URLs before it left. */
  lemma OutcomeOfLast(urls: seq<string>, runs: seq<ProbeRun>, start: Batch, limit: Option<int>, variant: Variant)
    requires |runs| == |urls| && 0 < |urls|
    ensures |Run(urls, runs, start, limit, variant).trace| == |start.trace| + |urls|
    ensures var n := |urls| - 1;
      Run(urls, runs, start, limit, variant).trace[|start.trace| + n]
      == UrlStep(Run(urls[..n], runs[..n], start, limit, variant).items, urls[n], limit, runs[n], variant)
  {
    var n := |urls| - 1;
    var before := Run(urls[..n], runs[..n], start, limit, variant);
    var o := UrlStep(before.items, urls[n], limit, runs[n], variant);
    StepOf(before, urls[n], limit, runs[n], variant, o);
    EveryUrlHasOneOutcome(urls[..n], runs[..n], start, limit, variant);
    assert (before.trace + [o])[|start.trace| + n] == o;
  }

  /** An earlier URL's outcome is the one it had before the last URL ran. */
  lemma {:induction false} OutcomeBeforeLast(urls: seq<string>, runs: seq<ProbeRun>, start: Batch, limit: Option<int>,
                                             variant: Variant, j: int)
    requires |runs| == |urls| && 0 <= j < |urls| - 1
    ensures |Run(urls, runs, start, limit, variant).trace| == |start.trace| + |urls|
    ensures Run(urls, runs, start, limit, variant).trace[|start.trace| + j]
         == UrlStep(Run(urls[..j], runs[..j], start, limit, variant).items, urls[j], limit, runs[j], variant)
    decreases |urls|, 0
  {
    var n := |urls| - 1;
    RunTracePrefix(urls, runs, start, limit, variant, n);
    OutcomeAt(urls[..n], runs[..n], start, limit, variant, j);
    assert urls[..n][..j] == urls[..j] && runs[..n][..j] == runs[..j];
    var t := Run(urls, runs, start, limit, variant).trace;
    assert t[|start.trace| + j] == t[..|start.trace| + n][|start.trace| + j];
  }

  /** Failure isolation: in a batch of distinct URLs, URL j's outcome is
      exactly what its own step gives on the table as it was before the loop,
      whatever happened to the URLs before it. */
  lemma IsolatedAt(urls: seq<string>, runs: seq<ProbeRun>, items: map<string, Item>, limit: Option<int>,
                   variant: Variant, j: int)
    requires |runs| == |urls| && DistinctUrls(urls) && 0 <= j < |urls|
    ensures |Run(urls, runs, Batch(items, [], []), limit, variant).trace| == |urls|
    ensures Run(urls, runs, Batch(items, [], []), limit, variant).trace[j] == UrlStep(items, urls[j], limit, runs[j], variant)
  {
    var start := Batch(items, [], []);
    OutcomeAt(urls, runs, start, limit, variant, j);
    var before := Run(urls[..j], runs[..j], start, limit, variant);
    EveryUrlHasOneOutcome(urls[..j], runs[..j], start, limit, variant);
    StoreWrittenOnlyWhenProcessed(urls[..j], runs[..j], start, limit, variant, urls[j]);
    forall m | 0 <= m < |before.trace|
      ensures !(before.trace[m].Processed? && before.trace[m].url == urls[j])
    {
      assert before.trace[m].url == urls[..j][m] == urls[m];
    }
    assert !ProcessedIn(before.trace, urls[j]);
    UrlStepReadsOwnItem(before.items, items, urls[j], limit, runs[j], variant);
  }

  /** As written, the loop stores nothing and collects nothing: every URL
      ends in an exception (the rebuild of line 50 at the latest). */
  lemma {:induction false} AsWrittenNeverPersists(urls: seq<string>, runs: seq<ProbeRun>, start: Batch, limit: Option<int>)
    requires |runs| == |urls|
    ensures var b := Run(urls, runs, start, limit, AsWritten);
      b.items == start.items && b.changed == start.changed &&
      |b.trace| == |start.trace| + |urls| &&
      forall j :: |start.trace| <= j < |b.trace| ==> b.trace[j].Failed?
  {
    if urls != [] {
      var n := |urls| - 1;
      AsWrittenNeverPersists(urls[..n], runs[..n], start, limit);
      var before := Run(urls[..n], runs[..n], start, limit, AsWritten);
      assert Run(urls, runs, start, limit, AsWritten).trace
          == before.trace + [UrlStep(before.items, urls[n], limit, runs[n], AsWritten)];
    }
  }

  // ----- properties of lambda_handler -----

  /** 500 exactly when RESPONSE_LIMIT, the url list, SNS_TOPIC or
      STATUS_PAGE_URL is missing; 200 otherwise, whatever happened per URL and
      whether the publish succeeded. */
  lemma HandlerStatus(urls: Option<seq<string>>, items: map<string, Item>, env: Env, runs: seq<ProbeRun>,
                      publishOk: bool, variant: Variant)
    requires urls.Some? ==> |runs| == |urls.value|
    ensures Handle(urls, items, env, runs, publishOk, variant).response ==
      if env.responseLimit.Unset? || urls.None? || env.snsTopic.None? || env.statusPageUrl.None?
      then Error500 else Processed200
  {
  }

  /** Once the loop starts, every URL of the batch is tried, in order. */
  lemma HandlerTriesEveryUrl(urls: seq<string>, items: map<string, Item>, env: Env, runs: seq<ProbeRun>,
                             publishOk: bool, variant: Variant)
    requires |runs| == |urls|
    requires !env.responseLimit.Unset?
    ensures var h := Handle(Some(urls), items, env, runs, publishOk, variant);
      |h.trace| == |urls| && (forall j :: 0 <= j < |urls| ==> h.trace[j].url == urls[j]) &&
      (DistinctUrls(urls) ==>
         forall j :: 0 <= j < |urls| ==> h.trace[j] == UrlStep(items, urls[j], LimitOf(env.responseLimit), runs[j], variant))
  {
    var start := Batch(items, [], []);
    var limit := LimitOf(env.responseLimit);
    EveryUrlHasOneOutcome(urls, runs, start, limit, variant);
    if DistinctUrls(urls) {
      forall j | 0 <= j < |urls|
        ensures Run(urls, runs, start, limit, variant).trace[j] == UrlStep(items, urls[j], limit, runs[j], variant)
      {
        IsolatedAt(urls, runs, items, limit, variant, j);
      }
    }
  }

  /** lambda_handler as written never changes the table and never sends a
      notification. */
  lemma AsWrittenHandlerChangesNothing(urls: Option<seq<string>>, items: map<string, Item>, env: Env,
                                       runs: seq<ProbeRun>, publishOk: bool)
    requires urls.Some? ==> |runs| == |urls.value|
    ensures var h := Handle(urls, items, env, runs, publishOk, AsWritten);
      h.items == items && h.sent == None && forall j :: 0 <= j < |h.trace| ==> h.trace[j].Failed?
  {
    if !env.responseLimit.Unset? && urls.Some? {
      AsWrittenNeverPersists(urls.value, runs, Batch(items, [], []), LimitOf(env.responseLimit));
    }
  }

  /** A concrete batch: the site is in the table and went from 200 to 503,
      yet the handler as written leaves the table as it was and sends nothing. */
  lemma AsWrittenMissesStatusChange()
    ensures var item := map["url" := VStr("https://example.org"), "http_status" := VInt(200)];
      var env := Env(IntValue(5), Some("arn:aws:sns:eu-west-1:1:alerts"), Some("https://status.example.org"));
      var run := ProbeRun(HttpError(503, "Service Unavailable"), DateTime("t1"), DateTime("t2"));
      var h := Handle(Some(["https://example.org"]), map["https://example.org" := item], env, [run], true, AsWritten);
      h.items == map["https://example.org" := item] &&
      h.sent == None && h.trace == [Failed("https://example.org", AttributeError("get"))] &&
      Checked(Construct(item), run.probe, Some(5), run.changeTime, run.checkTime).value.isChanged
  {
  }

  /** Even if check_website returned its attribute dictionary, the rebuild of
      line 50 would clear is_changed: a site whose status went from 200 to 503
      reports the change, and the WebSite rebuilt from it does not. */
  lemma RebuildClearsReportedChange()
    ensures var prev := Construct(map["url" := VStr("https://example.org"), "http_status" := VInt(200)]);
      var updated := Checked(prev, HttpError(503, "Service Unavailable"), Some(5), DateTime("t1"), DateTime("t2")).value;
      updated.isChanged && !Construct(AttrDict(updated)).isChanged
  {
  }

  /** The fixed handler stores every processed site and sends one digest of
      exactly the processed sites that report a change, in URL order. */
  lemma FixedHandlerReportsChanges(urls: seq<string>, items: map<string, Item>, env: Env, runs: seq<ProbeRun>,
                                   publishOk: bool)
    requires |runs| == |urls|
    requires !env.responseLimit.Unset? && env.snsTopic.Some? && env.statusPageUrl.Some?
    ensures var h := Handle(Some(urls), items, env, runs, publishOk, Fixed);
      h.response == Processed200 &&
      h.sent == (if publishOk && ChangedIn(h.trace) != []
                 then Some(Notification(env.snsTopic.value, Subject, Digest(ChangedIn(h.trace), env.statusPageUrl.value)))
                 else None) &&
      |h.trace| == |urls| &&
      (DistinctUrls(urls) ==>
         (forall j :: 0 <= j < |urls| ==> h.trace[j] == UrlStep(items, urls[j], LimitOf(env.responseLimit), runs[j], Fixed)) &&
         forall j :: 0 <= j < |urls| && h.trace[j].Processed? ==>
           urls[j] in h.items && h.items[urls[j]] == AttrDict(h.trace[j].site))
  {
    var start := Batch(items, [], []);
    var limit := LimitOf(env.responseLimit);
    RunCollectsChangedSites(urls, runs, start, limit, Fixed);
    EveryUrlHasOneOutcome(urls, runs, start, limit, Fixed);
    if DistinctUrls(urls) {
      RunStoresProcessedSites(urls, runs, start, limit, Fixed);
      forall j | 0 <= j < |urls|
        ensures Run(urls, runs, start, limit, Fixed).trace[j] == UrlStep(items, urls[j], limit, runs[j], Fixed)
      {
        IsolatedAt(urls, runs, items, limit, Fixed, j);
      }
    }
  }
}
