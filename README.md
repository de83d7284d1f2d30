# CheckWebsiteLambda: a Dafny model

This project models the core of a small AWS Lambda that monitors websites.
The core has two parts:

- The `WebSite` record. It is built from a flat DynamoDB item, with defaults
  for missing attributes. Its `check_website` transition probes the URL once
  and returns a fresh record. The record carries the probe's status and reason,
  up/slow flags, a change flag and two timestamps.
- The handler. `lambda_handler` loops over a batch of URLs against the website
  table, isolating failures per URL and collecting the sites that changed.
  `publish_changes` builds one digest message and sends it to an SNS topic.

Modules:

- `values.dfy`, module `PyValues`: the Python values found in an item or in
  an object's attributes (`None`, bool, int, str). It also models the parts of
  Python the core relies on: `dict.get`, `==` (where `True == 1`) and
  `str()`.
- `website.dfy`, module `Site`: the `WebSite` class.
  - Its fields are the object's attributes.
  - `Record` is the class's value, read by `Snapshot()`.
  - `Construct` and `AttrDict` model the constructor and `__dict__`.
  - `Checked` is the value-level specification of `check_website`.
  - The methods `CheckWebsite`, `ApplyProbe`, `DetectChange` and the two
    setters are proved against these functions.
- `handler.dfy`, module `Handler`:
  - The DynamoDB table is a class `Table` over a `map`.
  - The URL loop (`LambdaHandler`, `ProcessUrl`) is proved against the
    functions `UrlStep`, `Step`, `Run` and `Handle`.
  - `publish_changes` is the method `PublishChanges`, with the digest loop in
    `BuildDigest`. Both are proved against `Publish` and `Digest`.

The outside world enters as data:

- The network call is a `Probe`: a response, an `HTTPError`, a `URLError`, or
  any other exception (which `check_website` does not catch).
- The clock: `check_website` stamps two times. The change time is read at
  WebSite.py:83, only when the status changed, and the check time at
  WebSite.py:86. They are two `DateTime` parameters, each carrying the text
  that `isoformat()` gives. The readings at WebSite.py:62 and WebSite.py:64
  only time the call; their rounded difference is `Probe.elapsedSecs`.
- Environment variables are an `Env` value. SNS success or failure is the
  flag `publishOk`, and the sent message is a returned `Notification`.

Points of the code's behaviour worth stating outright:

- Change detection compares only `http_status` (WebSite.py:82), so a site
  that only turns slow is not reported (`Site.SlownessAloneIsNoChange`).
- `check_website` does not validate the URL and returns a `WebSite` object
  (WebSite.py:88).
- On the `HTTPError` and `URLError` paths, `is_up` and `is_slow` keep their
  previous values and `elapsed_time` is absent.

## Model

| member | source | states |
|---|---|---|
| `Site.WebSite.constructor` | WebSite.py:12-20 | the new object's attributes are `Construct(site_obj)`: each present key's value, otherwise None or False, with `is_changed` False and no `elapsed_time` |
| `Site.ConstructDefaults` | WebSite.py:13-20 | a missing key gives None for url, http_status, http_reason, last_checked and last_changed, and False for is_up and is_slow |
| `Site.ConstructIgnoresTransient` | WebSite.py:12-20 | `is_changed` and `elapsed_time` keys in the input have no effect; a constructed site is never marked changed and has no elapsed time |
| `Site.ReloadKeepsPersistentFields` | WebSite.py:60 | building a WebSite from another's `__dict__` keeps every attribute except `is_changed` (reset) and `elapsed_time` (dropped) |
| `Site.WebSite.SetLastChanged` | WebSite.py:40-44 | stores None for None and the ISO text otherwise; no other attribute changes |
| `Site.WebSite.SetLastChecked` | WebSite.py:49-53 | stores None for None and the ISO text otherwise; no other attribute changes |
| `Site.WebSite.ApplyProbe` | WebSite.py:61-80 | the fields each probe outcome overwrites on the working copy, or the exception that escapes |
| `Site.WebSite.DetectChange` | WebSite.py:82-86 | on the probed copy: a status that differs (Python `!=`) from the previous one sets last_changed to the change time and is_changed; last_checked is always set to the check time; nothing else changes |
| `Site.WebSite.CheckWebsite` | WebSite.py:58-88 | returns a fresh WebSite whose attributes are `Checked(self, ...)`, or the uncaught exception; `self` is not modified |
| `Site.CheckRaisesOnlyOtherErrors` | WebSite.py:61-80 | check_website raises exactly when urlopen raises something other than HTTPError or URLError |
| `Site.CheckKeepsUrlAndStampsCheckTime` | WebSite.py:60-86 | the returned record keeps the URL and always has last_checked set to the check time |
| `Site.CheckAnswered` | WebSite.py:59-73 | on a response: status from the response; reason, or "OK" when empty; up; elapsed time set; slow iff elapsed > threshold (default 5) |
| `Site.CheckHttpError` | WebSite.py:75-77 | on HTTPError: status and reason from the error; is_up and is_slow as before; no elapsed time |
| `Site.CheckUrlError` | WebSite.py:78-80 | on URLError: status "N/A", reason `<urlopen error …>`; is_up and is_slow as before; no elapsed time |
| `Site.CheckChangeDetection` | WebSite.py:82-86 | is_changed iff the new status differs (Python `!=`) from the previous one; last_changed is then the change time, otherwise the previous value |
| `Site.SlownessAloneIsNoChange` | WebSite.py:70-84 | a concrete site that turns slow with an unchanged status is not reported and keeps last_changed |
| `Site.RecheckReportsNoChange` | WebSite.py:58-88 | checking the result again with the same probe outcome reports no change and keeps last_changed |
| `PyValues.PyEqIsEqualityOffBools` | WebSite.py:82 | the `!=` of line 82 is structural inequality unless a bool meets an int |
| `PyValues.DecimalDigits` | lambda_function.py:96 | `str()` of a number is a non-empty string of digits without a leading zero |
| `PyValues.DecimalRoundTrip` | lambda_function.py:96 | reading back the digits `str()` writes gives the number |
| `Handler.TopicName` | lambda_function.py:88 | `split(':')[-1]` is the longest colon-free suffix of the ARN |
| `Handler.TopicNameOfArn` | lambda_function.py:88 | the topic name of `prefix:name` is `name` when `name` has no colon |
| `Handler.BuildDigest` | lambda_function.py:94-98 | the `+=` loop builds exactly `Digest(changed sites, status_url)` |
| `Handler.DigestFraming` | lambda_function.py:94-98 | the digest starts with the fixed header and ends with the footer naming the status page |
| `Handler.DigestListsSitesInOrder` | lambda_function.py:94-98 | between header and footer, each site's `url: status: S - R` line comes right after the lines of the sites before it |
| `Handler.PublishChanges` | lambda_function.py:73-103 | raises only for a missing SNS_TOPIC or STATUS_PAGE_URL; sends the digest only when some site changed and the publish succeeds |
| `Handler.NothingSentWithoutChanges` | lambda_function.py:90 | no notification for an empty changed list |
| `Handler.PublishRaisesOnlyOnMissingEnv` | lambda_function.py:86-103 | a failed publish is swallowed; a notification goes out iff both variables are set, some site changed and the publish succeeds |
| `Handler.Table.GetItem` | lambda_function.py:46 | the stored item for the URL, or none (the `['Item']` KeyError) |
| `Handler.Table.PutItem` | lambda_function.py:55 | stores the item under its url attribute and keeps the table keyed by url |
| `Handler.ProcessUrl` | lambda_function.py:45-57 | one pass of the inner try block: its outcome is `UrlStep`, the table is written only for a processed site, and only a changed site is returned for changed_sites |
| `Handler.LambdaHandler` | lambda_function.py:13-70 | the response, notification, per-URL outcomes and final table are those of `Handle` |
| `Handler.EveryUrlHasOneOutcome` | lambda_function.py:44-57 | the loop appends exactly one outcome per URL, in list order, after the outcomes already there |
| `Handler.RunTracePrefix` | lambda_function.py:44-57 | the outcomes of the first k URLs are not revised by later URLs: they are the first part of the whole trace |
| `Handler.OutcomeAt` | lambda_function.py:44-57 | URL j's outcome is its own step (fetch, construct, check, rebuild) on the table the URLs before it left, whether or not they failed |
| `Handler.UrlStepReadsOwnItem` | lambda_function.py:46-50 | a URL's outcome depends on the table only through that URL's own item |
| `Handler.IsolatedAt` | lambda_function.py:44-57 | failure isolation: in a batch of distinct URLs, URL j's outcome is exactly its own step on the table as it was before the loop, whatever happened to the other URLs |
| `Handler.RunCollectsChangedSites` | lambda_function.py:52-53 | changed_sites is always the list of processed sites that report a change |
| `Handler.StoreWrittenOnlyWhenProcessed` | lambda_function.py:45-55 | the table keeps its keys; an item changes only for a URL whose fetch, construction, check and rebuild all succeeded |
| `Handler.RunStoresProcessedSites` | lambda_function.py:44-55 | for a batch of distinct URLs (`StoresProcessed`): the loop gives one outcome per URL, and every URL whose outcome is processed ends up in the table holding the attribute dictionary of its checked record |
| `Handler.AsWrittenNeverPersists` | lambda_function.py:44-57 | as written, the loop stores nothing, collects nothing, and every URL ends in an exception |
| `Handler.HandlerStatus` | lambda_function.py:42-70 | 500 iff RESPONSE_LIMIT, the url list, SNS_TOPIC or STATUS_PAGE_URL is missing; 200 otherwise |
| `Handler.HandlerTriesEveryUrl` | lambda_function.py:44-57 | once the loop starts, every URL of the batch is tried in order, and for distinct URLs each outcome is that URL's own step on the original table |
| `Handler.AsWrittenHandlerChangesNothing` | lambda_function.py:44-59 | as written, the handler never changes the table and never sends a notification |
| `Handler.AsWrittenMissesStatusChange` | lambda_function.py:49-50 | a concrete site that goes from 200 to 503 is marked changed by check_website, yet the handler leaves the table as it was, fails the URL with AttributeError and sends nothing |
| `Handler.RebuildClearsReportedChange` | lambda_function.py:50-53 | even a rebuild from the checked record's `__dict__` clears the is_changed that check_website set |
| `Handler.FixedHandlerReportsChanges` | lambda_function.py:49-59 | without the rebuild, the handler returns 200 and tries every URL; for distinct URLs each outcome is that URL's own check of its stored item and each processed site's checked record is stored under its URL; one digest of exactly the changed sites, in URL order, is sent when the publish succeeds |

## Findings

| source | as written | input that shows it | evidently intended | confidence | as-written member | corrected member |
|---|---|---|---|---|---|---|
| lambda_function.py:49-50 | `WebSite(updated_site_dict)` is given the `WebSite` object that `check_website` returns (WebSite.py:88). The constructor calls `.get` on it, which raises AttributeError for every URL. Nothing is stored and nothing is reported. | a URL present in the table whose probe answers 503 after a stored 200 | store the checked record and report it when its status changed | high (not executed) | `Handler.AsWrittenMissesStatusChange` | `Handler.FixedHandlerReportsChanges` |
| lambda_function.py:50-53 | Even if a dictionary were passed, the constructor resets `is_changed` (WebSite.py:18). `updated_site.is_changed` could then never be true, and `changed_sites` would stay empty. | the same 503-after-200 site: `check_website` reports the change and the rebuilt site does not | collect the sites whose check reported a change | high (not executed) | `Handler.RebuildClearsReportedChange` | `Handler.FixedHandlerReportsChanges` |

The `Variant` parameter of `Handler.LambdaHandler` selects the behaviour:

- `AsWritten` keeps the failing rebuild.
- `Fixed` drops the rebuild. It appends the returned object to changed_sites
  when its `is_changed` is true, and stores its attribute dictionary.

## Left out

- Getters (`get_url`, `get_http_status`, `get_http_reason`,
  `get_last_changed`, `get_last_checked`, `get_is_changed`): these are plain
  attribute reads. The model reads the class's public fields directly.
- The `urlopen` call and its timing: the outcome and the rounded elapsed
  seconds are the input `Probe`. For a URL that is not a reachable HTTP(S)
  URL, urllib raises either `URLError` (unknown scheme, no host, an
  unreachable file or FTP target: the `UrlError` case) or another exception
  (no scheme, a `None` url, a non-HTTP response without `reason`: the
  `OtherError` case). The `Probe` input may be either.
- `datetime.now` and `isoformat`: a clock reading is a `DateTime` carrying
  its ISO text.
- Handler configuration is abstracted:
  - `int(os.environ['RESPONSE_LIMIT'])` becomes the three cases of `EnvInt`
    (unset, not an integer, a value). Python's text-to-integer parsing is not
    modelled.
  - `TABLE_NAME` and the boto3 clients are not modelled. The table is the
    `Table` object passed in.
- Event parsing (`event['Records'][0]['body']`, `json.loads`): the url list
  is the input `urls`. `None` stands for a body without `urls`. Non-string
  list elements are not modelled.
- DynamoDB and SNS I/O errors other than a missing item: the handler would
  catch them per URL, or swallow them in publish. Only a missing item and a
  failed publish (`publishOk`) are modelled. Because `put_item`
  (lambda_function.py:55) runs after the append at lambda_function.py:53, a
  failed write would leave the site in `changed_sites`: it would be reported
  without being stored. The model's `put_item` cannot fail, so
  `Handler.RunCollectsChangedSites` and the fixed `Step`, which appends only
  together with a store, do not cover that case.
- Logging: it is side output only. The per-URL error log is the `Failed`
  entries of the returned trace. The topic name is computed, but it only
  appears in log messages.
- Attribute values other than None, bool, whole numbers and strings (for
  example non-integer Decimals, lists and maps) are not modelled.
- Concurrency: the Lambda runs one batch sequentially.
