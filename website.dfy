/** The WebSite record of a monitored URL and its `check_website` transition
    (WebSite.py). The network probe and the clock are inputs. */
module Site {
  import opened PyValues

  /** A clock reading, carried as the text `datetime.isoformat()` gives for it. */
  datatype DateTime = DateTime(iso: string)

  /** What the single `urlopen` call did. */
  datatype Probe =
      /** A response arrived; `elapsedSecs` is the rounded duration of the call. */
    | Answered(status: int, reason: string, elapsedSecs: int)
      /** urllib raised HTTPError for an error status. */
    | HttpError(code: int, reason: string)
      /** urllib raised URLError (DNS failure, refused connection, ...). */
    | UrlError(reason: string)
      /** Any other exception; check_website does not catch it. */
    | OtherError(text: string)

  const DefaultSlowResponseSeconds: int := 5

  /** The sentinel status stored when no response was obtained. */
  const NotApplicable: Value := VStr("N/A")

  /** `str(URLError(reason))` */
  function UrlErrorText(reason: string): string {
    "<urlopen error " + reason + ">"
  }

  /** The attributes of a WebSite object. `elapsedTime` is None while the
      object has no `elapsed_time` attribute; only a successful probe sets it. */
  datatype Record = Record(
    url: Value,
    httpStatus: Value,
    httpReason: Value,
    lastChecked: Value,
    lastChanged: Value,
    isChanged: bool,
    isUp: Value,
    isSlow: Value,
    elapsedTime: Option<int>)

  /** The record `WebSite(d)` builds from a flat dictionary. */
  function Construct(d: Item): Record {
    Record(
      url := Get(d, "url", VNone),
      httpStatus := Get(d, "http_status", VNone),
      httpReason := Get(d, "http_reason", VNone),
      lastChecked := Get(d, "last_checked", VNone),
      lastChanged := Get(d, "last_changed", VNone),
      isChanged := false,
      isUp := Get(d, "is_up", VBool(false)),
      isSlow := Get(d, "is_slow", VBool(false)),
      elapsedTime := None)
  }

  /** The object's `__dict__`: every attribute it has, under its Python name. */
  function AttrDict(r: Record): Item {
    var fixed := map[
      "url" := r.url,
      "http_status" := r.httpStatus,
      "http_reason" := r.httpReason,
      "last_checked" := r.lastChecked,
      "last_changed" := r.lastChanged,
      "is_changed" := VBool(r.isChanged),
      "is_up" := r.isUp,
      "is_slow" := r.isSlow];
    if r.elapsedTime.Some? then fixed["elapsed_time" := VInt(r.elapsedTime.value)] else fixed
  }

  /** The attribute dictionary holds the url attribute under "url". */
  lemma AttrDictUrl(r: Record)
    ensures "url" in AttrDict(r) && AttrDict(r)["url"] == r.url
  {
  }

  /** What `set_last_changed` and `set_last_checked` store for their argument. */
  function Stamp(t: Option<DateTime>): Value {
    if t.Some? then VStr(t.value.iso) else VNone
  }

  /** The threshold `kwargs.get('SlowResponseSeconds', 5)` yields. */
  function Threshold(slowResponseSeconds: Option<int>): int {
    if slowResponseSeconds.Some? then slowResponseSeconds.value else DefaultSlowResponseSeconds
  }

  /** The working copy after the try/except of check_website, or the exception
      that escapes it. */
  function Probed(copy: Record, probe: Probe, threshold: int): Result<Record> {
    match probe
    case Answered(status, reason, elapsed) =>
      Ok(copy.(httpStatus := VInt(status),
               httpReason := VStr(if reason == "" then "OK" else reason),
               elapsedTime := Some(elapsed),
               isUp := VBool(true),
               isSlow := VBool(elapsed > threshold)))
    case HttpError(code, reason) =>
      Ok(copy.(httpStatus := VInt(code), httpReason := VStr(reason)))
    case UrlError(reason) =>
      Ok(copy.(httpStatus := NotApplicable, httpReason := VStr(UrlErrorText(reason))))
    case OtherError(text) =>
      Err(Raised(text))
  }

  /** The record `prev.check_website(...)` returns. `changeTime` and `checkTime`
      are the two clock readings it takes (for last_changed and last_checked). */
  function Checked(prev: Record, probe: Probe, slowResponseSeconds: Option<int>,
                   changeTime: DateTime, checkTime: DateTime): Result<Record>
  {
    // the working copy `WebSite(self.__dict__)` (see ReloadKeepsPersistentFields)
    match Probed(prev.(isChanged := false, elapsedTime := None), probe, Threshold(slowResponseSeconds))
    case Err(e) => Err(e)
    case Ok(current) => Ok(Detected(current, prev.httpStatus, changeTime, checkTime))
  }

  /** The change detection and time stamping at the end of check_website:
      `current` is the probed copy, `prevStatus` the status before the probe. */
  function Detected(current: Record, prevStatus: Value, changeTime: DateTime, checkTime: DateTime): Record {
    var detected :=
      if !PyEq(current.httpStatus, prevStatus)
      then current.(lastChanged := Stamp(Some(changeTime)), isChanged := true)
      else current;
    detected.(lastChecked := Stamp(Some(checkTime)))
  }

  /** A monitored website. Its fields are the Python object's attributes. */
  class WebSite {
    var url: Value
    var httpStatus: Value
    var httpReason: Value
    var lastChecked: Value
    var lastChanged: Value
    var isChanged: bool
    var isUp: Value
    var isSlow: Value
    var elapsedTime: Option<int>

    /** The object's attributes as a value. */
    function Snapshot(): Record
      reads this
    {
      Record(url, httpStatus, httpReason, lastChecked, lastChanged, isChanged, isUp, isSlow, elapsedTime)
    }

    constructor (siteObj: Item)
      ensures Snapshot() == Construct(siteObj)
    {
      url := Get(siteObj, "url", VNone);
      httpStatus := Get(siteObj, "http_status", VNone);
      httpReason := Get(siteObj, "http_reason", VNone);
      lastChecked := Get(siteObj, "last_checked", VNone);
      lastChanged := Get(siteObj, "last_changed", VNone);
      isChanged := false;
      isUp := Get(siteObj, "is_up", VBool(false));
      isSlow := Get(siteObj, "is_slow", VBool(false));
      elapsedTime := None;
    }

    method SetLastChanged(lastChanged: Option<DateTime>)
      modifies this
      ensures Snapshot() == old(Snapshot()).(lastChanged := Stamp(lastChanged))
    {
      if lastChanged.Some? {
        this.lastChanged := VStr(lastChanged.value.iso);
      } else {
        this.lastChanged := VNone;
      }
    }

    method SetLastChecked(lastChecked: Option<DateTime>)
      modifies this
      ensures Snapshot() == old(Snapshot()).(lastChecked := Stamp(lastChecked))
    {
      if lastChecked.Some? {
        this.lastChecked := VStr(lastChecked.value.iso);
      } else {
        this.lastChecked := VNone;
      }
    }

    /** The try/except of check_website, applied to the working copy: the
        fields each probe outcome overwrites, or the exception that escapes. */
    method ApplyProbe(probe: Probe, threshold: int) returns (raised: Option<Exception>)
      modifies this
      ensures raised.None? <==> Probed(old(Snapshot()), probe, threshold).Ok?
      ensures raised.None? ==> Snapshot() == Probed(old(Snapshot()), probe, threshold).value
      ensures raised.Some? ==> raised.value == Probed(old(Snapshot()), probe, threshold).error
    {
      raised := None;
      match probe {
        case Answered(status, reason, elapsed) =>
          httpStatus := VInt(status);
          httpReason := VStr(if reason == "" then "OK" else reason);
          elapsedTime := Some(elapsed);
          isUp := VBool(true);
          if elapsed > threshold {
            isSlow := VBool(true);
          } else {
            isSlow := VBool(false);
          }
        case HttpError(code, reason) =>
          httpStatus := VInt(code);
          httpReason := VStr(reason);
        case UrlError(reason) =>
          httpStatus := NotApplicable;
          httpReason := VStr(UrlErrorText(reason));
        case OtherError(text) =>
          raised := Some(Raised(text));
      }
    }

    /** The end of check_website on the probed copy: a status that differs
        from `prevStatus` sets last_changed and is_changed; last_checked is
        always set. */
    method DetectChange(prevStatus: Value, changeTime: DateTime, checkTime: DateTime)
      modifies this
      ensures Snapshot() == Detected(old(Snapshot()), prevStatus, changeTime, checkTime)
    {
      if !PyEq(httpStatus, prevStatus) {
        SetLastChanged(Some(changeTime));
        isChanged := true;
      }
      SetLastChecked(Some(checkTime));
    }

    /** Probes the site and returns a new WebSite with the outcome; this object
        is left as it was (the method may modify nothing that existed before). */
    method CheckWebsite(probe: Probe, slowResponseSeconds: Option<int>,
                        changeTime: DateTime, checkTime: DateTime)
      returns (result: Result<WebSite>)
      ensures result.Ok? <==> Checked(Snapshot(), probe, slowResponseSeconds, changeTime, checkTime).Ok?
      ensures result.Ok? ==>
        fresh(result.value) &&
        result.value.Snapshot() == Checked(Snapshot(), probe, slowResponseSeconds, changeTime, checkTime).value
      ensures result.Err? ==>
        result.error == Checked(Snapshot(), probe, slowResponseSeconds, changeTime, checkTime).error
    {
      var threshold := Threshold(slowResponseSeconds);
      var current := new WebSite(AttrDict(Snapshot()));
      ReloadKeepsPersistentFields(Snapshot());
      var raised := current.ApplyProbe(probe, threshold);
      if raised.Some? {
        return Err(raised.value);
      }
      current.DetectChange(httpStatus, changeTime, checkTime);
      return Ok(current);
    }
  }

  // ----- properties of construction -----

  /** A missing key gives None for the five optional fields and False for the flags. */
  lemma ConstructDefaults(d: Item)
    ensures "url" !in d ==> Construct(d).url == VNone
    ensures "http_status" !in d ==> Construct(d).httpStatus == VNone
    ensures "http_reason" !in d ==> Construct(d).httpReason == VNone
    ensures "last_checked" !in d ==> Construct(d).lastChecked == VNone
    ensures "last_changed" !in d ==> Construct(d).lastChanged == VNone
    ensures "is_up" !in d ==> Construct(d).isUp == VBool(false)
    ensures "is_slow" !in d ==> Construct(d).isSlow == VBool(false)
  {
  }

  /** `is_changed` and `elapsed_time` in the input are ignored: the new object
      is never marked changed and has no elapsed time. */
  lemma ConstructIgnoresTransient(d: Item, isChanged: Value, elapsed: Value)
    ensures Construct(d["is_changed" := isChanged]["elapsed_time" := elapsed]) == Construct(d)
    ensures !Construct(d).isChanged && Construct(d).elapsedTime.None?
  {
  }

  /** Rebuilding a WebSite from another's `__dict__` keeps every persistent
      attribute and drops the two transient ones. */
  lemma ReloadKeepsPersistentFields(r: Record)
    ensures Construct(AttrDict(r)) == r.(isChanged := false, elapsedTime := None)
  {
  }

  // ----- properties of check_website -----

  /** Only an exception other than HTTPError and URLError escapes. */
  lemma CheckRaisesOnlyOtherErrors(prev: Record, probe: Probe, slow: Option<int>, changeTime: DateTime, checkTime: DateTime)
    ensures Checked(prev, probe, slow, changeTime, checkTime).Err? <==> probe.OtherError?
    ensures probe.OtherError? ==> Checked(prev, probe, slow, changeTime, checkTime) == Err(Raised(probe.text))
  {
  }

  /** The returned record has the same URL and is stamped with the check time. */
  lemma CheckKeepsUrlAndStampsCheckTime(prev: Record, probe: Probe, slow: Option<int>, changeTime: DateTime, checkTime: DateTime)
    requires !probe.OtherError?
    ensures Checked(prev, probe, slow, changeTime, checkTime).Ok?
    ensures Checked(prev, probe, slow, changeTime, checkTime).value.url == prev.url
    ensures Checked(prev, probe, slow, changeTime, checkTime).value.lastChecked == VStr(checkTime.iso)
  {
  }

  /** A response: status and reason (or "OK") from the response, the site is up,
      and slow exactly when the rounded duration exceeds the threshold (5 by default). */
  lemma CheckAnswered(prev: Record, status: int, reason: string, elapsed: int, slow: Option<int>,
                      changeTime: DateTime, checkTime: DateTime)
    ensures var r := Checked(prev, Answered(status, reason, elapsed), slow, changeTime, checkTime).value;
      r.httpStatus == VInt(status) &&
      r.httpReason == VStr(if reason == "" then "OK" else reason) &&
      r.isUp == VBool(true) &&
      r.elapsedTime == Some(elapsed) &&
      (r.isSlow == VBool(true) <==> (if slow.Some? then elapsed > slow.value else elapsed > 5)) &&
      r.isSlow.VBool?
  {
  }

  /** HTTPError: status and reason from the error; is_up and is_slow as they
      were, and no elapsed time. */
  lemma CheckHttpError(prev: Record, code: int, reason: string, slow: Option<int>,
                       changeTime: DateTime, checkTime: DateTime)
    ensures var r := Checked(prev, HttpError(code, reason), slow, changeTime, checkTime).value;
      r.httpStatus == VInt(code) && r.httpReason == VStr(reason) &&
      r.isUp == prev.isUp && r.isSlow == prev.isSlow && r.elapsedTime.None?
  {
  }

  /** URLError: status "N/A" and the error's text; is_up and is_slow as they
      were, and no elapsed time. */
  lemma CheckUrlError(prev: Record, reason: string, slow: Option<int>,
                      changeTime: DateTime, checkTime: DateTime)
    ensures var r := Checked(prev, UrlError(reason), slow, changeTime, checkTime).value;
      r.httpStatus == VStr("N/A") && r.httpReason == VStr("<urlopen error " + reason + ">") &&
      r.isUp == prev.isUp && r.isSlow == prev.isSlow && r.elapsedTime.None?
  {
  }

  /** A change is reported, and last_changed moved to the change time, exactly
      when the new status differs (by Python's `!=`) from the previous one;
      otherwise last_changed is the previous value. */
  lemma CheckChangeDetection(prev: Record, probe: Probe, slow: Option<int>, changeTime: DateTime, checkTime: DateTime)
    requires !probe.OtherError?
    ensures var r := Checked(prev, probe, slow, changeTime, checkTime).value;
      (r.isChanged <==> !PyEq(r.httpStatus, prev.httpStatus)) &&
      r.lastChanged == (if r.isChanged then VStr(changeTime.iso) else prev.lastChanged)
  {
  }

  /** A site that turns slow while keeping its status is not reported as changed. */
  lemma SlownessAloneIsNoChange()
    ensures var prev := Record(VStr("https://example.org"), VInt(200), VStr("OK"), VNone, VNone,
                               false, VBool(true), VBool(false), None);
      var r := Checked(prev, Answered(200, "OK", 9), None, DateTime("t1"), DateTime("t2")).value;
      r.isSlow == VBool(true) && !r.isChanged && r.lastChanged == VNone
  {
  }

  /** Checking again with the same outcome reports no change and keeps last_changed. */
  lemma RecheckReportsNoChange(prev: Record, probe: Probe, slow: Option<int>,
                               t1: DateTime, t2: DateTime, t3: DateTime, t4: DateTime)
    requires !probe.OtherError?
    ensures var r1 := Checked(prev, probe, slow, t1, t2).value;
      var r2 := Checked(r1, probe, slow, t3, t4).value;
      !r2.isChanged && r2.lastChanged == r1.lastChanged && r2.httpStatus == r1.httpStatus
  {
  }
}
