/**
  The `MatomoTracker` constructor function of index.js and its prototype
  methods. It differs from the class of index.ts in three ways: `track`
  stamps the option object before it checks for `url`, so even a failing call
  changes the caller's object; `siteId` is an ordinary property that callers
  may reassign, so `trackBulk` checks it on every call; and the response
  handlers test every status, including a missing one, against the success
  pattern.
 */
module TrackerJs {
  import opened Wrappers
  import opened JsValues
  import opened QueryString
  import opened Options
  import opened Status
  import opened Config
  import opened Requests
  import TrackerTs
  import Utf8

  /** The option object `track` works on: a string becomes `{url: s}`, and nothing at all becomes `{}`. */
  function JsOptions(arg: TrackArg): seq<Entry>
    reads ArgFrame(arg)
  {
    match arg
    case UrlString(s) => [("url", Str(s))]
    case Object(bag) => bag.entries
    case Missing => []
  }

  /**
    What `track` does with its options: it stamps them first and then fails
    unless the stamped object has a truthy `url`; since stamping only sets
    `idsite` and `rec`, that is exactly when the caller's options lack one.
   */
  function TrackJs(trackerUrl: string, siteId: Value, agent: Agent, options: seq<Entry>,
                   hadListeners: bool): (r: Result<Request, TrackError>)
    ensures r.Failure? <==> !HasUrl(options)
    ensures r.Failure? ==> r.error == UrlRequired
    ensures r.Success? ==> r.value.HttpGet? && r.value.agent == agent && r.value.hadListeners == hadListeners
  {
    var stamped := Stamp(options, siteId);
    StampKeepsUrl(options, siteId);
    if !HasUrl(stamped) then Failure(UrlRequired)
    else Success(HttpGet(agent, RequestUrl(trackerUrl, stamped), hadListeners))
  }

  /**
    Both versions of `track` give the same outcome and the same request for
    the same option object: checking `url` before or after stamping does not
    change the verdict.
   */
  lemma TrackVersionsAgree(trackerUrl: string, siteId: Value, agent: Agent, options: seq<Entry>,
                           hadListeners: bool)
    ensures TrackJs(trackerUrl, siteId, agent, options, hadListeners) ==
      TrackerTs.TrackTs(trackerUrl, siteId, agent, Some(options), hadListeners)
  {
    StampKeepsUrl(options, siteId);
  }

  /**
    The same holds for every argument `track` accepts: a missing argument,
    which index.ts rejects outright and index.js turns into `{}`, fails with
    the same error in both.
   */
  lemma ArgumentsAgree(trackerUrl: string, siteId: Value, agent: Agent, arg: TrackArg, hadListeners: bool)
    ensures TrackJs(trackerUrl, siteId, agent, JsOptions(arg), hadListeners) ==
      TrackerTs.TrackTs(trackerUrl, siteId, agent, TrackerTs.ArgOptions(arg), hadListeners)
  {
    if arg.Missing? {
      assert Get([], "url") == None;
    } else {
      TrackVersionsAgree(trackerUrl, siteId, agent, JsOptions(arg), hadListeners);
    }
  }

  /**
    The page view of the test suite, through the HTTP agent of
    `http://example.com/matomo.php` and the HTTPS agent of
    `https://example.com/matomo.php`.
   */
  lemma TestSuiteTrack(trackerUrl: string, page: string, hadListeners: bool)
    requires trackerUrl == "http://example.com/matomo.php" || trackerUrl == "https://example.com/matomo.php"
    requires page == "http://mywebsite.com/"
    ensures TrackJs(trackerUrl, Num(1), AgentFor(UsesHttps(trackerUrl)), JsOptions(UrlString(page)), hadListeners) ==
      Success(HttpGet(if trackerUrl == "http://example.com/matomo.php" then Http else Https,
                      trackerUrl + "?url=" + "http%3A%2F%2Fmywebsite.com%2F" + "&idsite=1&rec=1", hadListeners))
  {
    AgentExamples();
    var agent := AgentFor(UsesHttps(trackerUrl));
    TrackVersionsAgree(trackerUrl, Num(1), agent, [("url", Str(page))], hadListeners);
    TrackerTs.TestSuiteRequest(trackerUrl, agent, page, hadListeners);
  }

  class MatomoTracker {
    /** A public property: callers may reassign it, as the test suite does. */
    var siteId: Value
    const trackerUrl: string
    const agent: Agent
    /** The number of `error` listeners registered on the tracker. */
    var errorListeners: nat
    /** Every `error` event emitted so far, oldest first. */
    var emitted: seq<ErrorEvent>

    /** What the constructor guarantees about the properties callers cannot reassign. */
    ghost predicate Valid()
    {
      trackerUrl != [] && agent == AgentFor(UsesHttps(trackerUrl))
    }

    constructor (siteId: Value, trackerUrl: string)
      requires ValidSiteId(siteId) && trackerUrl != []
      ensures Valid()
      ensures this.siteId == siteId && this.trackerUrl == trackerUrl
      ensures errorListeners == 0 && emitted == []
    {
      this.siteId := siteId;
      this.trackerUrl := trackerUrl;
      this.agent := AgentFor(UsesHttps(trackerUrl));
      errorListeners := 0;
      emitted := [];
    }

    /**
      `MatomoTracker(siteId, trackerUrl, noURLValidation)`, with or without
      `new`: the assertions decide whether a tracker is built, and it stores
      the site id and the tracker URL as they were given.
     */
    static method Create(siteId: Value, trackerUrl: Value, noURLValidation: Value)
        returns (r: Result<MatomoTracker, ConfigError>)
      ensures r.Failure? <==> Validate(siteId, trackerUrl, noURLValidation).Failure?
      ensures r.Failure? ==> r.error == Validate(siteId, trackerUrl, noURLValidation).error
      ensures r.Success? ==> fresh(r.value) && r.value.Valid()
      ensures r.Success? ==> r.value.siteId == siteId && Str(r.value.trackerUrl) == trackerUrl
      ensures r.Success? ==> r.value.errorListeners == 0 && r.value.emitted == []
    {
      var checked := Validate(siteId, trackerUrl, noURLValidation);
      if checked.Failure? {
        return Failure(checked.error);
      }
      var tracker := new MatomoTracker(siteId, checked.value);
      return Success(tracker);
    }

    /** `tracker.on('error', listener)`, inherited from `EventEmitter`. */
    method AddErrorListener()
      modifies this
      ensures errorListeners == old(errorListeners) + 1
      ensures emitted == old(emitted) && siteId == old(siteId)
    {
      errorListeners := errorListeners + 1;
    }

    /**
      `track(options)`. The caller's object is stamped before the `url`
      check, so it carries `idsite` and `rec` even when the call fails.
     */
    method Track(arg: TrackArg) returns (r: Result<Request, TrackError>)
      requires arg.Object? ==> arg.bag.Valid()
      modifies ArgFrame(arg)
      ensures arg.Object? ==> arg.bag.Valid()
      ensures r == TrackJs(trackerUrl, siteId, agent, old(JsOptions(arg)), errorListeners > 0)
      ensures arg.Object? ==> arg.bag.entries == Stamp(old(arg.bag.entries), siteId)
    {
      var hasErrorListeners := errorListeners;
      var options: OptionBag;
      match arg {
        case UrlString(s) =>
          options := new OptionBag([("url", Str(s))]);
        case Object(bag) =>
          options := bag;
        case Missing =>
          options := new OptionBag([]);
      }
      options.Set("idsite", siteId);
      options.Set("rec", Num(1));
      if !HasUrl(options.entries) {
        return Failure(UrlRequired);
      }
      var requestUrl := trackerUrl + "?" + Stringify(options.entries);
      r := Success(HttpGet(agent, requestUrl, hasErrorListeners > 0));
    }

    /**
      `trackBulk(events, callback)`: at least one event is required, and the
      current `siteId` must be neither `undefined` nor `null`; then every
      event is stamped in place and the request carries one fragment per
      event, in order, with the body's byte length as `Content-Length`.
     */
    method TrackBulk(events: Option<seq<OptionBag>>, hasCallback: bool) returns (r: Result<Request, TrackError>)
      requires events.Some? ==> forall i :: 0 <= i < |events.value| ==> events.value[i].Valid()
      modifies if events.Some? then events.value else []
      ensures r.Success? <==> events.Some? && |events.value| != 0 && siteId != Undefined && siteId != Null
      ensures events.None? || |events.value| == 0 ==> r == Failure(EventsRequired)
      ensures events.Some? && |events.value| != 0 ==>
        (r == Failure(SiteIdMissing) <==> siteId == Undefined || siteId == Null)
      ensures r.Failure? && events.Some? ==> forall i :: 0 <= i < |events.value| ==>
        events.value[i].entries == old(events.value[i].entries)
      ensures r.Success? ==> forall i :: 0 <= i < |events.value| ==>
        events.value[i].entries == Stamp(old(events.value[i].entries), siteId)
      ensures r.Success? ==>
        r.value == BulkPost(agent, trackerUrl, Fragments(old(EntriesOf(events.value)), siteId),
                            errorListeners > 0, hasCallback)
      ensures r.Success? ==> r.value.contentLength == |r.value.body|
    {
      var hasErrorListeners := errorListeners;
      if events.None? || |events.value| == 0 {
        return Failure(EventsRequired);
      }
      if siteId == Undefined || siteId == Null {
        return Failure(SiteIdMissing);
      }
      ghost var before := EntriesOf(events.value);
      var fragments := StampAndSerialize(events.value, siteId);
      r := Success(BulkPost(agent, trackerUrl, fragments, hasErrorListeners > 0, hasCallback));
      BulkPostLength(agent, trackerUrl, before, siteId, hasErrorListeners > 0, hasCallback);
    }

    /**
      The response handler of `track`: a status outside the success pattern
      is emitted, if `error` listeners existed when the call started.
     */
    method OnTrackResponse(req: Request, statusCode: nat)
      modifies this
      ensures emitted == old(emitted) + StatusErrorsJs(statusCode, req.hadListeners)
      ensures errorListeners == old(errorListeners) && siteId == old(siteId)
    {
      if !IsSuccess(statusCode) {
        if req.hadListeners {
          emitted := emitted + [StatusError(statusCode)];
        }
      }
    }

    /** The `error` handler of both requests: the message is emitted if listeners existed. */
    method OnRequestError(req: Request, message: string)
      modifies this
      ensures emitted == old(emitted) + TransportErrors(message, req.hadListeners)
      ensures errorListeners == old(errorListeners) && siteId == old(siteId)
    {
      if req.hadListeners {
        emitted := emitted + [TransportError(message)];
      }
    }

    /**
      The response handler of `trackBulk`: the status is checked as for
      `track`, the body's chunks are gathered in arrival order, and at the end
      the callback, if one was given, receives their concatenation.
     */
    method OnBulkResponse(req: Request, statusCode: nat, chunks: seq<seq<Utf8.Byte>>)
        returns (callbackArgument: Option<seq<Utf8.Byte>>)
      modifies this
      ensures emitted == old(emitted) + StatusErrorsJs(statusCode, req.hadListeners)
      ensures errorListeners == old(errorListeners) && siteId == old(siteId)
      ensures callbackArgument == if req.HttpPost? && req.hasCallback then Some(Concat(chunks)) else None
    {
      if !IsSuccess(statusCode) {
        if req.hadListeners {
          emitted := emitted + [StatusError(statusCode)];
        }
      }
      var output := CollectBody(chunks);
      callbackArgument := if req.HttpPost? && req.hasCallback then Some(output) else None;
    }
  }
}
