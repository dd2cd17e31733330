/**
  The `MatomoTracker` class of index.ts. Its configuration is fixed when it
  is built; `track` and `trackBulk` stamp the caller's option objects and
  hand a request to the transport; the response and error handlers they
  install report anomalies on the tracker's `error` channel.

  The transport is not modelled: a request is returned as a value, and its
  handlers are methods that receive the response status, the response
  chunks or the error message.
 */
module TrackerTs {
  import opened Wrappers
  import opened JsValues
  import opened QueryString
  import opened Options
  import opened Status
  import opened Config
  import opened Requests
  import Utf8

  /** The option object `track` works on: a string becomes `{url: s}`; nothing at all gives none. */
  function ArgOptions(arg: TrackArg): Option<seq<Entry>>
    reads ArgFrame(arg)
  {
    match arg
    case UrlString(s) => Some([("url", Str(s))])
    case Object(bag) => Some(bag.entries)
    case Missing => None
  }

  /**
    What `track` does with its options: without an object or without a
    truthy `url` it fails and builds nothing; otherwise it stamps the object
    and requests `trackerUrl + '?' + qs.stringify(options)`.
   */
  function TrackTs(trackerUrl: string, siteId: Value, agent: Agent, options: Option<seq<Entry>>,
                   hadListeners: bool): (r: Result<Request, TrackError>)
    ensures r.Failure? <==> options.None? || !HasUrl(options.value)
    ensures r.Failure? ==> r.error == UrlRequired
    ensures r.Success? ==> r.value.HttpGet? && r.value.agent == agent && r.value.hadListeners == hadListeners
  {
    if options.None? || !HasUrl(options.value) then Failure(UrlRequired)
    else Success(HttpGet(agent, RequestUrl(trackerUrl, Stamp(options.value, siteId)), hadListeners))
  }

  /**
    The URL of a successful `track` is the tracker URL, `?`, and a query the
    endpoint decodes to the caller's parameters followed by `idsite` and `rec`.
   */
  lemma TrackTsRequest(trackerUrl: string, siteId: Value, agent: Agent, options: seq<Entry>, hadListeners: bool)
    requires HasUrl(options)
    ensures TrackTs(trackerUrl, siteId, agent, Some(options), hadListeners).value.url[..|trackerUrl| + 1] ==
      trackerUrl + "?"
    ensures Parse(TrackTs(trackerUrl, siteId, agent, Some(options), hadListeners).value.url[|trackerUrl| + 1..]) ==
      Some(Rendered(Stamp(options, siteId)))
    ensures ("idsite", Primitive(siteId)) in Rendered(Stamp(options, siteId))
    ensures ("rec", "1") in Rendered(Stamp(options, siteId))
    ensures forall k :: k != "idsite" && k != "rec" && Get(options, k).Some? ==>
      (k, Primitive(Get(options, k).value)) in Rendered(Stamp(options, siteId))
    ensures UniqueKeys(options) ==> forall p :: p in Rendered(Stamp(options, siteId)) && p.0 == "idsite" ==>
      p.1 == Primitive(siteId)
    ensures UniqueKeys(options) ==> forall p :: p in Rendered(Stamp(options, siteId)) && p.0 == "rec" ==>
      p.1 == "1"
  {
    RequestUrlCarries(trackerUrl, Stamp(options, siteId));
    StampedQueryCarries(options, siteId);
    if UniqueKeys(options) {
      StampedOnlySiteAndRec(options, siteId);
    }
  }

  /** A URL string is tracked exactly as the option object `{url: s}` is. */
  lemma StringIsUrlObject(trackerUrl: string, siteId: Value, agent: Agent, s: string, bag: OptionBag,
                          hadListeners: bool)
    requires bag.entries == [("url", Str(s))]
    ensures TrackTs(trackerUrl, siteId, agent, ArgOptions(UrlString(s)), hadListeners) ==
      TrackTs(trackerUrl, siteId, agent, ArgOptions(Object(bag)), hadListeners)
    ensures TrackTs(trackerUrl, siteId, agent, ArgOptions(UrlString(s)), hadListeners).Success? <==> s != []
  {
    assert Get([("url", Str(s))], "url") == Some(Str(s));
  }

  lemma StringifyThree(x: Entry, y: Entry, z: Entry)
    ensures Stringify([x, y, z]) == Field(x) + "&" + (Field(y) + "&" + Field(z))
  {
    assert [x, y, z][1..] == [y, z];
    assert [y, z][1..] == [z];
    assert Stringify([z]) == Field(z);
    assert Stringify([y, z]) == Field(y) + "&" + Field(z);
  }

  /**
    The query of the test suite's page view: `url`, then the stamped
    `idsite=1` and `rec=1`.
   */
  lemma TestSuiteQuery(page: string)
    requires page == "http://mywebsite.com/"
    ensures Stringify(Stamp([("url", Str(page))], Num(1))) ==
      "url=" + "http%3A%2F%2Fmywebsite.com%2F" + "&" + "idsite=1&rec=1"
  {
    var options := [("url", Str(page))];
    assert Keys(options) == ["url"];
    StampAppends(options, Num(1));
    var x, y, z := ("url", Str(page)), ("idsite", Num(1)), ("rec", Num(1));
    assert Stamp(options, Num(1)) == [x, y, z];
    StringifyThree(x, y, z);
    EscapeWord("url");
    EscapeWord("idsite");
    EscapeWord("rec");
    EscapeWord("1");
    EscapeTestPage(page);
    assert Primitive(Num(1)) == "1";
    KeyAndEquals("url", "=");
    SiteAndRecFields(Field(y), Field(z), "idsite", "1", "rec");
  }

  // The spelling of the test suite's literals, proved apart from the
  // lemmas above: inside them, the same equalities exhaust the solver.

  lemma KeyAndEquals(key: string, eq: string)
    requires key == "url" && eq == "="
    ensures key + eq == "url="
  {
  }

  lemma SiteAndRecFields(fy: string, fz: string, i: string, one: string, r: string)
    requires i == "idsite" && one == "1" && r == "rec" && fy == i + "=" + one && fz == r + "=" + one
    ensures fy + "&" + fz == "idsite=1&rec=1"
  {
  }

  /**
    The request of the test suite: tracking `http://mywebsite.com/` with site
    id 1 requests the tracker URL followed by
    `?url=http%3A%2F%2Fmywebsite.com%2F&idsite=1&rec=1`.
   */
  lemma TestSuiteRequest(trackerUrl: string, agent: Agent, page: string, hadListeners: bool)
    requires page == "http://mywebsite.com/"
    ensures TrackTs(trackerUrl, Num(1), agent, Some([("url", Str(page))]), hadListeners) ==
      Success(HttpGet(agent, trackerUrl + "?url=" + "http%3A%2F%2Fmywebsite.com%2F" + "&idsite=1&rec=1", hadListeners))
  {
    assert Get([("url", Str(page))], "url") == Some(Str(page));
    TestSuiteQuery(page);
    var key, escaped, rest := "url=", "http%3A%2F%2Fmywebsite.com%2F", "idsite=1&rec=1";
    RegroupUrl(trackerUrl, key, escaped, rest);
    MarkAndKey("?", key);
    AmpRest("&", rest);
  }

  lemma RegroupUrl(t: string, a: string, b: string, c: string)
    ensures t + "?" + (a + b + "&" + c) == t + ("?" + a) + b + ("&" + c)
  {
  }

  lemma MarkAndKey(mark: string, key: string)
    requires mark == "?" && key == "url="
    ensures mark + key == "?url="
  {
  }

  lemma AmpRest(amp: string, rest: string)
    requires amp == "&" && rest == "idsite=1&rec=1"
    ensures amp + rest == "&idsite=1&rec=1"
  {
  }

  class MatomoTracker {
    const siteId: Value
    const trackerUrl: string
    const usesHTTPS: bool
    /** The number of `error` listeners registered on the tracker. */
    var errorListeners: nat
    /** Every `error` event emitted so far, oldest first. */
    var emitted: seq<ErrorEvent>

    /** What the constructor's assertions guarantee for the tracker's lifetime. */
    ghost predicate Valid()
    {
      ValidSiteId(siteId) && trackerUrl != [] && usesHTTPS == UsesHttps(trackerUrl)
    }

    constructor (siteId: Value, trackerUrl: string)
      requires ValidSiteId(siteId) && trackerUrl != []
      ensures Valid()
      ensures this.siteId == siteId && this.trackerUrl == trackerUrl
      ensures errorListeners == 0 && emitted == []
    {
      this.siteId := siteId;
      this.trackerUrl := trackerUrl;
      this.usesHTTPS := UsesHttps(trackerUrl);
      errorListeners := 0;
      emitted := [];
    }

    /**
      `new MatomoTracker(siteId, trackerUrl, noURLValidation)`: the
      constructor's assertions decide whether a tracker is built, and it
      stores the site id and the tracker URL as they were given.
     */
    static method Create(siteId: Value, trackerUrl: Value, noURLValidation: Value)
        returns (r: Result<MatomoTracker, ConfigError>)
      ensures r.Failure? <==> Validate(siteId, trackerUrl, noURLValidation).Failure?
      ensures r.Failure? ==> r.error == Validate(siteId, trackerUrl, noURLValidation).error
      ensures r.Success? ==> fresh(r.value) && r.value.Valid()
      ensures r.Success? ==> r.value.siteId == siteId && Str(r.value.trackerUrl) == trackerUrl
      ensures r.Success? ==> r.value.errorListeners == 0 && r.value.emitted == []
    {
      var checked := Validate(siteId, trackerUrl, noURLValidation);
      if checked.Failure? {
        return Failure(checked.error);
      }
      var tracker := new MatomoTracker(siteId, checked.value);
      return Success(tracker);
    }

    /** `tracker.on('error', listener)`, inherited from `EventEmitter`. */
    method AddErrorListener()
      modifies this
      ensures errorListeners == old(errorListeners) + 1
      ensures emitted == old(emitted)
    {
      errorListeners := errorListeners + 1;
    }

    /**
      `track(options)`. The `url` check comes before the stamping, so a
      failing call leaves the caller's object as it was.
     */
    method Track(arg: TrackArg) returns (r: Result<Request, TrackError>)
      requires arg.Object? ==> arg.bag.Valid()
      modifies ArgFrame(arg)
      ensures arg.Object? ==> arg.bag.Valid()
      ensures r == TrackTs(trackerUrl, siteId, AgentFor(usesHTTPS), old(ArgOptions(arg)), errorListeners > 0)
      ensures arg.Object? ==>
        arg.bag.entries == if r.Success? then Stamp(old(arg.bag.entries), siteId) else old(arg.bag.entries)
    {
      var hasErrorListeners := errorListeners;
      var options: OptionBag;
      match arg {
        case Missing =>
          return Failure(UrlRequired);
        case UrlString(s) =>
          options := new OptionBag([("url", Str(s))]);
        case Object(bag) =>
          options := bag;
      }
      if !HasUrl(options.entries) {
        return Failure(UrlRequired);
      }
      options.Set("idsite", siteId);
      options.Set("rec", Num(1));
      var requestUrl := trackerUrl + "?" + Stringify(options.entries);
      var agent := AgentFor(usesHTTPS);
      r := Success(HttpGet(agent, requestUrl, hasErrorListeners > 0));
    }

    /**
      `trackBulk(events, callback)`: at least one event is required; every
      event is stamped in place and the request carries one fragment per
      event, in order, with the body's byte length as `Content-Length`.
     */
    method TrackBulk(events: Option<seq<OptionBag>>, hasCallback: bool) returns (r: Result<Request, TrackError>)
      requires Valid()
      requires events.Some? ==> forall i :: 0 <= i < |events.value| ==> events.value[i].Valid()
      modifies if events.Some? then events.value else []
      ensures events.None? || |events.value| == 0 <==> r.Failure?
      ensures r.Failure? ==> r.error == EventsRequired
      ensures r.Success? ==> forall i :: 0 <= i < |events.value| ==>
        events.value[i].entries == Stamp(old(events.value[i].entries), siteId)
      ensures r.Success? ==>
        r.value == BulkPost(AgentFor(usesHTTPS), trackerUrl, Fragments(old(EntriesOf(events.value)), siteId),
                            errorListeners > 0, hasCallback)
      ensures r.Success? ==> r.value.contentLength == |r.value.body|
    {
      var hasErrorListeners := errorListeners;
      if events.None? || |events.value| == 0 {
        return Failure(EventsRequired);
      }
      // The `siteId` assertion of index.ts:107 cannot fail for callers that
      // respect `readonly`: the constructor only accepts a truthy site id.
      assert siteId != Undefined && siteId != Null;
      ghost var before := EntriesOf(events.value);
      var fragments := StampAndSerialize(events.value, siteId);
      var agent := AgentFor(usesHTTPS);
      r := Success(BulkPost(agent, trackerUrl, fragments, hasErrorListeners > 0, hasCallback));
      BulkPostLength(agent, trackerUrl, before, siteId, hasErrorListeners > 0, hasCallback);
    }

    /**
      The response handler of `track`: a present status outside the success
      set is emitted, if `error` listeners existed when the call started.
     */
    method OnTrackResponse(req: Request, statusCode: nat)
      modifies this
      ensures emitted == old(emitted) + StatusErrorsTs(statusCode, req.hadListeners)
      ensures errorListeners == old(errorListeners)
    {
      if statusCode != 0 && !IsSuccess(statusCode) {
        if req.hadListeners {
          emitted := emitted + [StatusError(statusCode)];
        }
      }
    }

    /** The `error` handler of both requests: the message is emitted if listeners existed. */
    method OnRequestError(req: Request, message: string)
      modifies this
      ensures emitted == old(emitted) + TransportErrors(message, req.hadListeners)
      ensures errorListeners == old(errorListeners)
    {
      if req.hadListeners {
        emitted := emitted + [TransportError(message)];
      }
    }

    /**
      The response handler of `trackBulk`: the status is checked as for
      `track`, the body's chunks are gathered in arrival order, and at the end
      the callback, if one was given, receives their concatenation.
     */
    method OnBulkResponse(req: Request, statusCode: nat, chunks: seq<seq<Utf8.Byte>>)
        returns (callbackArgument: Option<seq<Utf8.Byte>>)
      modifies this
      ensures emitted == old(emitted) + StatusErrorsTs(statusCode, req.hadListeners)
      ensures errorListeners == old(errorListeners)
      ensures callbackArgument == if req.HttpPost? && req.hasCallback then Some(Concat(chunks)) else None
    {
      if statusCode != 0 && !IsSuccess(statusCode) {
        if req.hadListeners {
          emitted := emitted + [StatusError(statusCode)];
        }
      }
      var output := CollectBody(chunks);
      callbackArgument := if req.HttpPost? && req.hasCallback then Some(output) else None;
    }
  }
}
