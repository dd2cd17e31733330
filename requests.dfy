/**
  What `track` and `trackBulk` hand to the transport, and the request-building
  steps both versions of the tracker share: the single-event URL, the bulk
  stamping loop over `events.map(...)`, the JSON body, and the collection of
  a bulk response's chunks.
 */
module Requests {
  import opened Wrappers
  import opened JsValues
  import opened QueryString
  import opened Options
  import Json
  import Utf8

  /** The Node module the request goes through, chosen once from the tracker URL. */
  datatype Agent = Http | Https

  function AgentFor(usesHttps: bool): Agent
  {
    if usesHttps then Https else Http
  }

  /** The synchronous assertion failures of `track` and `trackBulk`. */
  datatype TrackError =
    | UrlRequired     // 'URL to be tracked must be specified.'
    | EventsRequired  // 'Events require at least one.'
    | SiteIdMissing   // 'siteId must be specified.'

  /** The argument of `track`: a URL string, an option object, or nothing (`undefined`/`null`). */
  datatype TrackArg = UrlString(url: string) | Object(bag: OptionBag) | Missing

  function ArgFrame(arg: TrackArg): set<object>
  {
    if arg.Object? then {arg.bag} else {}
  }

  /**
    A request handed to the transport. `hadListeners` is the snapshot of
    `this.listeners('error').length` taken when the call started; the
    response handlers report to `error` listeners only if it was non-zero.
   */
  datatype Request =
    | HttpGet(agent: Agent, url: string, hadListeners: bool)
    | HttpPost(agent: Agent, url: string, contentType: string, contentLength: nat, body: string,
           hadListeners: bool, hasCallback: bool)

  /** `trackerUrl + '?' + qs.stringify(options)`. */
  function RequestUrl(trackerUrl: string, entries: seq<Entry>): string
  {
    trackerUrl + "?" + Stringify(entries)
  }

  /**
    The endpoint splits a tracking URL at the `?` that follows the tracker URL
    and reads back every parameter of the stamped options, in order.
   */
  lemma RequestUrlCarries(trackerUrl: string, entries: seq<Entry>)
    ensures |RequestUrl(trackerUrl, entries)| > |trackerUrl|
    ensures RequestUrl(trackerUrl, entries)[..|trackerUrl| + 1] == trackerUrl + "?"
    ensures Parse(RequestUrl(trackerUrl, entries)[|trackerUrl| + 1..]) == Some(Rendered(entries))
  {
    var url := RequestUrl(trackerUrl, entries);
    assert url[|trackerUrl| + 1..] == Stringify(entries);
    StringifyRoundTrip(entries);
  }

  /** `options.url` is present and truthy. */
  predicate HasUrl(entries: seq<Entry>)
  {
    match Get(entries, "url")
    case None => false
    case Some(v) => Truthy(v)
  }

  /** Stamping leaves `url` as it was, so the check reads the same before and after it. */
  lemma StampKeepsUrl(entries: seq<Entry>, siteId: Value)
    ensures HasUrl(Stamp(entries, siteId)) == HasUrl(entries)
  {
    StampFacts(entries, siteId);
  }

  /** A property the options hold is read back by the endpoint, with its value rendered. */
  lemma RenderedGet(entries: seq<Entry>, key: string)
    requires Get(entries, key).Some?
    ensures (key, Primitive(Get(entries, key).value)) in Rendered(entries)
  {
    GetIsEntry(entries, key);
    var i :| 0 <= i < |entries| && entries[i] == (key, Get(entries, key).value);
    assert Rendered(entries)[i] == (key, Primitive(Get(entries, key).value));
  }

  /**
    What the endpoint reads back from the query of a stamped event: the site
    id, `rec=1`, and every other parameter of the caller with its value.
   */
  lemma StampedQueryCarries(entries: seq<Entry>, siteId: Value)
    ensures Parse(Stringify(Stamp(entries, siteId))) == Some(Rendered(Stamp(entries, siteId)))
    ensures ("idsite", Primitive(siteId)) in Rendered(Stamp(entries, siteId))
    ensures ("rec", "1") in Rendered(Stamp(entries, siteId))
    ensures forall k :: k != "idsite" && k != "rec" && Get(entries, k).Some? ==>
      (k, Primitive(Get(entries, k).value)) in Rendered(Stamp(entries, siteId))
  {
    StringifyRoundTrip(Stamp(entries, siteId));
    StampedSiteAndRec(entries, siteId);
    StampedOthers(entries, siteId);
  }

  /**
    The caller cannot smuggle its own `idsite` or `rec` into the query: in an
    object with unique keys, stamping overwrites them, so the only such
    parameters the endpoint reads back are the stamped ones.
   */
  lemma StampedOnlySiteAndRec(entries: seq<Entry>, siteId: Value)
    requires UniqueKeys(entries)
    ensures UniqueKeys(Stamp(entries, siteId))
    ensures forall p :: p in Rendered(Stamp(entries, siteId)) && p.0 == "idsite" ==> p.1 == Primitive(siteId)
    ensures forall p :: p in Rendered(Stamp(entries, siteId)) && p.0 == "rec" ==> p.1 == "1"
  {
    var stamped := Stamp(entries, siteId);
    StampFacts(entries, siteId);
    var rendered := Rendered(stamped);
    forall p | p in rendered && (p.0 == "idsite" || p.0 == "rec")
      ensures p.0 == "idsite" ==> p.1 == Primitive(siteId)
      ensures p.0 == "rec" ==> p.1 == "1"
    {
      var i :| 0 <= i < |rendered| && rendered[i] == p;
      UniqueGet(stamped, i);
      assert Primitive(Num(1)) == "1";
    }
  }

  lemma StampedSiteAndRec(entries: seq<Entry>, siteId: Value)
    ensures ("idsite", Primitive(siteId)) in Rendered(Stamp(entries, siteId))
    ensures ("rec", "1") in Rendered(Stamp(entries, siteId))
  {
    var stamped := Stamp(entries, siteId);
    StampFacts(entries, siteId);
    RenderedGet(stamped, "idsite");
    RenderedGet(stamped, "rec");
    assert Primitive(Num(1)) == "1";
  }

  lemma StampedOthers(entries: seq<Entry>, siteId: Value)
    ensures forall k :: k != "idsite" && k != "rec" && Get(entries, k).Some? ==>
      (k, Primitive(Get(entries, k).value)) in Rendered(Stamp(entries, siteId))
  {
    var stamped := Stamp(entries, siteId);
    StampFacts(entries, siteId);
    forall k | k != "idsite" && k != "rec" && Get(entries, k).Some?
      ensures (k, Primitive(Get(entries, k).value)) in Rendered(stamped)
    {
      RenderedGet(stamped, k);
    }
  }

  /** One element of the bulk `requests` array: `'?' + qs.stringify(query)`. */
  function Fragment(entries: seq<Entry>): string
  {
    "?" + Stringify(entries)
  }

  /** `JSON.stringify({requests: fragments})`. */
  function BulkBody(fragments: seq<string>): string
  {
    Json.ObjectWithStringArray("requests", fragments)
  }

  /** The option objects' current contents. */
  function EntriesOf(events: seq<OptionBag>): (r: seq<seq<Entry>>)
    reads events
    ensures |r| == |events|
    ensures forall i :: 0 <= i < |events| ==> r[i] == events[i].entries
  {
    if events == [] then [] else [events[0].entries] + EntriesOf(events[1..])
  }

  /** Every event stamped with the site id. */
  function StampAll(events: seq<seq<Entry>>, siteId: Value): (r: seq<seq<Entry>>)
    ensures |r| == |events|
  {
    if events == [] then [] else [Stamp(events[0], siteId)] + StampAll(events[1..], siteId)
  }

  lemma {:induction false} StampAllAt(events: seq<seq<Entry>>, siteId: Value, i: nat)
    requires i < |events|
    ensures StampAll(events, siteId)[i] == Stamp(events[i], siteId)
  {
    if i > 0 {
      StampAllAt(events[1..], siteId, i - 1);
    }
  }

  /** The bulk fragments of a list of events, each stamped with the site id. */
  function Fragments(events: seq<seq<Entry>>, siteId: Value): (r: seq<string>)
    ensures |r| == |events|
  {
    if events == [] then [] else [Fragment(Stamp(events[0], siteId))] + Fragments(events[1..], siteId)
  }

  lemma {:induction false} FragmentsAt(events: seq<seq<Entry>>, siteId: Value, i: nat)
    requires i < |events|
    ensures Fragments(events, siteId)[i] == Fragment(Stamp(events[i], siteId))
  {
    if i > 0 {
      FragmentsAt(events[1..], siteId, i - 1);
    }
  }

  /** Each fragment of the bulk body is `?` followed by a query the endpoint decodes to the stamped event. */
  lemma FragmentCarries(events: seq<seq<Entry>>, siteId: Value, i: nat)
    requires i < |events|
    ensures |Fragments(events, siteId)[i]| >= 1 && Fragments(events, siteId)[i][0] == '?'
    ensures Parse(Fragments(events, siteId)[i][1..]) == Some(Rendered(Stamp(events[i], siteId)))
  {
    FragmentsAt(events, siteId, i);
    var f := Fragments(events, siteId)[i];
    assert f[1..] == Stringify(Stamp(events[i], siteId));
    StringifyRoundTrip(Stamp(events[i], siteId));
  }

  /** The POST request of `trackBulk`: the JSON body, its content type and its UTF-8 byte length. */
  function BulkPost(agent: Agent, trackerUrl: string, fragments: seq<string>, hadListeners: bool, hasCallback: bool): Request
  {
    var body := BulkBody(fragments);
    HttpPost(agent, trackerUrl, "application/json", Utf8.ByteLength(body), body, hadListeners, hasCallback)
  }

  /** The `Content-Length` of a bulk request is the number of characters of its body. */
  lemma BulkPostLength(agent: Agent, trackerUrl: string, events: seq<seq<Entry>>, siteId: Value,
                       hadListeners: bool, hasCallback: bool)
    ensures BulkPost(agent, trackerUrl, Fragments(events, siteId), hadListeners, hasCallback).contentLength ==
      |BulkPost(agent, trackerUrl, Fragments(events, siteId), hadListeners, hasCallback).body|
  {
    BulkBodyIsPlain(events, siteId);
  }

  /** The characters of a fragment need no JSON escape and are ASCII. */
  lemma FragmentIsPlain(entries: seq<Entry>)
    ensures forall i :: 0 <= i < |Fragment(entries)| ==>
      Json.Plain(Fragment(entries)[i]) && Fragment(entries)[i] as int < 0x80
  {
    var q := Stringify(entries);
    var f := Fragment(entries);
    StringifyChars(entries);
    forall i | 0 <= i < |f| ensures Json.Plain(f[i]) && f[i] as int < 0x80 {
      if i > 0 {
        assert f[i] == q[i - 1];
        QueryCharIsPlain(q[i - 1]);
      }
    }
  }

  lemma QueryCharIsPlain(c: char)
    requires IsQueryChar(c)
    ensures Json.Plain(c) && c as int < 0x80
  {
  }

  /**
    Each fragment is written into the body between quotes without any
    escape, the body is ASCII, and so its UTF-8 byte length, the request's
    `Content-Length`, is its number of characters.
   */
  lemma BulkBodyIsPlain(events: seq<seq<Entry>>, siteId: Value)
    ensures forall i :: 0 <= i < |events| ==>
      Json.Quote(Fragments(events, siteId)[i]) == "\"" + Fragments(events, siteId)[i] + "\""
    ensures Utf8.ByteLength(BulkBody(Fragments(events, siteId))) == |BulkBody(Fragments(events, siteId))|
  {
    var fs := Fragments(events, siteId);
    forall i | 0 <= i < |fs|
      ensures Json.Quote(fs[i]) == "\"" + fs[i] + "\"" && Utf8.IsAscii(fs[i])
    {
      FragmentsAt(events, siteId, i);
      FragmentIsPlain(Stamp(events[i], siteId));
      Json.QuotePlain(fs[i]);
    }
    Json.ObjectAscii("requests", fs);
    Utf8.AsciiByteLength(BulkBody(fs));
  }

  /** With one event, the body is its one fragment between quotes inside `{"requests":[...]}`. */
  lemma SingleEventBody(event: seq<Entry>, siteId: Value)
    ensures BulkBody(Fragments([event], siteId)) ==
      "{\"requests\":[\"" + Fragment(Stamp(event, siteId)) + "\"]}"
  {
    var f := Fragment(Stamp(event, siteId));
    FragmentsAt([event], siteId, 0);
    assert Fragments([event], siteId) == [f];
    FragmentIsPlain(Stamp(event, siteId));
    SingleFragmentBody(f);
  }

  lemma SingleFragmentBody(f: string)
    requires forall i :: 0 <= i < |f| ==> Json.Plain(f[i])
    ensures BulkBody([f]) == "{\"requests\":[\"" + f + "\"]}"
  {
    Json.QuotePlain(f);
    Json.QuoteRequests();
    var open := "{" + ("\"" + "requests" + "\"") + ":[";
    assert BulkBody([f]) == open + ("\"" + f + "\"") + "]}";
    RegroupBody(open, "\"", f, "\"", "]}");
    BodyDelimiters();
  }

  lemma RegroupBody(a: string, b: string, c: string, d: string, e: string)
    ensures a + (b + c + d) + e == (a + b) + c + (d + e)
  {
  }

  lemma BodyDelimiters()
    ensures "{" + ("\"" + "requests" + "\"") + ":[" + "\"" == "{\"requests\":[\""
    ensures "\"" + "]}" == "\"]}"
  {
  }

  /**
    The `events.map(query => ...)` of `trackBulk`: stamps every event in
    place and collects its fragment. An object listed twice is stamped twice,
    which leaves it as stamping once does.
   */
  method StampAndSerialize(events: seq<OptionBag>, siteId: Value) returns (fragments: seq<string>)
    modifies events
    ensures fragments == Fragments(old(EntriesOf(events)), siteId)
    ensures forall i :: 0 <= i < |events| ==> events[i].entries == Stamp(old(events[i].entries), siteId)
  {
    ghost var before := EntriesOf(events);
    ghost var after := StampAll(before, siteId);
    ghost var expected := Fragments(before, siteId);
    assert forall j, k :: 0 <= j < |events| && 0 <= k < |events| && events[j] == events[k] ==> before[j] == before[k];
    fragments := [];
    var i := 0;
    while i < |events|
      invariant 0 <= i <= |events|
      invariant forall j :: 0 <= j < |events| ==> events[j].entries == after[j] || (i <= j && events[j].entries == before[j])
      invariant fragments == expected[..i]
    {
      FragmentsAt(before, siteId, i);
      var fragment := StampEventAt(events, i, siteId, before, after);
      PrefixSnoc(expected, i);
      fragments := fragments + [fragment];
      i := i + 1;
    }
    assert expected[..|events|] == expected;
    assert fragments == Fragments(old(EntriesOf(events)), siteId);
    StampAllEach(before, siteId);
    assert forall j :: 0 <= j < |events| ==> before[j] == old(events[j].entries);
  }

  lemma PrefixSnoc<T>(s: seq<T>, i: nat)
    requires i < |s|
    ensures s[..i + 1] == s[..i] + [s[i]]
  {
  }

  lemma StampAllEach(events: seq<seq<Entry>>, siteId: Value)
    ensures forall j :: 0 <= j < |events| ==> StampAll(events, siteId)[j] == Stamp(events[j], siteId)
  {
    forall j | 0 <= j < |events|
      ensures StampAll(events, siteId)[j] == Stamp(events[j], siteId)
    {
      StampAllAt(events, siteId, j);
    }
  }

  /**
    Turn i of the loop above. Events before i are stamped; events from i on
    are stamped or not yet, since an object may appear at several positions.
    Stamping `events[i]` stamps every position that holds the same object.
   */
  method StampEventAt(events: seq<OptionBag>, i: nat, siteId: Value, ghost before: seq<seq<Entry>>,
                      ghost after: seq<seq<Entry>>) returns (fragment: string)
    requires i < |events| == |before| == |after|
    requires after == StampAll(before, siteId)
    requires forall j :: 0 <= j < |events| && events[j] == events[i] ==> before[j] == before[i]
    requires forall j :: 0 <= j < |events| ==> events[j].entries == after[j] || (i <= j && events[j].entries == before[j])
    modifies events[i]
    ensures forall j :: 0 <= j < |events| ==> events[j].entries == after[j] || (i < j && events[j].entries == before[j])
    ensures fragment == Fragment(Stamp(before[i], siteId))
  {
    StampAllAt(before, siteId, i);
    StampAllEqual(before, siteId, i);
    fragment := StampStep(events[i], siteId, before[i], after[i]);
  }

  /** Equal events stamp to equal results. */
  lemma StampAllEqual(events: seq<seq<Entry>>, siteId: Value, i: nat)
    requires i < |events|
    ensures forall j :: 0 <= j < |events| && events[j] == events[i] ==>
      StampAll(events, siteId)[j] == StampAll(events, siteId)[i]
  {
    forall j | 0 <= j < |events| && events[j] == events[i]
      ensures StampAll(events, siteId)[j] == StampAll(events, siteId)[i]
    {
      StampAllAt(events, siteId, i);
      StampAllAt(events, siteId, j);
    }
  }

  /** One turn of the loop above: stamping an object that is already stamped changes nothing. */
  method StampStep(query: OptionBag, siteId: Value, ghost original: seq<Entry>, ghost stamped: seq<Entry>)
      returns (fragment: string)
    requires stamped == Stamp(original, siteId)
    requires query.entries == original || query.entries == stamped
    modifies query
    ensures query.entries == stamped
    ensures fragment == Fragment(stamped)
  {
    StampIdempotent(original, siteId);
    fragment := StampOne(query, siteId);
  }

  /** The callback of `events.map`: stamps one option object in place and serialises it. */
  method StampOne(query: OptionBag, siteId: Value) returns (fragment: string)
    modifies query
    ensures query.entries == Stamp(old(query.entries), siteId)
    ensures fragment == Fragment(query.entries)
  {
    query.Set("idsite", siteId);
    query.Set("rec", Num(1));
    fragment := Fragment(query.entries);
  }

  /** `Buffer.concat(chunks)`. */
  function Concat(chunks: seq<seq<Utf8.Byte>>): (r: seq<Utf8.Byte>)
    ensures chunks == [] ==> r == []
  {
    if chunks == [] then [] else chunks[0] + Concat(chunks[1..])
  }

  /** Concatenation is independent of where the chunks were cut. */
  lemma {:induction false} ConcatAppend(a: seq<seq<Utf8.Byte>>, b: seq<seq<Utf8.Byte>>)
    ensures Concat(a + b) == Concat(a) + Concat(b)
  {
    if a == [] {
      assert a + b == b;
    } else {
      assert (a + b)[1..] == a[1..] + b;
      ConcatAppend(a[1..], b);
      assert Concat(a + b) == a[0] + (Concat(a[1..]) + Concat(b));
    }
  }

  /**
    The bulk response handler's `data` array: every `data` chunk is pushed in
    arrival order, and at `end` the chunks are concatenated.
   */
  method CollectBody(chunks: seq<seq<Utf8.Byte>>) returns (output: seq<Utf8.Byte>)
    ensures output == Concat(chunks)
  {
    var data: seq<seq<Utf8.Byte>> := [];
    for i := 0 to |chunks|
      invariant data == chunks[..i]
    {
      data := data + [chunks[i]];
    }
    assert data == chunks;
    output := [];
    for i := 0 to |data|
      invariant output == Concat(data[..i])
    {
      ConcatAppend(data[..i], [data[i]]);
      assert data[..i + 1] == data[..i] + [data[i]];
      output := output + data[i];
    }
    assert data[..|data|] == data;
  }
}
