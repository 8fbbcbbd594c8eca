/** The analytics client: a payload describing one hit is mapped to the form
    parameters of the Google Analytics Measurement Protocol and posted to the
    collection endpoint. */
module Analytics {
  import opened Wrappers
  import opened UrlValues

  const ApiEndpoint := "https://ssl.google-analytics.com/collect"
  const ProtocolVersion := "1"
  const DefaultClientVersion := "1"
  const DefaultTrackingId := "UA-21815217-2"
  const DefaultClientId := "555"

  /** The two hit types the client knows; a payload's hit type is any string. */
  const PageViewType := "pageview"
  const EventType := "event"

  const FormContentType := "application/x-www-form-urlencoded"

  /** `label` is a reserved word in Dafny, hence `eventLabel` for Go's `Label`. */
  datatype Event = Event(category: string, action: string, eventLabel: string, value: string)

  /** One trackable occurrence. A nil event is `None`. */
  class Payload {
    var clientId: string
    var clientVersion: string
    var viewPortSize: string
    var trackingId: string
    var language: string
    var screenColors: string
    var screenResolution: string
    var hostname: string
    var hitType: string
    var customVars: map<string, string>
    var userAgent: string
    var event: Option<Event>

    constructor (clientId: string, clientVersion: string, viewPortSize: string,
                 trackingId: string, language: string, screenColors: string,
                 screenResolution: string, hostname: string, hitType: string,
                 customVars: map<string, string>, userAgent: string, event: Option<Event>)
      ensures this.clientId == clientId && this.clientVersion == clientVersion
      ensures this.viewPortSize == viewPortSize && this.trackingId == trackingId
      ensures this.language == language && this.screenColors == screenColors
      ensures this.screenResolution == screenResolution && this.hostname == hostname
      ensures this.hitType == hitType && this.customVars == customVars
      ensures this.userAgent == userAgent && this.event == event
    {
      this.clientId := clientId;
      this.clientVersion := clientVersion;
      this.viewPortSize := viewPortSize;
      this.trackingId := trackingId;
      this.language := language;
      this.screenColors := screenColors;
      this.screenResolution := screenResolution;
      this.hostname := hostname;
      this.hitType := hitType;
      this.customVars := customVars;
      this.userAgent := userAgent;
      this.event := event;
    }
  }

  // ---------------------------------------------------------------------
  // The emission table: for every parameter name, the values a payload
  // contributes under it.
  // ---------------------------------------------------------------------

  /** The parameter names the mapper itself writes (custom variables aside). */
  const StandardKeys: set<string> :=
    {"v", "_v", "tid", "cid", "sr", "ul", "dh", "t", "ec", "ea", "el", "ev"}

  /** A field emitted only when it is non-empty. */
  function IfNonEmpty(s: string): seq<string>
  {
    if s == "" then [] else [s]
  }

  /** The event branch is taken for an event hit that carries an event. */
  predicate IsEventHit(p: Payload)
    reads p
  {
    p.hitType == EventType && p.event.Some?
  }

  /** The "default payload" rows: the protocol version, always, and five
      payload fields, each only when non-empty. */
  function DefaultValues(p: Payload, key: string): seq<string>
    reads p
  {
    if key == "v" then [ProtocolVersion]
    else if key == "_v" then IfNonEmpty(p.clientVersion)
    else if key == "tid" then IfNonEmpty(p.trackingId)
    else if key == "cid" then IfNonEmpty(p.clientId)
    else if key == "sr" then IfNonEmpty(p.screenResolution)
    else if key == "ul" then IfNonEmpty(p.language)
    else []
  }

  /** The hostname and the hit type, always, even when empty. */
  function HitValues(p: Payload, key: string): seq<string>
    reads p
  {
    if key == "dh" then [p.hostname]
    else if key == "t" then [p.hitType]
    else []
  }

  /** The event rows: category and action for every event hit, label and
      value only when non-empty; nothing for any other hit. */
  function EventValues(p: Payload, key: string): seq<string>
    reads p
  {
    if !IsEventHit(p) then []
    else if key == "ec" then [p.event.value.category]
    else if key == "ea" then [p.event.value.action]
    else if key == "el" then IfNonEmpty(p.event.value.eventLabel)
    else if key == "ev" then IfNonEmpty(p.event.value.value)
    else []
  }

  /** The values the fixed schema writes under `key`: the default, hit and
      event sections, in the order the mapper adds them. */
  function StandardValues(p: Payload, key: string): seq<string>
    reads p
  {
    DefaultValues(p, key) + HitValues(p, key) + EventValues(p, key)
  }

  /** Each schema name belongs to exactly one section, so its row is that
      section's row; every other name has an empty row. */
  lemma SectionRow(p: Payload, key: string)
    ensures key in {"v", "_v", "tid", "cid", "sr", "ul"} ==> StandardValues(p, key) == DefaultValues(p, key)
    ensures key in {"dh", "t"} ==> StandardValues(p, key) == HitValues(p, key)
    ensures key in {"ec", "ea", "el", "ev"} ==> StandardValues(p, key) == EventValues(p, key)
    ensures key !in StandardKeys ==> StandardValues(p, key) == []
  {
    if key in {"v", "_v", "tid", "cid", "sr", "ul"} {
      assert HitValues(p, key) == [] && EventValues(p, key) == [];
    } else if key in {"dh", "t"} {
      assert DefaultValues(p, key) == [] && EventValues(p, key) == [];
    } else {
      assert DefaultValues(p, key) == [] && HitValues(p, key) == [];
    }
  }

  /** The value a custom variable contributes under its own name, if non-empty. */
  function CustomValues(customVars: map<string, string>, key: string): seq<string>
  {
    if key in customVars then IfNonEmpty(customVars[key]) else []
  }

  /** What the custom variables visited so far (all but `remaining`) wrote under `key`. */
  function DoneValues(customVars: map<string, string>, remaining: set<string>, key: string): seq<string>
  {
    if key in remaining then [] else CustomValues(customVars, key)
  }

  /** Everything written under `key`: the schema's value first, then the
      custom variable of the same name (adding never replaces). */
  function ParamValues(p: Payload, key: string): seq<string>
    reads p
  {
    StandardValues(p, key) + CustomValues(p.customVars, key)
  }

  /** The names under which something is written. */
  ghost function EmittedKeys(p: Payload): set<string>
    reads p
  {
    set key | key in StandardKeys + p.customVars.Keys && ParamValues(p, key) != []
  }

  /** The parameter multimap of a payload, as the emission table defines it. */
  ghost function Params(p: Payload): (vals: Values)
    reads p
    ensures forall key :: Get(vals, key) == ParamValues(p, key)
    ensures WellFormed(vals)
  {
    map key | key in EmittedKeys(p) :: ParamValues(p, key)
  }


  /** The omit-when-empty rule: `value` is added under `key` only when it is
      non-empty; nothing else changes. */
  method AddIfNonEmpty(vals: Values, key: string, value: string) returns (r: Values)
    ensures Get(r, key) == Get(vals, key) + IfNonEmpty(value)
    ensures forall other :: other != key ==> Get(r, other) == Get(vals, other)
    ensures WellFormed(vals) ==> WellFormed(r)
  {
    r := vals;
    if value != "" {
      r := Add(r, key, value);
    }
    forall other | other != key
      ensures Get(r, other) == Get(vals, other)
    {
      AddKeepsOtherKeys(vals, key, value, other);
    }
  }

  /** A fresh multimap holding the "default payload" section: the protocol
      version, then each of five fields when it is non-empty. */
  method DefaultParams(payload: Payload) returns (r: Values)
    ensures forall key :: Get(r, key) == DefaultValues(payload, key)
    ensures WellFormed(r)
  {
    r := Add(map[], "v", ProtocolVersion);
    ghost var r0 := r;
    r := AddIfNonEmpty(r, "_v", payload.clientVersion);
    ghost var r1 := r;
    r := AddIfNonEmpty(r, "tid", payload.trackingId);
    ghost var r2 := r;
    r := AddIfNonEmpty(r, "cid", payload.clientId);
    ghost var r3 := r;
    r := AddIfNonEmpty(r, "sr", payload.screenResolution);
    ghost var r4 := r;
    r := AddIfNonEmpty(r, "ul", payload.language);
    forall key
      ensures Get(r, key) == DefaultValues(payload, key)
    {
      if key == "v" {
        assert Get(r, key) == Get(r0, key) == [ProtocolVersion];
      } else {
        assert Get(r0, key) == [] by { AddKeepsOtherKeys(map[], "v", ProtocolVersion, key); }
        if key == "_v" {
          assert Get(r, key) == Get(r1, key);
        } else if key == "tid" {
          assert Get(r, key) == Get(r2, key);
          assert Get(r1, key) == [];
        } else if key == "cid" {
          assert Get(r, key) == Get(r3, key);
          assert Get(r2, key) == [];
        } else if key == "sr" {
          assert Get(r, key) == Get(r4, key);
          assert Get(r3, key) == [];
        } else if key == "ul" {
          assert Get(r4, key) == [];
        } else {
          assert Get(r, key) == [];
        }
      }
    }
  }

  /** The hostname and the hit type, added unconditionally, even when empty. */
  method AddHitParams(vals: Values, payload: Payload) returns (r: Values)
    ensures forall key :: Get(r, key) == Get(vals, key) + HitValues(payload, key)
    ensures WellFormed(vals) ==> WellFormed(r)
  {
    r := Add(vals, "dh", payload.hostname);
    ghost var r0 := r;
    r := Add(r, "t", payload.hitType);
    forall key
      ensures Get(r, key) == Get(vals, key) + HitValues(payload, key)
    {
      if key != "t" { AddKeepsOtherKeys(r0, "t", payload.hitType, key); }
      if key != "dh" { AddKeepsOtherKeys(vals, "dh", payload.hostname, key); }
    }
  }

  /** The event section, taken only for an event hit that carries an event:
      category and action always, label and value when non-empty. */
  method AddEventParams(vals: Values, payload: Payload) returns (r: Values)
    ensures forall key :: Get(r, key) == Get(vals, key) + EventValues(payload, key)
    ensures WellFormed(vals) ==> WellFormed(r)
  {
    r := vals;
    if payload.hitType == EventType && payload.event.Some? {
      var event := payload.event.value;
      r := Add(r, "ec", event.category);
      ghost var r0 := r;
      r := Add(r, "ea", event.action);
      ghost var r1 := r;
      r := AddIfNonEmpty(r, "el", event.eventLabel);
      ghost var r2 := r;
      r := AddIfNonEmpty(r, "ev", event.value);
      forall key
        ensures Get(r, key) == Get(vals, key) + EventValues(payload, key)
      {
        if key != "ea" { AddKeepsOtherKeys(r0, "ea", event.action, key); }
        if key != "ec" { AddKeepsOtherKeys(vals, "ec", event.category, key); }
        if key == "ec" {
          assert Get(r, key) == Get(r0, key) == Get(vals, key) + [event.category];
        } else if key == "ea" {
          assert Get(r, key) == Get(r1, key) == Get(vals, key) + [event.action];
        } else if key == "el" {
          assert Get(r, key) == Get(r2, key) == Get(vals, key) + IfNonEmpty(event.eventLabel);
        } else if key == "ev" {
          assert Get(r2, key) == Get(vals, key);
        } else {
          assert Get(r, key) == Get(vals, key);
        }
      }
    }
  }

  /** The loop over the custom variables: each one with a non-empty value is
      added under its own name, in whatever order the map is visited. */
  method AddCustomVars(vals: Values, customVars: map<string, string>) returns (r: Values)
    ensures forall key :: Get(r, key) == Get(vals, key) + CustomValues(customVars, key)
    ensures WellFormed(vals) ==> WellFormed(r)
  {
    r := vals;
    var remaining := customVars.Keys;
    while remaining != {}
      invariant remaining <= customVars.Keys
      invariant WellFormed(vals) ==> WellFormed(r)
      invariant forall key :: Get(r, key) == Get(vals, key) + DoneValues(customVars, remaining, key)
      decreases remaining
    {
      var dim :| dim in remaining;
      var customVar := customVars[dim];
      ghost var before := r;
      r := AddIfNonEmpty(r, dim, customVar);
      remaining := remaining - {dim};
      forall key
        ensures Get(r, key) == Get(vals, key) + DoneValues(customVars, remaining, key)
      {
        if key == dim {
          assert Get(before, key) == Get(vals, key);
          assert DoneValues(customVars, remaining, key) == IfNonEmpty(customVar);
        } else {
          assert Get(r, key) == Get(before, key);
        }
      }
    }
  }

  /** `collectArgs`: builds the parameter multimap of `payload` section by
      section. Whatever order the custom variables are visited in, the result
      is the one the emission table prescribes. */
  method CollectArgs(payload: Payload) returns (vals: Values)
    ensures vals == Params(payload)
  {
    vals := DefaultParams(payload);
    vals := AddHitParams(vals, payload);
    vals := AddEventParams(vals, payload);
    vals := AddCustomVars(vals, payload.customVars);
    SameValuesSameMultimap(vals, Params(payload));
  }

  // ---------------------------------------------------------------------
  // What the emission table promises
  // ---------------------------------------------------------------------

  /** No custom variable with a non-empty value is named `key`. */
  predicate Unclaimed(p: Payload, key: string)
    reads p
  {
    CustomValues(p.customVars, key) == []
  }

  /** Membership and values of `Params`, for one name. */
  lemma InParams(p: Payload, key: string)
    ensures Get(Params(p), key) == ParamValues(p, key)
    ensures key in Params(p) <==> ParamValues(p, key) != []
    ensures key in Params(p) ==> Params(p)[key] == ParamValues(p, key)
  {
    assert Get(Params(p), key) == ParamValues(p, key);
  }

  /** The protocol version is always sent, as the first value under `v`. */
  lemma ProtocolVersionAlwaysSent(p: Payload)
    ensures "v" in Params(p)
    ensures Params(p)["v"][0] == ProtocolVersion
  {
    assert Get(Params(p), "v") == [ProtocolVersion] + CustomValues(p.customVars, "v");
  }

  /** The five optional fields are sent exactly when they are non-empty, and
      then verbatim, each unless a custom variable of its own name adds a
      value there too. */
  lemma OptionalFieldsSentIffNonEmpty(p: Payload)
    ensures Unclaimed(p, "_v") ==>
      ("_v" in Params(p) <==> p.clientVersion != "") && ("_v" in Params(p) ==> Params(p)["_v"] == [p.clientVersion])
    ensures Unclaimed(p, "tid") ==>
      ("tid" in Params(p) <==> p.trackingId != "") && ("tid" in Params(p) ==> Params(p)["tid"] == [p.trackingId])
    ensures Unclaimed(p, "cid") ==>
      ("cid" in Params(p) <==> p.clientId != "") && ("cid" in Params(p) ==> Params(p)["cid"] == [p.clientId])
    ensures Unclaimed(p, "sr") ==>
      ("sr" in Params(p) <==> p.screenResolution != "") && ("sr" in Params(p) ==> Params(p)["sr"] == [p.screenResolution])
    ensures Unclaimed(p, "ul") ==>
      ("ul" in Params(p) <==> p.language != "") && ("ul" in Params(p) ==> Params(p)["ul"] == [p.language])
  {
    InParams(p, "_v");
    InParams(p, "tid");
    InParams(p, "cid");
    InParams(p, "sr");
    InParams(p, "ul");
    SectionRow(p, "_v");
    SectionRow(p, "tid");
    SectionRow(p, "cid");
    SectionRow(p, "sr");
    SectionRow(p, "ul");
    assert StandardValues(p, "_v") == IfNonEmpty(p.clientVersion);
    assert StandardValues(p, "tid") == IfNonEmpty(p.trackingId);
    assert StandardValues(p, "cid") == IfNonEmpty(p.clientId);
    assert StandardValues(p, "sr") == IfNonEmpty(p.screenResolution);
    assert StandardValues(p, "ul") == IfNonEmpty(p.language);
  }

  /** The hostname and the hit type are always sent, even when empty. */
  lemma HostnameAndHitTypeAlwaysSent(p: Payload)
    ensures "dh" in Params(p) && Params(p)["dh"][0] == p.hostname
    ensures "t" in Params(p) && Params(p)["t"][0] == p.hitType
  {
    assert Get(Params(p), "dh") == [p.hostname] + CustomValues(p.customVars, "dh");
    assert Get(Params(p), "t") == [p.hitType] + CustomValues(p.customVars, "t");
  }

  /** Category and action are sent exactly for an event hit with an event,
      even when empty; label and value in addition only when non-empty. */
  lemma EventParamsIffEventHit(p: Payload)
    ensures Unclaimed(p, "ec") ==> ("ec" in Params(p) <==> IsEventHit(p))
    ensures Unclaimed(p, "ea") ==> ("ea" in Params(p) <==> IsEventHit(p))
    ensures Unclaimed(p, "el") ==> ("el" in Params(p) <==> IsEventHit(p) && p.event.value.eventLabel != "")
    ensures Unclaimed(p, "ev") ==> ("ev" in Params(p) <==> IsEventHit(p) && p.event.value.value != "")
    ensures Unclaimed(p, "ec") && IsEventHit(p) ==> Params(p)["ec"] == [p.event.value.category]
    ensures Unclaimed(p, "ea") && IsEventHit(p) ==> Params(p)["ea"] == [p.event.value.action]
    ensures Unclaimed(p, "el") && "el" in Params(p) ==> Params(p)["el"] == [p.event.value.eventLabel]
    ensures Unclaimed(p, "ev") && "ev" in Params(p) ==> Params(p)["ev"] == [p.event.value.value]
  {
    SchemaOnly(p, "ec");
    SchemaOnly(p, "ea");
    SchemaOnly(p, "el");
    SchemaOnly(p, "ev");
    EventRows(p);
  }

  /** The schema rows of the four event names. */
  lemma EventRows(p: Payload)
    ensures StandardValues(p, "ec") == if IsEventHit(p) then [p.event.value.category] else []
    ensures StandardValues(p, "ea") == if IsEventHit(p) then [p.event.value.action] else []
    ensures StandardValues(p, "el") == if IsEventHit(p) then IfNonEmpty(p.event.value.eventLabel) else []
    ensures StandardValues(p, "ev") == if IsEventHit(p) then IfNonEmpty(p.event.value.value) else []
  {
    SectionRow(p, "ec");
    SectionRow(p, "ea");
    SectionRow(p, "el");
    SectionRow(p, "ev");
  }

  /** A non-empty tracking id and client id are each sent, first under
      their own names, whatever the custom variables add. */
  lemma IdsSentFirst(p: Payload)
    requires p.trackingId != "" && p.clientId != ""
    ensures "tid" in Params(p) && Params(p)["tid"][0] == p.trackingId
    ensures "cid" in Params(p) && Params(p)["cid"][0] == p.clientId
  {
    SectionRow(p, "tid");
    SectionRow(p, "cid");
    InParams(p, "tid");
    InParams(p, "cid");
    assert StandardValues(p, "tid") == [p.trackingId];
    assert StandardValues(p, "cid") == [p.clientId];
  }

  /** A name no custom variable claims holds exactly its schema row. */
  lemma SchemaOnly(p: Payload, key: string)
    ensures Unclaimed(p, key) ==> (key in Params(p) <==> StandardValues(p, key) != [])
    ensures Unclaimed(p, key) && key in Params(p) ==> Params(p)[key] == StandardValues(p, key)
  {
    InParams(p, key);
  }

  /** A page view, or an event hit without an event, gets nothing from the
      event branch: whatever stands under an event name came from a custom
      variable of that name. */
  lemma NoEventParamsWithoutEvent(p: Payload)
    requires p.hitType != EventType || p.event.None?
    ensures Get(Params(p), "ec") == CustomValues(p.customVars, "ec")
    ensures Get(Params(p), "ea") == CustomValues(p.customVars, "ea")
    ensures Get(Params(p), "el") == CustomValues(p.customVars, "el")
    ensures Get(Params(p), "ev") == CustomValues(p.customVars, "ev")
  {
    assert !IsEventHit(p);
    SectionRow(p, "ec");
    SectionRow(p, "ea");
    SectionRow(p, "el");
    SectionRow(p, "ev");
    assert StandardValues(p, "ec") == [] && StandardValues(p, "ea") == [];
    assert StandardValues(p, "el") == [] && StandardValues(p, "ev") == [];
    InParams(p, "ec");
    InParams(p, "ea");
    InParams(p, "el");
    InParams(p, "ev");
  }

  /** A custom variable with a non-empty value is added under its own name,
      unchanged and after whatever the schema wrote there (a clash with a
      standard name keeps both); an empty one adds nothing. */
  lemma CustomVarAppended(p: Payload, key: string)
    requires key in p.customVars
    ensures p.customVars[key] != "" ==>
      key in Params(p) && Params(p)[key] == StandardValues(p, key) + [p.customVars[key]]
    ensures p.customVars[key] == "" ==> Get(Params(p), key) == StandardValues(p, key)
  {
    assert Get(Params(p), key) == StandardValues(p, key) + IfNonEmpty(p.customVars[key]);
  }

  /** Nothing is sent under a name that is neither the schema's nor that of
      a non-empty custom variable. */
  lemma OnlyKnownNamesSent(p: Payload)
    ensures forall key :: key in Params(p) ==>
      key in StandardKeys || (key in p.customVars && p.customVars[key] != "")
  {
    forall key | key in Params(p)
      ensures key in StandardKeys || (key in p.customVars && p.customVars[key] != "")
    {
      if key !in StandardKeys {
        SectionRow(p, key);
      }
    }
  }

  /** The viewport size, the screen colours and the user agent never reach
      the parameters: payloads that differ only in them send the same ones. */
  lemma IgnoredFieldsNeverSent(p: Payload, q: Payload)
    requires p.clientId == q.clientId && p.clientVersion == q.clientVersion
    requires p.trackingId == q.trackingId && p.language == q.language
    requires p.screenResolution == q.screenResolution && p.hostname == q.hostname
    requires p.hitType == q.hitType && p.customVars == q.customVars && p.event == q.event
    ensures Params(p) == Params(q)
  {
    forall key
      ensures Get(Params(p), key) == Get(Params(q), key)
    {
      assert StandardValues(p, key) == StandardValues(q, key);
    }
    SameValuesSameMultimap(Params(p), Params(q));
  }

  /** A page view naming only its host sends exactly `v=1`, `dh` and `t`. */
  lemma MinimalPageView(p: Payload)
    requires p.hostname == "example.com" && p.hitType == PageViewType
    requires p.clientVersion == "" && p.trackingId == "" && p.clientId == ""
    requires p.screenResolution == "" && p.language == "" && p.customVars == map[]
    ensures Params(p) == map["v" := ["1"], "dh" := ["example.com"], "t" := [PageViewType]]
  {
    var expected := map["v" := ["1"], "dh" := ["example.com"], "t" := [PageViewType]];
    forall key
      ensures Get(Params(p), key) == Get(expected, key)
    {
      MinimalPageViewRow(p, key);
    }
    SameValuesSameMultimap(Params(p), expected);
  }

  /** One name of the minimal page view. */
  lemma MinimalPageViewRow(p: Payload, key: string)
    requires p.hostname == "example.com" && p.hitType == PageViewType
    requires p.clientVersion == "" && p.trackingId == "" && p.clientId == ""
    requires p.screenResolution == "" && p.language == "" && p.customVars == map[]
    ensures Get(Params(p), key) == Get(map["v" := ["1"], "dh" := ["example.com"], "t" := [PageViewType]], key)
  {
    assert !IsEventHit(p);
    SectionRow(p, key);
    assert Get(Params(p), key) == StandardValues(p, key) + [];
    if key == "v" {
      assert StandardValues(p, key) == ["1"];
    } else if key == "dh" {
      assert StandardValues(p, key) == ["example.com"];
    } else if key == "t" {
      assert StandardValues(p, key) == [PageViewType];
    } else {
      assert StandardValues(p, key) == [];
    }
  }

  // ---------------------------------------------------------------------
  // Sending
  // ---------------------------------------------------------------------

  datatype Header = Header(name: string, value: string)

  /** An outgoing HTTP request: its form body is the parameter multimap,
      before it is encoded. */
  datatype Request = Request(httpMethod: string, url: string, headers: seq<Header>, form: Values)

  /** Whatever response came back; its status code is never inspected. */
  datatype Response = Response(statusCode: int)

  /** An HTTP client, reduced to the one call the sender makes: a request
      either gets a response or fails with a transport error. */
  type HttpClient = Request -> Result<Response>

  /** The headers of the request: the form content type, then the user agent
      when the payload carries one. */
  function RequestHeaders(userAgent: string): seq<Header>
  {
    [Header("Content-Type", FormContentType)] +
    (if userAgent != "" then [Header("User-Agent", userAgent)] else [])
  }

  /** The request the sender posts for a payload. */
  ghost function OutgoingRequest(p: Payload): Request
    reads p
  {
    Request("POST", ApiEndpoint, RequestHeaders(p.userAgent), Params(p))
  }

  /** The client used: the one supplied, else the shared default. */
  function ChooseClient(httpClient: Option<HttpClient>, defaultClient: HttpClient): HttpClient
  {
    if httpClient.Some? then httpClient.value else defaultClient
  }

  /** The sender's report of a delivery: any response at all is a success
      with no error; a transport failure is reported with its error. */
  predicate Reports(outcome: Result<Response>, status: bool, err: Option<string>)
  {
    if outcome.Success? then status && err.None? else !status && err == Some(outcome.error)
  }

  /** The request always carries the form content type, and carries a user
      agent exactly when the payload has a non-empty one, then verbatim. */
  lemma RequestHeadersCarryUserAgent(userAgent: string)
    ensures Header("Content-Type", FormContentType) in RequestHeaders(userAgent)
    ensures (exists h :: h in RequestHeaders(userAgent) && h.name == "User-Agent") <==> userAgent != ""
    ensures forall h :: h in RequestHeaders(userAgent) && h.name == "User-Agent" ==> h.value == userAgent
  {
    var headers := RequestHeaders(userAgent);
    assert headers[0] == Header("Content-Type", FormContentType);
    if userAgent != "" {
      assert headers[1] == Header("User-Agent", userAgent);
    }
  }

  /** `SendRequest`: posts the payload's parameters to the collection
      endpoint with the chosen client. Success means only that a response
      arrived, whatever its status code. */
  method SendRequest(httpClient: Option<HttpClient>, defaultClient: HttpClient, payload: Payload)
    returns (status: bool, err: Option<string>)
    ensures Reports(ChooseClient(httpClient, defaultClient)(OutgoingRequest(payload)), status, err)
  {
    var client := defaultClient;
    if httpClient.Some? {
      client := httpClient.value;
    }
    var args := CollectArgs(payload);
    var headers := [Header("Content-Type", FormContentType)];
    if payload.userAgent != "" {
      headers := headers + [Header("User-Agent", payload.userAgent)];
    }
    assert headers == RequestHeaders(payload.userAgent);
    var request := Request("POST", ApiEndpoint, headers, args);
    assert client == ChooseClient(httpClient, defaultClient);
    assert request == OutgoingRequest(payload);
    var outcome := client(request);
    if outcome.Failure? {
      return false, Some(outcome.error);
    }
    return true, None;
  }

  /** `UIEvent`: sends the payload as it is; it has no licence to change it. */
  method UIEvent(httpClient: Option<HttpClient>, defaultClient: HttpClient, payload: Payload)
    returns (status: bool, err: Option<string>)
    ensures Reports(ChooseClient(httpClient, defaultClient)(OutgoingRequest(payload)), status, err)
  {
    status, err := SendRequest(httpClient, defaultClient, payload);
  }

  /** `SessionEvent`: fills in the default tracking id when there is none,
      always overwrites the client id with the default one, leaves every
      other field alone, and sends the updated payload. */
  method SessionEvent(httpClient: Option<HttpClient>, defaultClient: HttpClient, payload: Payload)
    returns (status: bool, err: Option<string>)
    modifies payload
    ensures payload.trackingId == if old(payload.trackingId) == "" then DefaultTrackingId else old(payload.trackingId)
    ensures payload.clientId == DefaultClientId
    ensures payload.clientVersion == old(payload.clientVersion)
    ensures payload.viewPortSize == old(payload.viewPortSize)
    ensures payload.language == old(payload.language)
    ensures payload.screenColors == old(payload.screenColors)
    ensures payload.screenResolution == old(payload.screenResolution)
    ensures payload.hostname == old(payload.hostname)
    ensures payload.hitType == old(payload.hitType)
    ensures payload.customVars == old(payload.customVars)
    ensures payload.userAgent == old(payload.userAgent)
    ensures payload.event == old(payload.event)
    ensures "tid" in Params(payload) && Params(payload)["tid"][0] == payload.trackingId
    ensures "cid" in Params(payload) && Params(payload)["cid"][0] == DefaultClientId
    ensures Reports(ChooseClient(httpClient, defaultClient)(OutgoingRequest(payload)), status, err)
  {
    if payload.trackingId == "" {
      payload.trackingId := DefaultTrackingId;
    }
    payload.clientId := DefaultClientId;
    IdsSentFirst(payload);
    status, err := SendRequest(httpClient, defaultClient, payload);
  }
}
