/**
  The settings dialog (EvolutionApiConfig.tsx): a form holding the record being edited and
  a busy flag, whose save action checks the three fields, writes them to the store, probes
  the gateway and reports the outcome.

  The world outside the form is made explicit. The store is a `LocalStorage` object; the
  gateway's answer to the probe is a parameter; notifications, the probe itself and the
  `onConfigSaved` callback are events appended, in the order they happen, to `events`.
 */
module EvolutionApiConfig {
  import opened Wrappers
  import opened ApiConfigs
  import opened Storage
  import JsonConfig

  /** Appended to the base URL as it stands: nothing strips a trailing slash. */
  const ProbePath: string := "/instance/fetchInstances"

  /** The request the probe issues. */
  datatype ProbeRequest = ProbeRequest(verb: string, url: string, headers: seq<(string, string)>)

  /** How the awaited probe settles: a response with `ok` set, one without, or a rejection. */
  datatype ProbeOutcome = ResponseOk | ResponseNotOk | Threw

  /** The notifications the form raises, by kind (their text is presentation). */
  datatype ToastKind =
    | MissingFields        // a required field is empty
    | SavedAndConnected    // the probe answered `ok`
    | SavedButRefused      // the probe answered, not `ok`
    | ConnectionError      // something inside the `try` threw

  /** What the form does to the world outside it. */
  datatype Event =
    | Toasted(kind: ToastKind)
    | Wrote(key: string, value: string)
    | Probed(request: ProbeRequest)
    | ConfigSaved(config: ApiConfig)   // `onConfigSaved` was called with this record

  /** The value of the first header called `name`. */
  function HeaderValue(headers: seq<(string, string)>, name: string): (r: Option<string>)
    ensures r.Some? <==> exists i :: 0 <= i < |headers| && headers[i].0 == name
    ensures r.Some? ==> exists i ::
              0 <= i < |headers| && headers[i] == (name, r.value)
              && forall j :: 0 <= j < i ==> headers[j].0 != name
  {
    if headers == [] then None
    else if headers[0].0 == name then Some(headers[0].1)
    else HeaderValue(headers[1..], name)
  }

  /** The probe `handleSave` issues for the record `c`. */
  function ProbeFor(c: ApiConfig): (r: ProbeRequest)
    ensures r.verb == "GET"
    ensures r.url == c.baseUrl + ProbePath
    ensures HeaderValue(r.headers, "apikey") == Some(c.apiKey)
    ensures HeaderValue(r.headers, "Content-Type") == Some("application/json")
  {
    ProbeRequest("GET", c.baseUrl + ProbePath,
      [("apikey", c.apiKey), ("Content-Type", "application/json")])
  }

  /** A base URL with a trailing slash yields a doubled slash in the probe URL. */
  lemma TrailingSlashIsKept(apiKey: string, instanceName: string)
    ensures ProbeFor(ApiConfig("http://h/", apiKey, instanceName)).url
         == "http://h//instance/fetchInstances"
  {
    assert "http://h/" + ProbePath == "http://h//instance/fetchInstances";
  }

  /** The events of `handleSave` up to its `await` (all of them when it does not reach it). */
  function BeginEvents(c: ApiConfig, writeThrows: bool): seq<Event>
  {
    if !IsComplete(c) then [Toasted(MissingFields)]
    else if writeThrows then [Toasted(ConnectionError)]
    else [Wrote(ConfigKey, JsonConfig.Stringify(c)), Probed(ProbeFor(c))]
  }

  /** The events of `handleSave` after the awaited probe settles. */
  function FinishEvents(c: ApiConfig, outcome: ProbeOutcome): seq<Event>
  {
    match outcome
    case ResponseOk => [Toasted(SavedAndConnected), ConfigSaved(c)]
    case ResponseNotOk => [Toasted(SavedButRefused)]
    case Threw => [Toasted(ConnectionError)]
  }

  /** Whether a save of `c` gets as far as issuing the probe. */
  predicate ReachesProbe(c: ApiConfig, writeThrows: bool)
  {
    IsComplete(c) && !writeThrows
  }

  /** A save that stops before the probe: one notification and nothing else. */
  lemma StoppedTrace(r: seq<Event>, k: ToastKind)
    requires r == [Toasted(k)]
    ensures !exists i :: 0 <= i < |r| && (r[i].ConfigSaved? || r[i].Wrote? || r[i].Probed?)
    ensures |r| == 1 && r[0].Toasted?
  {
  }

  /** A save that issues the probe: the write, the probe, then what the outcome brings. */
  lemma ProbedTrace(r: seq<Event>, c: ApiConfig, outcome: ProbeOutcome)
    requires r == [Wrote(ConfigKey, JsonConfig.Stringify(c)), Probed(ProbeFor(c))]
      + FinishEvents(c, outcome)
    ensures (exists i :: 0 <= i < |r| && r[i].ConfigSaved?) <==> outcome == ResponseOk
    ensures forall i :: 0 <= i < |r| && r[i].ConfigSaved? ==> r[i].config == c
    ensures forall i :: 0 <= i < |r| && r[i].Wrote? ==> r[i] == Wrote(ConfigKey, JsonConfig.Stringify(c))
    ensures r[0].Wrote?
    ensures forall j :: 0 <= j < |r| && r[j].Probed? ==> j == 1 && r[j].request == ProbeFor(c)
    ensures r[1].Probed?
    ensures r[2].Toasted? && forall i :: 0 <= i < |r| && r[i].Toasted? ==> i == 2
  {
    if outcome == ResponseOk {
      assert r[3].ConfigSaved?;
    }
  }

  /** Everything one uninterrupted `handleSave` of the record `c` does, in order. */
  function SaveTrace(c: ApiConfig, writeThrows: bool, outcome: ProbeOutcome): (r: seq<Event>)
    // an incomplete record: one notification, no write, no probe, no callback
    ensures !IsComplete(c) ==> r == [Toasted(MissingFields)]
    // the callback fires exactly when the probe answered `ok`, and carries `c`
    ensures (exists i :: 0 <= i < |r| && r[i].ConfigSaved?)
        <==> ReachesProbe(c, writeThrows) && outcome == ResponseOk
    ensures forall i :: 0 <= i < |r| && r[i].ConfigSaved? ==> r[i].config == c
    // the only write is that of `c` under the settings key, and it happens iff the probe does
    ensures forall i :: 0 <= i < |r| && r[i].Wrote? ==> r[i] == Wrote(ConfigKey, JsonConfig.Stringify(c))
    ensures (exists i :: 0 <= i < |r| && r[i].Wrote?) <==> ReachesProbe(c, writeThrows)
    // the probe is that of `c`, and the write has already happened when it is issued
    ensures forall j :: 0 <= j < |r| && r[j].Probed? ==>
              r[j].request == ProbeFor(c) && exists i :: 0 <= i < j && r[i].Wrote?
    ensures (exists j :: 0 <= j < |r| && r[j].Probed?) <==> ReachesProbe(c, writeThrows)
    // every path notifies the user exactly once
    ensures exists i :: 0 <= i < |r| && r[i].Toasted?
    ensures forall i, j :: 0 <= i < j < |r| && r[i].Toasted? ==> !r[j].Toasted?
  {
    var r := BeginEvents(c, writeThrows)
      + (if ReachesProbe(c, writeThrows) then FinishEvents(c, outcome) else []);
    if !ReachesProbe(c, writeThrows) then
      StoppedTrace(r, if !IsComplete(c) then MissingFields else ConnectionError);
      r
    else
      ProbedTrace(r, c, outcome);
      r
  }

  /** Where `handleSave` is after its synchronous part. */
  datatype SaveStart =
    | Rejected                      // the guard returned early
    | WriteThrew                    // the store refused the write; `catch` and `finally` ran
    | Probing(captured: ApiConfig)  // awaiting the probe; the record the handler closed over

  class ConfigForm {
    var config: ApiConfig
    var isLoading: bool
    var events: seq<Event>

    /** The initial state: three empty fields, not busy, nothing done yet. */
    constructor ()
      ensures config == ApiConfig("", "", "") && !isLoading && events == []
    {
      config := ApiConfig("", "", "");
      isLoading := false;
      events := [];
    }

    /** The mount effect: a stored record replaces the form's record. */
    method LoadFromStore(store: LocalStorage) returns (r: LoadResult)
      modifies this
      ensures r == LoadConfig(store.entries)
      ensures config == if r.Loaded? then r.config else old(config)
      ensures isLoading == old(isLoading) && events == old(events)
    {
      r := LoadConfig(store.entries);
      if r.Loaded? {
        config := r.config;
      }
    }

    /** Editing one input sets that field and no other. */
    method HandleInputChange(f: Field, v: string)
      modifies this
      ensures config == old(config).With(f, v)
      ensures config.Get(f) == v && forall g :: g != f ==> config.Get(g) == old(config).Get(g)
      ensures isLoading == old(isLoading) && events == old(events)
    {
      config := config.With(f, v);
    }

    /**
      The part of `handleSave` before its `await`: the guard, the busy flag, the
      unconditional write, and the probe being issued.
     */
    method BeginSave(store: LocalStorage, writeThrows: bool) returns (s: SaveStart)
      modifies this, store
      ensures events == old(events) + BeginEvents(old(config), writeThrows)
      ensures store.entries ==
        if ReachesProbe(old(config), writeThrows)
        then old(store.entries)[ConfigKey := JsonConfig.Stringify(old(config))]
        else old(store.entries)
      ensures s == if !IsComplete(old(config)) then Rejected
                   else if writeThrows then WriteThrew
                   else Probing(old(config))
      // busy exactly while the probe is pending; the guard leaves the flag alone
      ensures isLoading == if IsComplete(old(config)) then s.Probing? else old(isLoading)
      ensures config == old(config)
    {
      if !IsComplete(config) {
        events := events + [Toasted(MissingFields)];
        return Rejected;
      }
      isLoading := true;
      var threw := store.SetItem(ConfigKey, JsonConfig.Stringify(config), writeThrows);
      if threw {
        events := events + [Toasted(ConnectionError)];
        isLoading := false;
        return WriteThrew;
      }
      events := events + [Wrote(ConfigKey, JsonConfig.Stringify(config))];
      events := events + [Probed(ProbeFor(config))];
      s := Probing(config);
    }

    /**
      The part of `handleSave` after the probe settles. It reports on `captured`, the record
      the handler closed over, even if the fields were edited meanwhile; the store is not
      touched again, so a failed probe leaves the written record in place.
     */
    method FinishSave(captured: ApiConfig, outcome: ProbeOutcome) returns (saved: Option<ApiConfig>)
      modifies this
      ensures events == old(events) + FinishEvents(captured, outcome)
      ensures saved == if outcome == ResponseOk then Some(captured) else None
      ensures !isLoading && config == old(config)
    {
      match outcome {
        case ResponseOk =>
          events := events + [Toasted(SavedAndConnected)];
          events := events + [ConfigSaved(captured)];
          saved := Some(captured);
        case ResponseNotOk =>
          events := events + [Toasted(SavedButRefused)];
          saved := None;
        case Threw =>
          events := events + [Toasted(ConnectionError)];
          saved := None;
      }
      isLoading := false;
    }

    /**
      `handleSave` run to completion with nothing else happening during the probe. `saved` is
      the record passed to `onConfigSaved`, if it was called.
     */
    method HandleSave(store: LocalStorage, writeThrows: bool, outcome: ProbeOutcome)
      returns (saved: Option<ApiConfig>)
      modifies this, store
      ensures events == old(events) + SaveTrace(old(config), writeThrows, outcome)
      ensures store.entries ==
        if ReachesProbe(old(config), writeThrows)
        then old(store.entries)[ConfigKey := JsonConfig.Stringify(old(config))]
        else old(store.entries)
      ensures saved == if ReachesProbe(old(config), writeThrows) && outcome == ResponseOk
                       then Some(old(config)) else None
      ensures isLoading == if IsComplete(old(config)) then false else old(isLoading)
      ensures config == old(config)
    {
      var s := BeginSave(store, writeThrows);
      saved := None;
      if s.Probing? {
        saved := FinishSave(s.captured, outcome);
      }
    }
  }
}
