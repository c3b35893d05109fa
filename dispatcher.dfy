/**
 * The dispatcher (dispatcher.go): the public GET front end. It checks the
 * `url` form value against the compiled whitelist and hands the request to
 * the configured backend's Serve.
 */
module SharaqDispatcher {
  import opened Common

  /** A compiled whitelist pattern; matching it (regexp.MatchString) is an oracle. */
  datatype Regexp = Regexp(pattern: string)

  /** The Dispatcher struct, less its listener, logging and backend objects. */
  datatype Dispatcher = Dispatcher(whitelist: seq<Regexp>)

  /** An incoming request: its HTTP method and the raw `url` form value. */
  datatype Request = Request(httpMethod: string, rawUrl: string)

  /** What the handler did: answered the request itself, or called backend.Serve on it once. */
  datatype Fetched = Replied(events: seq<Event>) | Delegated

  /** The whitelist admits a URL when it is empty or when one of its patterns matches. */
  predicate Allowed(whitelist: seq<Regexp>, rawUrl: string, matches: (Regexp, string) -> bool)
  {
    |whitelist| == 0 || exists i :: 0 <= i < |whitelist| && matches(whitelist[i], rawUrl)
  }

  /**
   * NewDispatcher: compiles the configured patterns into a whitelist of the
   * same length, entry i from pattern i; the first pattern that fails to
   * compile makes the whole construction fail with its error.
   */
  method NewDispatcher(patterns: seq<string>, compile: string -> Result<Regexp>) returns (r: Result<Dispatcher>)
    ensures r.Ok? <==> forall i :: 0 <= i < |patterns| ==> compile(patterns[i]).Ok?
    ensures r.Ok? ==> |r.value.whitelist| == |patterns|
    ensures r.Ok? ==> forall i :: 0 <= i < |patterns| ==> r.value.whitelist[i] == compile(patterns[i]).value
    ensures r.Err? ==> exists i :: 0 <= i < |patterns| && compile(patterns[i]) == Err(r.msg)
                                   && forall j :: 0 <= j < i ==> compile(patterns[j]).Ok?
  {
    var whitelist := new Regexp[|patterns|];
    for i := 0 to |patterns|
      invariant forall k :: 0 <= k < i ==> compile(patterns[k]).Ok? && whitelist[k] == compile(patterns[k]).value
    {
      var re := compile(patterns[i]);
      if re.Err? {
        return Err(re.msg);
      }
      whitelist[i] := re.value;
    }
    r := Ok(Dispatcher(whitelist[..]));
  }

  /**
   * HandleFetch: an empty `url` is a 500 "Bad url"; a URL the whitelist does
   * not admit is a 403; any other request goes to the backend, once.
   */
  method HandleFetch(d: Dispatcher, rawUrl: string, matches: (Regexp, string) -> bool) returns (r: Fetched)
    ensures rawUrl == "" ==> r == Replied([HttpError("Bad url", 500)])
    ensures rawUrl != "" && !Allowed(d.whitelist, rawUrl, matches) ==>
      r == Replied([HttpError("Specified url not allowed", 403)])
    ensures rawUrl != "" && Allowed(d.whitelist, rawUrl, matches) ==> r == Delegated
  {
    if rawUrl == "" {
      return Replied([HttpError("Bad url", 500)]);
    }
    var allowed := false;
    if |d.whitelist| == 0 {
      allowed := true;
    } else {
      var i := 0;
      while i < |d.whitelist|
        invariant 0 <= i <= |d.whitelist|
        invariant !allowed
        invariant forall k :: 0 <= k < i ==> !matches(d.whitelist[k], rawUrl)
      {
        if matches(d.whitelist[i], rawUrl) {
          allowed := true;
          break;
        }
        i := i + 1;
      }
    }
    if !allowed {
      return Replied([HttpError("Specified url not allowed", 403)]);
    }
    r := Delegated;
  }

  /** ServeHTTP: GET goes to HandleFetch; every other method is a 400. */
  method ServeHttp(d: Dispatcher, req: Request, matches: (Regexp, string) -> bool) returns (r: Fetched)
    ensures req.httpMethod != "GET" ==> r == Replied([HttpError("What, what, what?", 400)])
    ensures req.httpMethod == "GET" && req.rawUrl == "" ==> r == Replied([HttpError("Bad url", 500)])
    ensures req.httpMethod == "GET" && req.rawUrl != "" ==>
      (r == Delegated <==> Allowed(d.whitelist, req.rawUrl, matches))
    ensures req.httpMethod == "GET" && req.rawUrl != "" && !Allowed(d.whitelist, req.rawUrl, matches) ==>
      r == Replied([HttpError("Specified url not allowed", 403)])
  {
    if req.httpMethod == "GET" {
      r := HandleFetch(d, req.rawUrl, matches);
    } else {
      r := Replied([HttpError("What, what, what?", 400)]);
    }
  }
}
