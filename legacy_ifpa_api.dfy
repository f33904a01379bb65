/** The older deferred-based IFPA client: its status-code messages, the
    request of getCalendarEvents, and the loop that rewrites the calendar of
    a reply in place into a dictionary keyed by calendar id. */
module LegacyIfpaApi {
  import opened JsValues
  import opened Calendar

  const GenericError := "An error occured while accessing IFPA API"
  const UnknownStatusPrefix := "Got HTTP status code "

  /** The status codes the switch names. */
  predicate NamedStatus(n: int) {
    n == 400 || n == 401 || n == 404 || n == 405 || n == 429 || n == 500
  }

  /** getIfpaError as written: the 405 case has no `break`, so its message is
      overwritten by the 429 case's. */
  function IfpaError(httpStatusCode: Value): (message: string)
    ensures !httpStatusCode.Num? ==> message == GenericError
    ensures httpStatusCode == Num(400) ==> message == "A parameter is missing or is invalid"
    ensures httpStatusCode == Num(401) ==> message == "Authentication failed"
    ensures httpStatusCode == Num(404) ==> message == "Resource cannot be found"
    ensures httpStatusCode == Num(405) || httpStatusCode == Num(429) ==> message == "Rate limit exceeded"
    ensures httpStatusCode == Num(500) ==> message == "Server error"
    ensures httpStatusCode.Num? && !NamedStatus(httpStatusCode.n) ==>
      message == UnknownStatusPrefix + NumberToString(httpStatusCode.n)
  {
    match httpStatusCode
    case Num(code) =>
      if code == 400 then "A parameter is missing or is invalid"
      else if code == 401 then "Authentication failed"
      else if code == 404 then "Resource cannot be found"
      else if code == 405 || code == 429 then "Rate limit exceeded"
      else if code == 500 then "Server error"
      else UnknownStatusPrefix + NumberToString(code)
    case _ => GenericError
  }

  /** The message of an unnamed status code identifies the code. */
  lemma UnknownStatusMessagesDiffer(a: int, b: int)
    requires !NamedStatus(a) && !NamedStatus(b)
    requires IfpaError(Num(a)) == IfpaError(Num(b))
    ensures a == b
  {
    var p := UnknownStatusPrefix;
    assert (p + NumberToString(a))[|p|..] == NumberToString(a);
    assert (p + NumberToString(b))[|p|..] == NumberToString(b);
    NumberToStringInjective(a, b);
  }

  /** As written, "method not allowed" can never be reported: 405 gets the
      rate-limit message, the same as 429. */
  lemma MethodNotAllowedReportedAsRateLimit()
    ensures IfpaError(Num(405)) == IfpaError(Num(429)) == "Rate limit exceeded"
    ensures forall v :: IfpaError(v) != "HTTP method not allowed"
  {
    forall v ensures IfpaError(v) != "HTTP method not allowed" {
      if v.Num? && !NamedStatus(v.n) {
        var m := IfpaError(v);
        assert m[0] == 'G';
      }
    }
  }

  /** getIfpaError as evidently intended: every named status code has its own message. */
  function IntendedIfpaError(httpStatusCode: Value): (message: string)
    ensures httpStatusCode == Num(405) ==> message == "HTTP method not allowed"
    ensures httpStatusCode != Num(405) ==> message == IfpaError(httpStatusCode)
  {
    if httpStatusCode == Num(405) then "HTTP method not allowed" else IfpaError(httpStatusCode)
  }

  /** With the missing `break` restored, the six named codes get six different messages. */
  lemma IntendedNamedMessagesDiffer(a: int, b: int)
    requires NamedStatus(a) && NamedStatus(b) && a != b
    ensures IntendedIfpaError(Num(a)) != IntendedIfpaError(Num(b))
  {
  }

  datatype CalendarType = History | Active

  /** The parameters getCalendarEvents puts in its request URL. */
  datatype CalendarRequest = CalendarRequest(calendarType: CalendarType, apiKey: Value, country: Value)

  /** Any falsy country becomes the United States; the history listing is
      chosen only by an explicit `false`, anything else means active events. */
  function CalendarEventsRequest(apiKey: Value, country: Value, past: Value): (r: CalendarRequest)
    ensures r.calendarType == History <==> past == Bool(false)
    ensures Truthy(r.country)
    ensures Truthy(country) ==> r.country == country
    ensures !Truthy(country) ==> r.country == Str("United States")
    ensures r.apiKey == apiKey
  {
    CalendarRequest(if past == Bool(false) then History else Active, apiKey, if Truthy(country) then country else Str("United States"))
  }

  /** The `calendar` field of a reply: absent, a list, or (once processed) a
      dictionary by calendar id. */
  datatype CalendarField =
    | Missing
    | EntryList(entries: seq<Entry>)
    | ById(byId: map<Value, Entry>)

  /** The entries the loop visits: a dictionary has no `length`, so none. */
  function Visited(calendar: CalendarField): (r: seq<Entry>)
    ensures calendar.EntryList? ==> r == calendar.entries
    ensures !calendar.EntryList? ==> r == []
  {
    if calendar.EntryList? then calendar.entries else []
  }

  /** The decoded reply of the calendar endpoint, which the callback updates in place. */
  class CalendarResults {
    var calendar: CalendarField
    var totalEntries: Value

    constructor (calendar: CalendarField, totalEntries: Value)
      ensures this.calendar == calendar && this.totalEntries == totalEntries
    {
      this.calendar := calendar;
      this.totalEntries := totalEntries;
    }
  }

  /** The loop of getCalendarEvents: visits the entries in order, keeps those
      matching `state` (all of them when `state` is falsy), stores each under
      its calendar id and counts them. */
  method IndexMatching(calendar: seq<Entry>, state: Value) returns (idDictionary: map<Value, Entry>, matches: nat)
    ensures idDictionary == IndexBy(SelectByState(calendar, state), CalendarId)
    ensures matches == |SelectByState(calendar, state)|
  {
    idDictionary := map[];
    matches := 0;
    ghost var selected: seq<Entry> := [];
    for i := 0 to |calendar|
      invariant selected == SelectByState(calendar[..i], state)
      invariant idDictionary == IndexBy(selected, CalendarId)
      invariant matches == |selected|
    {
      var result := calendar[i];
      assert calendar[..i + 1] == calendar[..i] + [result];
      SelectByStateSnoc(calendar[..i], result, state);
      if !Truthy(state) || (Truthy(state) && result.state == state) {
        matches := matches + 1;
        IndexBySnoc(selected, result, CalendarId);
        idDictionary := idDictionary[result.calendarId := result];
        selected := selected + [result];
      }
    }
    assert calendar[..|calendar|] == calendar;
  }

  /** The success callback of getCalendarEvents. When `total_entries` is
      truthy it replaces `calendar` by the dictionary of the matching entries
      and `total_entries` by their count; a reply without a calendar makes
      the callback throw, and the returned promise never settles. */
  method ProcessCalendarEvents(results: CalendarResults, state: Value) returns (settled: bool)
    modifies results
    ensures !Truthy(old(results.totalEntries)) ==>
      settled && results.calendar == old(results.calendar) && results.totalEntries == old(results.totalEntries)
    ensures Truthy(old(results.totalEntries)) && old(results.calendar).Missing? ==>
      !settled && results.calendar == old(results.calendar) && results.totalEntries == old(results.totalEntries)
    ensures Truthy(old(results.totalEntries)) && !old(results.calendar).Missing? ==>
      var matching := SelectByState(Visited(old(results.calendar)), state);
      && settled
      && results.calendar == ById(IndexBy(matching, CalendarId))
      && results.totalEntries == Num(|matching|)
  {
    if Truthy(results.totalEntries) {
      if results.calendar.Missing? {
        return false;
      }
      var idDictionary, matches := IndexMatching(Visited(results.calendar), state);
      results.calendar := ById(idDictionary);
      results.totalEntries := Num(matches);
    }
    settled := true;
  }

  /** After processing, `total_entries` counts every matching entry visited,
      so it exceeds the number of dictionary keys exactly when some calendar
      id repeats among them. */
  lemma TotalEntriesCountsDuplicates(calendar: seq<Entry>, state: Value)
    ensures var matching := SelectByState(calendar, state);
      && |IndexBy(matching, CalendarId)| <= |matching|
      && (|IndexBy(matching, CalendarId)| < |matching| <==> !DistinctIds(matching, CalendarId))
  {
    IndexBySize(SelectByState(calendar, state), CalendarId);
  }
}
