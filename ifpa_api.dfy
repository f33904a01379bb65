/** The promise-based IFPA client (class IfpaApi): the parameter rules of each
    endpoint operation, the query merge of its request builder, and the
    filtering and indexing of calendar results. The HTTP transport is not
    modelled: an operation yields the call it would make, and a calendar
    operation's reply is an input. */
module IfpaApi {
  import opened Wrappers
  import opened JsValues
  import opened Calendar

  const DefaultCountry: Value := Str("United States")

  /** The configuration an IfpaApi instance holds; it never changes after construction. */
  datatype Client = Client(apiKey: Value, baseUrl: string)

  /** The constructor: keeps the api key and fixes the base URL. */
  function NewClient(apiKey: Value): (c: Client)
    ensures c.apiKey == apiKey && c.baseUrl == "https://api.ifpapinball.com"
  {
    Client(apiKey, "https://api.ifpapinball.com")
  }

  /** The remote resource a call targets; the player endpoints carry the id
      that the path embeds. */
  datatype Endpoint =
    | CalendarHistory
    | CalendarActive
    | PlayerPvp(playerId: Value)
    | PlayerInformation(playerId: Value)
    | PlayerHistory(playerId: Value)
    | PlayerResults(playerId: Value)
    | CountryDirectors
    | PlayerSearch
    | RankingsList
    | BiggestMovers

  type Query = map<string, Value>

  /** What an operation hands to the request builder. */
  datatype Call = Call(endpoint: Endpoint, query: Query)

  /** The GET request the request builder issues. */
  datatype Request = Request(baseUrl: string, endpoint: Endpoint, qs: Query)

  /** The message of the rejection an operation returns for a missing argument. */
  function Required(name: string): string {
    name + " required"
  }

  /** Builds the outgoing request: the call's query with the client's api key
      merged in (the call's own parameters win on a clash). */
  function MakeRequest(client: Client, call: Call): (r: Request)
    ensures r.baseUrl == client.baseUrl && r.endpoint == call.endpoint
    ensures r.qs.Keys == {"apiKey"} + call.query.Keys
    ensures forall k :: k in call.query ==> r.qs[k] == call.query[k]
    ensures "apiKey" !in call.query ==> r.qs["apiKey"] == client.apiKey
  {
    Request(client.baseUrl, call.endpoint, map["apiKey" := client.apiKey] + call.query)
  }

  /** The country a calendar operation sends: a default parameter, so it
      replaces only an omitted (undefined) argument, not other falsy ones. */
  function CalendarCountry(country: Value): (c: Value)
    ensures country.Undefined? ==> c == DefaultCountry
    ensures !country.Undefined? ==> c == country
    ensures country.Undefined? ==> Truthy(c)
  {
    if country.Undefined? then DefaultCountry else country
  }

  /** The response of a calendar endpoint: its `calendar` list, `None` when
      the field is absent or falsy, and the fields the client passes over. */
  datatype Response = Response(calendar: Option<seq<Entry>>, others: map<string, Value>)

  /** The shape `_getFilteredResults` returns: an empty object, or one with
      both a `calendar` list and a `dictionary` of its entries. */
  datatype FilteredResults =
    | NoCalendar
    | Filtered(calendar: seq<Entry>, dictionary: map<Value, Entry>)

  /** The dictionary of a calendar keyed by tournament id; an omitted calendar
      yields an empty dictionary. */
  function TournamentIdDictionary(calendar: Option<seq<Entry>>): (r: map<Value, Entry>)
    ensures calendar.None? ==> r == map[]
    ensures calendar.Some? ==> r.Keys == IdsOf(calendar.value, TournamentId)
    ensures calendar.Some? ==> forall k :: k in r ==> r[k] in calendar.value && r[k].tournamentId == k
  {
    IndexBy(if calendar.Some? then calendar.value else [], TournamentId)
  }

  /** Keeps the calendar entries of one state (all of them for a falsy state)
      and indexes the kept entries by tournament id. A missing response or a
      response without a calendar gives the empty object. */
  function GetFilteredResults(results: Option<Response>, state: Value): (r: FilteredResults)
    ensures r.NoCalendar? <==> results.None? || results.value.calendar.None?
    ensures r.Filtered? && !Truthy(state) ==> r.calendar == results.value.calendar.value
    ensures r.Filtered? ==> forall e :: e in r.calendar <==>
      e in results.value.calendar.value && (!Truthy(state) || e.state == state)
    ensures r.Filtered? ==> r.dictionary.Keys == IdsOf(r.calendar, TournamentId)
    ensures r.Filtered? ==> forall k :: k in r.dictionary ==>
      r.dictionary[k] in r.calendar && r.dictionary[k].tournamentId == k
    ensures r.Filtered? ==> forall k :: k in r.dictionary ==>
      r.dictionary[k] in results.value.calendar.value && (!Truthy(state) || r.dictionary[k].state == state)
  {
    var input := if results.Some? then results.value else Response(None, map[]);
    if input.calendar.None? then NoCalendar
    else
      var calendar := SelectByState(input.calendar.value, state);
      SelectByStateMembers(input.calendar.value, state);
      Filtered(calendar, TournamentIdDictionary(Some(calendar)))
  }

  /** With a truthy state the returned calendar is the subsequence of the
      input made of exactly the entries of that state, in input order, and
      the dictionary holds, under each id, the last of them with that id. */
  lemma FilteredResultsByState(calendar: seq<Entry>, others: map<string, Value>, state: Value, i: nat)
    requires Truthy(state)
    requires i < |GetFilteredResults(Some(Response(Some(calendar), others)), state).calendar|
    ensures var r := GetFilteredResults(Some(Response(Some(calendar), others)), state);
      var ps := MatchingPositions(calendar, state);
      && |r.calendar| == |ps|
      && r.calendar[i] == calendar[ps[i]]
      && ((forall j :: i < j < |r.calendar| ==> r.calendar[j].tournamentId != r.calendar[i].tournamentId) ==>
            r.dictionary[r.calendar[i].tournamentId] == r.calendar[i])
  {
    var r := GetFilteredResults(Some(Response(Some(calendar), others)), state);
    FilterIsMatchingSubsequence(calendar, state);
    if forall j :: i < j < |r.calendar| ==> r.calendar[j].tournamentId != r.calendar[i].tournamentId {
      IndexByLastWriteWins(r.calendar, TournamentId, i);
    }
  }

  /** Whatever the state filter, falsy or not, the dictionary holds under
      each tournament id the last returned entry with that id. */
  lemma {:induction false} FilteredResultsLastWriteWins(calendar: seq<Entry>, others: map<string, Value>, state: Value, i: nat)
    requires i < |GetFilteredResults(Some(Response(Some(calendar), others)), state).calendar|
    ensures var r := GetFilteredResults(Some(Response(Some(calendar), others)), state);
      (forall j :: i < j < |r.calendar| ==> r.calendar[j].tournamentId != r.calendar[i].tournamentId) ==>
        r.dictionary[r.calendar[i].tournamentId] == r.calendar[i]
  {
    var r := GetFilteredResults(Some(Response(Some(calendar), others)), state);
    if forall j :: i < j < |r.calendar| ==> r.calendar[j].tournamentId != r.calendar[i].tournamentId {
      IndexByLastWriteWins(r.calendar, TournamentId, i);
    }
  }

  /** getPastCalendarEvents: the call it makes, and what it resolves to given
      the endpoint's reply. */
  function PastCalendarEvents(country: Value, state: Value, reply: Option<Response>): (r: (Call, FilteredResults))
    ensures r.0.endpoint == CalendarHistory
    ensures r.0.query.Keys == {"country"} && r.0.query["country"] == CalendarCountry(country)
    ensures r.1 == GetFilteredResults(reply, state)
  {
    (Call(CalendarHistory, map["country" := CalendarCountry(country)]), GetFilteredResults(reply, state))
  }

  /** getActiveCalendarEvents: as getPastCalendarEvents, on the active listing. */
  function ActiveCalendarEvents(country: Value, state: Value, reply: Option<Response>): (r: (Call, FilteredResults))
    ensures r.0.endpoint == CalendarActive
    ensures r.0.query.Keys == {"country"} && r.0.query["country"] == CalendarCountry(country)
    ensures r.1 == GetFilteredResults(reply, state)
  {
    (Call(CalendarActive, map["country" := CalendarCountry(country)]), GetFilteredResults(reply, state))
  }

  /** The guard shared by the four player operations: reject without any call
      when the player id is falsy. */
  function PlayerCall(playerId: Value, endpoint: Endpoint): (r: Result<Call, string>)
    ensures r.Failure? <==> !Truthy(playerId)
    ensures r.Failure? ==> r.error == "playerId required"
    ensures r.Success? ==> r.value == Call(endpoint, map[])
  {
    if !Truthy(playerId) then Failure(Required("playerId")) else Success(Call(endpoint, map[]))
  }

  function GetPlayerVsPlayer(playerId: Value): (r: Result<Call, string>)
    ensures r.Failure? <==> !Truthy(playerId)
    ensures r.Failure? ==> r.error == "playerId required"
    ensures r.Success? ==> r.value.endpoint == PlayerPvp(playerId) && r.value.query == map[]
  {
    PlayerCall(playerId, PlayerPvp(playerId))
  }

  function GetPlayerInformation(playerId: Value): (r: Result<Call, string>)
    ensures r.Failure? <==> !Truthy(playerId)
    ensures r.Failure? ==> r.error == "playerId required"
    ensures r.Success? ==> r.value.endpoint == PlayerInformation(playerId) && r.value.query == map[]
  {
    PlayerCall(playerId, PlayerInformation(playerId))
  }

  function GetPlayerHistory(playerId: Value): (r: Result<Call, string>)
    ensures r.Failure? <==> !Truthy(playerId)
    ensures r.Failure? ==> r.error == "playerId required"
    ensures r.Success? ==> r.value.endpoint == PlayerHistory(playerId) && r.value.query == map[]
  {
    PlayerCall(playerId, PlayerHistory(playerId))
  }

  function GetPlayerResults(playerId: Value): (r: Result<Call, string>)
    ensures r.Failure? <==> !Truthy(playerId)
    ensures r.Failure? ==> r.error == "playerId required"
    ensures r.Success? ==> r.value.endpoint == PlayerResults(playerId) && r.value.query == map[]
  {
    PlayerCall(playerId, PlayerResults(playerId))
  }

  function GetCountryDirectors(): (r: Call)
    ensures r.endpoint == CountryDirectors && r.query == map[]
  {
    Call(CountryDirectors, map[])
  }

  /** searchPlayersByName: rejects a falsy name, else searches with `q`. */
  function SearchPlayersByName(name: Value): (r: Result<Call, string>)
    ensures r.Failure? <==> !Truthy(name)
    ensures r.Failure? ==> r.error == "name required"
    ensures r.Success? ==> r.value.endpoint == PlayerSearch && r.value.query == map["q" := name]
  {
    if !Truthy(name) then Failure(Required("name")) else Success(Call(PlayerSearch, map["q" := name]))
  }

  /** searchPlayersByEmail: rejects a falsy email, else searches with `email`. */
  function SearchPlayersByEmail(email: Value): (r: Result<Call, string>)
    ensures r.Failure? <==> !Truthy(email)
    ensures r.Failure? ==> r.error == "email required"
    ensures r.Success? ==> r.value.endpoint == PlayerSearch && r.value.query == map["email" := email]
  {
    if !Truthy(email) then Failure(Required("email")) else Success(Call(PlayerSearch, map["email" := email]))
  }

  /** getRankings: each optional argument enters the query only when truthy,
      under its own parameter name and with its own value. */
  function GetRankings(startPos: Value, count: Value, order: Value): (r: Call)
    ensures r.endpoint == RankingsList
    ensures "start_pos" in r.query <==> Truthy(startPos)
    ensures "count" in r.query <==> Truthy(count)
    ensures "order" in r.query <==> Truthy(order)
    ensures r.query.Keys <= {"start_pos", "count", "order"}
    ensures "start_pos" in r.query ==> r.query["start_pos"] == startPos
    ensures "count" in r.query ==> r.query["count"] == count
    ensures "order" in r.query ==> r.query["order"] == order
  {
    var query: Query := map[];
    var query := if Truthy(startPos) then query["start_pos" := startPos] else query;
    var query := if Truthy(count) then query["count" := count] else query;
    var query := if Truthy(order) then query["order" := order] else query;
    Call(RankingsList, query)
  }

  function GetBiggestMovers(): (r: Call)
    ensures r.endpoint == BiggestMovers && r.query == map[]
  {
    Call(BiggestMovers, map[])
  }

  /** Every operation of the client, with its arguments. */
  datatype Operation =
    | PastCalendar(country: Value, state: Value)
    | ActiveCalendar(country: Value, state: Value)
    | PlayerVsPlayerOp(playerId: Value)
    | PlayerInformationOp(playerId: Value)
    | PlayerHistoryOp(playerId: Value)
    | PlayerResultsOp(playerId: Value)
    | CountryDirectorsOp
    | SearchByName(name: Value)
    | SearchByEmail(email: Value)
    | Rankings(startPos: Value, count: Value, order: Value)
    | BiggestMoversOp

  /** The argument an operation cannot do without, if it has one, with its name. */
  function RequiredArgument(op: Operation): Option<(string, Value)> {
    match op
    case PlayerVsPlayerOp(id) => Some(("playerId", id))
    case PlayerInformationOp(id) => Some(("playerId", id))
    case PlayerHistoryOp(id) => Some(("playerId", id))
    case PlayerResultsOp(id) => Some(("playerId", id))
    case SearchByName(name) => Some(("name", name))
    case SearchByEmail(email) => Some(("email", email))
    case _ => None
  }

  /** The call an operation hands to the request builder, or the rejection
      it returns instead of making one. */
  function OperationCall(op: Operation): (r: Result<Call, string>)
    ensures r.Failure? <==> RequiredArgument(op).Some? && !Truthy(RequiredArgument(op).value.1)
    ensures r.Failure? ==> r.error == RequiredArgument(op).value.0 + " required"
    ensures r.Success? ==> "apiKey" !in r.value.query
    ensures r.Success? && (op.PastCalendar? || op.ActiveCalendar?) ==>
      "country" in r.value.query && r.value.query["country"] == CalendarCountry(op.country)
  {
    match op
    case PastCalendar(country, state) => Success(PastCalendarEvents(country, state, None).0)
    case ActiveCalendar(country, state) => Success(ActiveCalendarEvents(country, state, None).0)
    case PlayerVsPlayerOp(id) => GetPlayerVsPlayer(id)
    case PlayerInformationOp(id) => GetPlayerInformation(id)
    case PlayerHistoryOp(id) => GetPlayerHistory(id)
    case PlayerResultsOp(id) => GetPlayerResults(id)
    case CountryDirectorsOp => Success(GetCountryDirectors())
    case SearchByName(name) => SearchPlayersByName(name)
    case SearchByEmail(email) => SearchPlayersByEmail(email)
    case Rankings(startPos, count, order) => Success(GetRankings(startPos, count, order))
    case BiggestMoversOp => Success(GetBiggestMovers())
  }

  /** The request an operation issues, or the rejection it returns instead:
      a rejected operation issues no request, and every issued request
      carries the client's api key. */
  function Issue(client: Client, op: Operation): (r: Result<Request, string>)
    ensures r.Failure? <==> RequiredArgument(op).Some? && !Truthy(RequiredArgument(op).value.1)
    ensures r.Failure? ==> r.error == RequiredArgument(op).value.0 + " required"
    ensures r.Success? ==> "apiKey" in r.value.qs && r.value.qs["apiKey"] == client.apiKey
    ensures r.Success? && (op.PastCalendar? || op.ActiveCalendar?) ==>
      "country" in r.value.qs && r.value.qs["country"] == CalendarCountry(op.country)
  {
    var call := OperationCall(op);
    if call.Failure? then Failure(call.error) else Success(MakeRequest(client, call.value))
  }
}
