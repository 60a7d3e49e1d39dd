/**
 * The home route of the weather app as a state machine. The state is what
 * outlives a request: the process-wide background colour and the history
 * directory. The two upstream services, the rounding of daily values and
 * the current UTC date come from an environment; the service replies keep
 * Python's (data, error) pair shape, where `data == None` stands for any
 * falsy value (None or an empty JSON object). Every upstream call the
 * handler makes is recorded, so that a call that is skipped can be observed.
 */
module Home {
  import opened Wrappers
  import opened Aggregation
  import opened History

  /** Background colour used when the environment names none. */
  const DefaultBgColor: string := "#ffffff"

  /** The first geocoding match. */
  datatype Place = Place(name: string, country: string, latitude: real, longitude: real)

  /** What get_geocoding_data returns: (match, None) or (None, message). */
  datatype GeoReply = GeoReply(data: Option<Place>, error: Option<string>)

  /** What get_weather_data returns: (forecast, None) or (None, message). */
  datatype WeatherReply = WeatherReply(data: Option<WeatherResponse>, error: Option<string>)

  /** The world outside the handler. */
  datatype Env = Env(
    geocode: string -> GeoReply,
    forecast: (real, real) -> WeatherReply,
    round2: real -> real,
    today: string)

  /** An upstream request the handler made. */
  datatype Call = GeocodeCall(city: string) | ForecastCall(latitude: real, longitude: real)

  datatype Request = Get | Post(form: map<string, string>)

  /** Process-wide state: the global bg_color and the history directory. */
  datatype State = State(bgColor: string, history: Store)

  /** The values passed to the index template. */
  datatype Page = Page(
    weatherData: seq<DayRecord>,
    country: Option<string>,
    errorMessage: Option<string>,
    city: Option<string>,
    bgColor: string)

  datatype Outcome = Outcome(state: State, page: Page, calls: seq<Call>)

  /** Start-up: bg_color from the environment variable, else white; the directory as found. */
  function InitialState(bgColorVar: Option<string>, existing: Store): (s: State)
    ensures bgColorVar.Some? ==> s.bgColor == bgColorVar.value
    ensures bgColorVar.None? ==> s.bgColor == "#ffffff"
    ensures s.history == existing
  {
    State(bgColorVar.GetOr(DefaultBgColor), existing)
  }

  /** "Name, Country" as shown above the forecast. */
  function CountryLabel(place: Place): string
  {
    place.name + ", " + place.country
  }

  // The branches of the home route, named by what the request and the
  // upstream replies select.

  predicate IsCityPost(req: Request)
  {
    req.Post? && "city" in req.form
  }

  predicate IsColorPost(req: Request)
  {
    req.Post? && "city" !in req.form && "bg_color" in req.form
  }

  predicate GeocodeFails(req: Request, env: Env)
  {
    IsCityPost(req) && env.geocode(req.form["city"]).data.None?
  }

  predicate ForecastFails(req: Request, env: Env)
  {
    && IsCityPost(req)
    && var geo := env.geocode(req.form["city"]);
    && geo.data.Some?
    && env.forecast(geo.data.value.latitude, geo.data.value.longitude).data.None?
  }

  predicate QuerySucceeds(req: Request, env: Env)
  {
    && IsCityPost(req)
    && var geo := env.geocode(req.form["city"]);
    && geo.data.Some?
    && env.forecast(geo.data.value.latitude, geo.data.value.longitude).data.Some?
  }

  /**
   * The home route. A GET only renders. A POST with a city runs
   * geocode, then forecast, then process and save, stopping at the first
   * reply without data and showing that reply's error. Otherwise a POST with
   * bg_color replaces the global colour.
   */
  function HandleHome(s: State, req: Request, env: Env): (r: Outcome)
    // The page always shows the colour in force after the request.
    ensures r.page.bgColor == r.state.bgColor
    // A GET changes nothing, calls nothing and renders an empty form.
    ensures req.Get? ==> r.state == s && r.calls == [] && r.page == Page([], None, None, None, s.bgColor)
    // The colour changes only on a POST with bg_color and without city, and then to the posted value.
    ensures r.state.bgColor != s.bgColor ==> IsColorPost(req)
    ensures IsColorPost(req) ==>
              && r.state == s.(bgColor := req.form["bg_color"])
              && r.calls == []
              && r.page == Page([], None, None, None, req.form["bg_color"])
    // A city POST keeps the colour, echoes the city and geocodes it verbatim first.
    ensures IsCityPost(req) ==>
              && r.state.bgColor == s.bgColor
              && r.page.city == Some(req.form["city"])
              && |r.calls| >= 1 && r.calls[0] == GeocodeCall(req.form["city"])
    // Geocoding failure: its error is shown, no forecast is requested, nothing is saved.
    ensures GeocodeFails(req, env) ==>
              && r.page.errorMessage == env.geocode(req.form["city"]).error
              && r.page.weatherData == [] && r.page.country == None
              && r.calls == [GeocodeCall(req.form["city"])]
              && r.state == s
    // Forecast failure: its error is shown, the forecast went to the match's coordinates, nothing is saved.
    ensures ForecastFails(req, env) ==>
              var place := env.geocode(req.form["city"]).data.value;
              && r.page.errorMessage == env.forecast(place.latitude, place.longitude).error
              && r.page.weatherData == []
              && r.page.country == Some(CountryLabel(place))
              && r.calls == [GeocodeCall(req.form["city"]), ForecastCall(place.latitude, place.longitude)]
              && r.state == s
    // Success: the processed forecast is shown and appended to today's file for the city.
    ensures QuerySucceeds(req, env) ==>
              var place := env.geocode(req.form["city"]).data.value;
              var data := ProcessWeatherData(env.forecast(place.latitude, place.longitude).data.value, env.round2);
              && r.page.errorMessage == None
              && r.page.weatherData == data
              && r.page.country == Some(CountryLabel(place))
              && r.calls == [GeocodeCall(req.form["city"]), ForecastCall(place.latitude, place.longitude)]
              && r.state.history == SaveSearchHistory(s.history, req.form["city"], env.today, data)
    // A POST with neither field changes nothing, calls nothing and renders an empty form.
    ensures req.Post? && "city" !in req.form && "bg_color" !in req.form ==>
              r.state == s && r.calls == [] && r.page == Page([], None, None, None, s.bgColor)
    // The history changes exactly when both upstream calls return data, and only ever grows.
    ensures r.state.history != s.history <==> QuerySucceeds(req, env)
    ensures Extends(s.history, r.state.history)
  {
    match req
    case Get => Outcome(s, Page([], None, None, None, s.bgColor), [])
    case Post(form) =>
      if "city" in form then
        var city := form["city"];
        var geo := env.geocode(city);
        if geo.data.None? then
          Outcome(s, Page([], None, geo.error, Some(city), s.bgColor), [GeocodeCall(city)])
        else
          var place := geo.data.value;
          var calls := [GeocodeCall(city), ForecastCall(place.latitude, place.longitude)];
          var weather := env.forecast(place.latitude, place.longitude);
          if weather.data.None? then
            Outcome(s, Page([], Some(CountryLabel(place)), weather.error, Some(city), s.bgColor), calls)
          else
            var data := ProcessWeatherData(weather.data.value, env.round2);
            SaveAppendsOne(s.history, city, env.today, data);
            SaveExtends(s.history, city, env.today, data);
            var s' := s.(history := SaveSearchHistory(s.history, city, env.today, data));
            Outcome(s', Page(data, Some(CountryLabel(place)), None, Some(city), s.bgColor), calls)
      else if "bg_color" in form then
        var s' := s.(bgColor := form["bg_color"]);
        Outcome(s', Page([], None, None, None, s'.bgColor), [])
      else
        Outcome(s, Page([], None, None, None, s.bgColor), [])
  }

  /**
   * Requests handled one after another, each seeing the state the previous
   * one left. Each request comes with the environment it meets: the UTC date
   * and the upstream replies may differ from one request to the next.
   */
  function Serve(s: State, run: seq<(Request, Env)>): State
    decreases |run|
  {
    if |run| == 0 then s else Serve(HandleHome(s, run[0].0, run[0].1).state, run[1..])
  }

  /** Over any run of requests the history only grows: no file is removed, shortened or rewritten. */
  lemma {:induction false} ServeExtends(s: State, run: seq<(Request, Env)>)
    ensures Extends(s.history, Serve(s, run).history)
    decreases |run|
  {
    if |run| > 0 {
      var s1 := HandleHome(s, run[0].0, run[0].1).state;
      ServeExtends(s1, run[1..]);
      ExtendsTransitive(s.history, s1.history, Serve(s1, run[1..]).history);
    }
  }

  /**
   * Posting a colour, then loading the page: the second render shows the new
   * colour with no forecast, country or error, and the history is untouched.
   */
  lemma ColorPersistsToNextGet(s: State, color: string, env: Env)
    ensures var posted := HandleHome(s, Post(map["bg_color" := color]), env);
            var shown := HandleHome(posted.state, Get, env);
            && shown.page == Page([], None, None, None, color)
            && posted.state.history == s.history
  {
  }

  /**
   * Two successful queries for one city on one day, starting from no file
   * for it: the file then holds two entries, the first query's records
   * followed by the second's.
   */
  lemma TwoQueriesSameDay(s: State, city: string, env1: Env, env2: Env)
    requires env1.today == env2.today
    requires HistoryFilename(city, env1.today) !in s.history
    requires QuerySucceeds(Post(map["city" := city]), env1)
    requires QuerySucceeds(Post(map["city" := city]), env2)
    ensures var req := Post(map["city" := city]);
            var first := HandleHome(s, req, env1);
            var second := HandleHome(first.state, req, env2);
            second.state.history[HistoryFilename(city, env1.today)]
            == [first.page.weatherData, second.page.weatherData]
  {
  }
}
