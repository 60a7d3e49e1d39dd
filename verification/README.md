# Weather search app: a Dafny model of its request logic

The app takes a city name and resolves it to coordinates with a geocoding
service. It then fetches a forecast, turns hourly humidity into daily values,
shows the days, and appends them to a history file for that city and UTC day.
It also lists and serves those files. This project models the pure logic of
`app.py` and proves properties of it:

- `Aggregation` (`aggregation.dfy`) models the humidity transform. It cuts the
  hourly series into 24-sample chunks, sums each chunk and divides by 24. It
  then zips the daily values with the forecast's dates and temperature extremes.
- `History` (`history.dfy`) models the history directory as a map from file
  name to the list the file holds. It covers the `<city>_<date>.json` naming,
  append-on-save, download with its 404 case, and the listing.
- `Home` (`home.dfy`) models the home route as a state machine. The state is
  the global background colour plus the history directory. The geocoding and
  forecast services, the `round(..., 2)` rounding and today's UTC date come
  from an `Env` value. Every upstream call the route makes is recorded, so a
  skipped call can be seen in the result. `Serve` runs a sequence of requests.
- `Wrappers` (`wrappers.dfy`) defines `Option`, which stands in for Python's `None`.

Service replies keep the source's `(data, error)` pair shape. In a reply,
`data == None` stands for any falsy value, and the route then shows the
error half of the pair, whatever it holds. For the forecast, a 200 reply
whose JSON is an empty object gives `(falsy, None)`, so the page shows no
error (app.py:32, app.py:95-99). For geocoding, a reply without results
gives `(None, "No results found for the provided city.")` (app.py:22-24);
the error half is `None` only when the first match is itself an empty
object. `HandleHome` states what the page shows for any such pair.

In `app.py:87-104` only a POST without a `city` field changes the colour; a
POST with `city` never does.

## Model

| member | source | states |
|---|---|---|
| Aggregation.DayCount | app.py:36 | the number of chunks `range(0, n, 24)` visits is the ceiling of n/24: 24·days ≥ n and 24·days < n + 24 |
| Aggregation.DayChunk | app.py:37 | day d's slice holds samples 24·d up to min(24·(d+1), n), in order: 1 to 24 samples, exactly 24 if and only if the series reaches 24·(d+1), and a short last day runs to the end of the series |
| Aggregation.DailyHumidity | app.py:34-40 | the result has ceil(n/24) values, none for empty input. Value d is the rounded sum of day d's slice divided by 24, also when the last slice is short |
| Aggregation.CalculateDailyHumidity | app.py:34-40 | the stepping loop over i = 0, 24, 48, … below n, taking the slice [i, i+24) at each step, returns exactly the chunk-by-chunk daily values |
| Aggregation.WholeDays | app.py:35-40 | when n = 24·N there are exactly N values, and each is the rounded mean of exactly 24 samples |
| Aggregation.ConstantSeries | app.py:36-38 | for a series that is constant at c, day d's value is round(c · (its sample count) / 24) |
| Aggregation.PartialDayUnderweighted | app.py:36-38 | when n is not a multiple of 24, the last day divides only n mod 24 samples by 24. A constant series at c reports round(c · (n mod 24) / 24) for it |
| Aggregation.ZipRecords | app.py:47-56 | zip gives min of the four lengths records. Record i takes date, minimum, maximum and humidity from position i of each input |
| Aggregation.ProcessWeatherData | app.py:42-57 | there are min(\|time\|, \|min\|, \|max\|, ceil(\|hourly\|/24)) records. Record i holds time[i], min[i], max[i] and day i's humidity value |
| Aggregation.WellFormedForecast | app.py:42-57 | n dates, minima and maxima with 24·n hourly samples give exactly n records. Each record's humidity is the rounded mean of that day's 24 samples |
| History.HistoryFilename | app.py:60-61 | the file name is the city verbatim, then '_', then the date, then ".json" |
| History.FilenameDeterminesQuery | app.py:61 | with fixed-width dates the file name determines both city and date, even for cities that contain '_' |
| History.FilenameAmbiguousWithoutFixedWidth | app.py:61 | if dates could vary in width, ("a_b", "c") and ("a", "b_c") would share a file name |
| History.SaveSearchHistory | app.py:59-76 | the save creates or rewrites only the (city, date) file, and its list becomes the old list (empty if absent) plus the new query. No other file changes |
| History.SaveAppendsOne | app.py:64-76 | the file's list grows by exactly one, earlier entries are unchanged, and the new last entry is the saved query |
| History.SaveExtends | app.py:64-76 | a save never removes, shortens or rewrites an existing entry |
| History.DownloadHistory | app.py:113-124 | a missing name returns ("File not found", 404), and only a missing name does. An existing name returns its contents as an `application/json` attachment under the name |
| History.ListHistory | app.py:108-111 | the listing holds exactly the names that can be downloaded, whatever their shape |
| History.SaveThenDownload | app.py:59-76 | after a save the (city, date) file can be downloaded, and its last entry is the saved query. The listing gains exactly that name |
| History.SaveLeavesOtherDownloads | app.py:59-76 | a save does not change what any other file name downloads |
| Home.InitialState | app.py:13-14 | the start-up colour is the environment variable's value if it is set, else "#ffffff" |
| Home.HandleHome | app.py:78-106 | a GET, or a POST with neither field, changes nothing and makes no call. Only a POST with bg_color and no city changes the colour, and a city POST keeps it. A geocoding failure shows its error with no forecast call and no save. A forecast failure shows its error with no records and no save. The history changes exactly when both calls return data, and it only grows |
| Home.ServeExtends | app.py:78-106 | across any sequence of requests, each meeting its own date and upstream replies, no history file is removed, shortened or rewritten |
| Home.ColorPersistsToNextGet | app.py:102-106 | after a colour POST, the next GET shows the new colour with no forecast, country or error, and the history is unchanged |
| Home.TwoQueriesSameDay | app.py:91-97 | two successful queries for one city on one day, starting with no file, leave a file of two entries: the first query's records, then the second's |

## Left out

- HTTP calls to the geocoding and forecast services (app.py:16-32) are left out. This includes URL building, the status-code check and the "No results found" branch. They are network I/O, so their replies are inputs (`Env.geocode`, `Env.forecast`).
- Flask routing, `render_template`, `Response` construction and `app.run` are framework code. A render is modelled as the `Page` values handed to the template.
- File and JSON I/O (`os.makedirs`, `os.path.exists`, `open`, `json.load`, `json.dump`, `os.listdir`) is replaced by an in-memory map. A JSON round trip is assumed to return the records unchanged.
- History.DownloadHistory: returns the stored list rather than the file's raw bytes, because JSON serialisation is not modelled.
- History.ListHistory: returns a set, because the order of `os.listdir` depends on the operating system.
- `datetime.utcnow().strftime('%Y-%m-%d')` is replaced by `Env.today`, because clocks are left out.
- `round(..., 2)` and float arithmetic are left out. Values are exact reals, and rounding is the parameter `round2` / `round`, with nothing assumed about it.
- Concurrent requests are left out. That includes lost updates in the history read-modify-write and last-writer-wins on the global colour. Requests are handled in sequence (`Serve`).
- How `os.path.join` resolves a file name that contains path separators or `..` is left out. The name is used as a map key exactly as given.
- A forecast reply that lacks one of its keys is left out. Python raises `KeyError` there and the request fails, so `WeatherResponse` always carries all four series.
- Form fields that appear more than once are left out. The form is a map with one value per field, which is the first value Flask would return.
- JSON `null` values inside the replies are left out, because the series are `seq<real>` and cannot hold them. A `null` hourly sample makes `sum` raise `TypeError` at app.py:38 before anything is saved; a `null` daily minimum or maximum would be stored as `None` in the record (app.py:53-54).
- A geocoding match that lacks `name`, `country`, `latitude` or `longitude` is left out. Python raises `KeyError` at app.py:93-94 and the request fails, so `Place` always carries all four fields.
