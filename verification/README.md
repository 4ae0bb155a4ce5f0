# Weather forecast field interpreter

A Dafny model of the field interpreter of the 7timer forecast client in
`WeatherForecasts`. A forecast entry (`DataSeries`) carries coded integers:
cloud cover, seeing, transparency, lifted index, relative humidity and wind
speed. The interpreter turns each code into the human-readable band the
provider documents, or into the sentinel `"undefined"`. The same code renders
the temperature as `Itoa(temp) + " C"` and the wind as `direction + " " + band`,
and it assembles entries into CSV rows and a console summary.

Modules:

- `Decimal`: `strconv.Itoa` as `FromInt`, with a canonical parser `ParseInt` that is its exact inverse in both directions.
- `Weather` (weather/weather.go): the entry datatypes and the bounds-checked `MappedValue` (`getMappedValue`). Also the six tables and the six getters, the entry's string methods, and independent reference definitions of the bands of all six tables, built from their bounds.
- `Columns`: the nine fields a data row can show, and `Render`, the text of one field of one entry. Each writer's column order is a list of fields, and a data row is that order rendered.
- `IoHelper` (iohelper/file.go): the row sequence `WriteToCSV` hands to the CSV writer. That is six header rows, the last being the column titles, then one row per entry.
- `Draft` (main.go): the earlier inlined copy of the tables, getters and string methods, proved to agree with the package. Also the rows of `printWeatherDataToCSV` (five header rows, no title row) and the lines of `printWeatherData`.
- `Variants`: the two writers' data rows are the same nine fields. The draft moves the temperature from second to fourth place.

Every getter is a total function on the integers. The model has no
precondition on any code, so "never an index fault" holds by construction. The
contracts state exactly which codes yield a band.

Three details of the code shape the model. Code 0 of the cloud-cover, seeing and
transparency tables is itself `"undefined"`, so code 0 yields the sentinel.
`printWeatherDataToCSV` writes no column-title row. `WriteToCSV` writes one, with
the temperature in second place. Each writer is modelled as written.

## Model

| member | source | states |
|---|---|---|
| Weather.MappedValue | WeatherForecasts/weather/weather.go:78-83 | an in-range key (0 <= key < length) gives exactly the slice entry; every other key, negative ones included, gives "undefined" |
| Weather.MappedValueIsLookup | WeatherForecasts/weather/weather.go:78-83 | the dense slice lookup is the same as the sparse map lookup on the map from indices to entries, so both kinds of table share one meaning |
| Weather.GetCloudCover | WeatherForecasts/weather/weather.go:88-94 | a band (not "undefined") exactly for codes 1..9; codes 0..9 give the table entry, whose index 0 is "undefined"; the result is always a table entry |
| Weather.GetSeeing | WeatherForecasts/weather/weather.go:96-103 | a band exactly for codes 1..8; 0..8 give the table entry; any other integer gives "undefined" |
| Weather.GetTransparency | WeatherForecasts/weather/weather.go:105-111 | a band exactly for codes 1..8; 0..8 give the table entry; any other integer gives "undefined" |
| Weather.GetLiftedIndex | WeatherForecasts/weather/weather.go:113-128 | a band exactly for the codes {-10,-6,-4,-1,2,6,10,15}; every other integer gives "undefined" |
| Weather.GetWindSpeed | WeatherForecasts/weather/weather.go:130-136 | a band exactly for codes 1..8; 0..8 give the table entry; any other integer gives "undefined" |
| Weather.GetRelativeHumidity | WeatherForecasts/weather/weather.go:138-153 | a band exactly for codes -4..16; every other integer gives "undefined" |
| Weather.CloudCoverBands | WeatherForecasts/weather/weather.go:88-90 | cloud-cover code c in 1..9 is the percentage band between consecutive bounds 0,6,19,31,44,56,69,81,94,100, so the bands tile 0-100 % with no gap |
| Weather.RelativeHumidityBands | WeatherForecasts/weather/weather.go:138-145 | humidity code k in -4..14 is the 5 % step from 5(k+4) to 5(k+5); 15 is 95-99 %; 16 is 100 %; every other code is "undefined" |
| Weather.LiftedIndexBands | WeatherForecasts/weather/weather.go:114-123 | the i-th lifted-index code in ascending order is the i-th band between bounds -7,-5,-3,0,4,8,11 (open at both ends), and each code lies inside its own band |
| Weather.BoundsAscend | WeatherForecasts/weather/weather.go:88-123 | the cloud-cover bounds and the lifted-index bounds strictly ascend, so the bands rebuilt from them are ordered and do not overlap |
| Weather.SeeingBands | WeatherForecasts/weather/weather.go:96-103 | for every integer: codes 1..8 are the bands over the bounds 0.5, 0.75, 1, 1.25, 1.5, 2, 2.5 ("<0.5", consecutive ranges, ">2.5"); every other code is "undefined" |
| Weather.TransparencyBands | WeatherForecasts/weather/weather.go:105-111 | for every integer: codes 1..8 are the bands over the bounds 0.3, 0.4, 0.5, 0.6, 0.7, 0.85, 1 ("<0.3", consecutive ranges, ">1"); every other code is "undefined" |
| Weather.WindSpeedBands | WeatherForecasts/weather/weather.go:130-136 | for every integer: codes 1..8 are the speed ranges over the bounds 0.3, 3.4, 8.0, 10.8, 17.2, 24.5, 32.6 m/s, named calm to hurricane in order; every other code is "undefined" |
| Weather.LiftedIndexCodesListed | WeatherForecasts/weather/weather.go:114-123 | the ascending code list behind the lifted-index bands holds exactly the codes the getter accepts, strictly increasing |
| Weather.CloudCoverString | WeatherForecasts/weather/weather.go:29 | an entry's cloud-cover text is a band exactly when its code is 1..9 |
| Weather.SeeingString | WeatherForecasts/weather/weather.go:30 | an entry's seeing text is a band exactly when its code is 1..8 |
| Weather.TransparencyString | WeatherForecasts/weather/weather.go:31 | an entry's transparency text is a band exactly when its code is 1..8 |
| Weather.LiftedIndexString | WeatherForecasts/weather/weather.go:32 | an entry's lifted-index text is a band exactly when its code is a documented one |
| Weather.HumidityString | WeatherForecasts/weather/weather.go:36 | an entry's humidity text is a band exactly when its code is -4..16 |
| Weather.WindSpeedString | WeatherForecasts/weather/weather.go:33-35 | for every direction, the wind text is the direction, one space, then the speed band; for a direction without spaces, splitting at the first space gives back the direction and the speed band |
| Weather.SplitJoined | WeatherForecasts/weather/weather.go:33-35 | joining a space-free head and any tail with one space, then splitting at the first space, returns the two parts |
| Weather.TemperatureString | WeatherForecasts/weather/weather.go:37 | the text ends in " C", starts with '-' exactly for negative temperatures, and parses back to the temperature |
| Weather.TemperatureStringParse | WeatherForecasts/weather/weather.go:37 | every string the temperature parser accepts is the rendering of the value it parses to |
| Weather.SampleEntry | WeatherForecasts/main.go:22-36 | the documented sample entry's coded fields render as 94-100 %, 0.75-1, 0.5-0.6, 0 to 4 and 75-80 % |
| Weather.SampleTemperature | WeatherForecasts/main.go:22-36 | the sample entry's temperature 9 renders as 9 C |
| Weather.SampleWind | WeatherForecasts/main.go:22-36 | any entry with the sample's wind (SE, code 2) renders its wind as SE 0.3-3.4m/s (light) |
| Weather.SampleCodes | WeatherForecasts/weather/weather.go:88-153 | cloud cover 0 is "undefined" and 5 is 44-56 %; humidity 16 is 100 %; lifted index 0 is "undefined" |
| Decimal.FromInt | WeatherForecasts/weather/weather.go:37 | the Itoa rendering is non-empty and has a leading '-' exactly for negative numbers; the magnitude is written as canonical digits (no leading zero), and a negative number's magnitude does not start with '0' |
| Decimal.ParseFromInt | WeatherForecasts/weather/weather.go:37 | parsing the Itoa rendering of any integer, negative ones included, gives the integer back |
| Decimal.FromIntParse | WeatherForecasts/iohelper/file.go:38 | every string the parser accepts is exactly the Itoa rendering of its value |
| Decimal.FromIntInjective | WeatherForecasts/iohelper/file.go:38 | two integers render to the same text only when they are equal |
| Decimal.FromNat | WeatherForecasts/weather/weather.go:37 | the digits of a natural number: non-empty and all decimal digits, starting with '0' exactly when the number is 0, so a multi-digit rendering has no leading zero |
| Decimal.DigitsValueFromNat | WeatherForecasts/weather/weather.go:37 | the digits written for a natural number read back as that number |
| Decimal.FromNatDigitsValue | WeatherForecasts/weather/weather.go:37 | a digit string without a leading zero is the rendering of its own value |
| IoHelper.TitlesLabelColumns | WeatherForecasts/iohelper/file.go:29-46 | the title row has one title per data column, and title j names the field held in column j |
| IoHelper.ColumnOrderIsPermutation | WeatherForecasts/iohelper/file.go:37-47 | the data row shows each of the nine fields exactly once |
| IoHelper.HeaderRows | WeatherForecasts/iohelper/file.go:23-30 | six header rows: a one-cell label row, four label-value rows carrying latitude, longitude, the init time and the product verbatim, then the column titles |
| IoHelper.DataRow | WeatherForecasts/iohelper/file.go:37-47 | a data row has as many fields as the title row, each the rendering of the field its title names |
| IoHelper.TitleInjective | WeatherForecasts/iohelper/file.go:29 | no two fields share a column title |
| IoHelper.DataRowByTitle | WeatherForecasts/iohelper/file.go:29-46 | for any field f, the column headed by f's title holds f's text for the entry |
| IoHelper.DataRowIsLiteral | WeatherForecasts/iohelper/file.go:37-47 | the row is, field for field, Itoa of the timepoint, the temperature, cloud cover, lifted index, seeing, transparency and humidity texts, the precipitation type verbatim, and the wind text |
| IoHelper.DataRowFields | WeatherForecasts/iohelper/file.go:38-46 | the first field parses back to the timepoint, the second to the temperature, the eighth is the precipitation type verbatim, and, for a direction without spaces, the ninth splits back into the direction and the speed band |
| IoHelper.WriteToCsv | WeatherForecasts/iohelper/file.go:23-48 | six header rows: the label, Latitude, Longitude, Initial Timestamp, Product, then the column titles; then one 9-field row per entry in series order, 6 + n rows in all |
| Draft.MappedValueAgrees | WeatherForecasts/main.go:151-156 | the draft's bounds-checked lookup equals the package's on every key and slice |
| Draft.GettersAgree | WeatherForecasts/main.go:158-223 | the draft's tables and getters give the package's result for every integer, for all six fields |
| Draft.FieldStringsAgree | WeatherForecasts/main.go:52-78 | the draft's DataSeries string methods render every entry exactly as the package's do |
| Draft.ColumnOrderIsPermutation | WeatherForecasts/main.go:274 | the draft's data row shows each of the nine fields exactly once |
| Draft.DataRowRenders | WeatherForecasts/main.go:274 | the draft's nine-field row, built from the draft's own methods, is the draft's column order (Timepoint, CloudCover, LiftedIndex, Temperature, Seeing, Transparency, Humidity, PrecType verbatim, Wind) rendered with the package's field texts |
| Draft.WriteCsvRows | WeatherForecasts/main.go:259-276 | five header rows (label, latitude, longitude, Initial timestamp, Product) with no title row; then one 9-field row per entry in series order, 5 + n rows in all |
| Draft.Summary | WeatherForecasts/main.go:225-245 | the console summary is defined only for a non-empty series; it has twelve lines, the second and third giving the init timestamp and product |
| Draft.SummaryShowsFirstRow | WeatherForecasts/main.go:229-243 | the summary shows the first entry's fields in the draft's column order, each labelled, with the same texts as the first CSV data row |
| Variants.DraftRowReordersPackageRow | WeatherForecasts/main.go:274 | the draft's data row equals the package's (file.go:37-47) with the temperature moved from second to fourth place, the other columns keeping their relative order; column j of the draft row is column [0,2,3,1,4,5,6,7,8][j] of the package row |

## Left out

- `FetchWeatherData` / `fetchWeatherData` (weather.go:45-75, main.go:111-148): the HTTP request, the status check, the body read and JSON decoding run on library code. A non-200 status or undecodable body ends the program with an error; the model starts from a decoded `ApiResponse`.
- `buildAPIURL` (main.go:98-108): its output is `url.Values.Encode` (key sorting, percent-encoding), library code not modelled.
- `readUserInput` and `main` (main.go:87-95, 280-291): standard-input scanning, `log.Fatal` and orchestration.
- File creation, CSV quoting and flushing, and the ignored `writer.Write` errors in both CSV writers: only the row sequences handed to the writer are modelled.
- Console output itself: `Draft.Summary` gives the printed lines (each `Println` joins its operands with one space), not the writes to standard output. The source indexes `DataSeries[0]` unguarded, so an empty series panics; the model states this as a precondition.
- SunRiseSet/main.go: a network fetch and one comparison of the provider's `status` field with "OK"; no interpreter logic.
- Go's `int` is 64-bit; the model uses unbounded integers. No arithmetic is done on the codes, and `FromInt` matches `strconv.Itoa` for every 64-bit value.
- The draft's `DataSeries`, `Wind10m` and `ApiResponse` structs have the same fields as the package's; the model reuses one set of datatypes. The draft's tables, getters and string methods are separate definitions and their agreement is proved.
- Both writers' data rows are related through the shared field renderer (`Columns.Render`). `IoHelper.DataRowIsLiteral` proves the package's row equal to its literal list, and `Draft.DataRowRenders` does the same for the draft's.
