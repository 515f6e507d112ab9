# Premier League ETL and dashboard: a Dafny model

This project models the data-handling core of the Premier League dashboard
repository. The repository has three parts:

- Python ETL jobs that read the football and news APIs and write BigQuery
  and PostgreSQL tables;
- Streamlit sections that turn stored tables into charts and labels;
- a script that records team locations.

The model takes the network and database answers as values: decoded JSON
(`JsonValues.Json`), or functions from a team id to the JSON answer. A write
to a table is a `Frames.Load`, applied to a `Frames.Warehouse`, which maps
table names to frames. Python's failure behaviour is modelled explicitly:

- subscripts raise `KeyError`, `IndexError` or `TypeError`;
- `int()`, `float()` and `strptime` raise `ValueError`;
- `eval` of an undefined name raises `NameError`.

Each of these is a `Results.Result` error, and the first one raised ends the
job.

Shared modules:

- `results.dfy`: errors, `Result`, and the list comprehension `MapRange`.
- `text.dfy`: `str(int)`, `int()`, `float()`, `strip`, `split`, slicing and string order.
- `json.dfy`: JSON values, subscripting, `int()`/`str()`/`json.dumps`.
- `timestamps.dfy`: the `strptime` and `strftime` formats the code uses.
- `frames.dfy`: `zip`, pandas frames, schemas, the column-building loop, table writes.
- `transform.dfy`: the per-field conversions of the API transformers.

Each remaining module follows one source file.

## Model

| member | source | states |
|---|---|---|
| Results.MapRange | components/fixtures_section.py:50-59 | a comprehension over range(n) succeeds iff every element does, holds element i at i, and otherwise fails with the error of the first failing element |
| Text.IntToString | etl/bigquery/current_round.py:59 | `str(i)` is a minus sign for negatives followed by the decimal digits whose value is \|i\| |
| Text.ParseInt | etl/bigquery/current_round.py:59 | `int(s)` on text fails only with the invalid-literal ValueError |
| Text.ParseIntRoundTrip | etl/bigquery/current_round.py:59 | `int(str(i)) == i` for every integer |
| Text.StripChar | etl/bigquery/standings.py:92-100 | `strip('"')` leaves the slice of the text between a run of leading and a run of trailing quotes, with no quote at either end; text without end quotes is unchanged |
| Text.StripCharUnquotes | etl/bigquery/standings.py:92-100 | stripping the quotes `json.dumps` puts around a plain string gives the string back |
| Text.ReplaceChar | etl/bigquery/squads.py:142 | `replace(" ", "_")` keeps the length and changes exactly the spaces |
| Text.AsciiLower | etl/bigquery/squads.py:142 | `lower()` keeps the length and maps each character through lower-casing |
| Text.BeforeFirst | src/location.py:62 | `split(',', 1)[0]` is the prefix before the first comma, contains no comma, and is the whole text when there is none |
| Text.Take | etl/bigquery/current_round.py:57 | `s[:n]` has length min(n, \|s\|) and is a prefix of s |
| Text.Drop | etl/bigquery/current_round.py:58 | `s[n:]` is the suffix after the first n characters |
| Text.TakeLast | components/league_form_section.py:16 | `s[-5:]` is the suffix of length min(5, \|s\|) |
| Text.StrLessTrichotomy | etl/bigquery/news.py:86 | Python string comparison is total: one of a < b, a == b, b < a |
| Text.StrLessTransitive | etl/bigquery/news.py:86 | Python string comparison is transitive |
| Text.StrLessIrreflexive | etl/bigquery/news.py:86 | no string is less than itself |
| Text.StrLessConcat | etl/bigquery/news.py:67 | texts made of equal-length parts compare by their first differing part |
| Text.Pad2Order | etl/bigquery/news.py:67 | two-digit zero-padded numbers compare as text as they do as numbers |
| JsonValues.Walk | etl/bigquery/standings.py:83 | a chain of subscripts either reaches a value or fails with KeyError, IndexError or TypeError |
| JsonValues.WalkConcat | etl/bigquery/standings.py:83 | subscripting by p then q is subscripting by p followed by q on the result |
| JsonValues.PyInt | etl/bigquery/standings.py:83 | `int()` of a JSON value fails with TypeError on null, arrays and objects and with ValueError on bad text |
| JsonValues.PyIntOfIntegers | etl/bigquery/standings.py:83 | `int()` gives back an integer and its decimal text |
| JsonValues.DumpedTextOfString | etl/bigquery/standings.py:92-100 | `json.dumps(s).strip('"')` is s for a string needing no escapes |
| JsonValues.DumpedTextOfNull | etl/bigquery/top_scorers.py:60-79 | `json.dumps(None).strip('"')` is the text "null" |
| JsonValues.DumpedTextOfInt | src/location.py:31-32 | `json.dumps(i)` is the decimal text of i |
| Timestamps.Strptime | etl/bigquery/injuries.py:114-117 | a parsed time is a valid calendar date and time; a mismatch raises the strptime ValueError |
| Timestamps.StrptimeLiteralRoundTrip | etl/bigquery/news.py:66 | a canonical stamp followed by the format's literal tail, such as "Z", parses back to its own date and time |
| Timestamps.StrptimeZuluRoundTrip | etl/bigquery/injuries.py:114-117 | under `%z` a canonical stamp ending in "Z" parses back to its own date and time |
| Timestamps.StrptimeOffsetRoundTrip | etl/bigquery/injuries.py:114-117 | under `%z` a canonical stamp ending in "+00:00" parses back to its own date and time |
| Timestamps.FixtureOffsetIsLiteral | components/fixtures_section.py:33 | with the literal "+00:00" format only the offset "+00:00" parses |
| Timestamps.DateTextIsIsoPrefix | etl/bigquery/injuries.py:117 | `strftime("%Y-%m-%d")` is the date part of the canonical stamp |
| Timestamps.TimeTextIsIsoInfix | etl/bigquery/news.py:67 | `strftime("%H:%M:%S")` is the time part of the canonical stamp |
| Timestamps.TimeTextOrder | etl/bigquery/news.py:67 | HH:MM:SS texts compare as the seconds of the day they denote, and are equal exactly when those are |
| Frames.MinLength | components/point_progression_section.py:31 | the length of the shortest list |
| Frames.ZipTruncates | components/point_progression_section.py:31 | `zip` keeps as many tuples as the shortest list, tuple i holding element i of every list |
| Frames.ZipOfColumns | etl/bigquery/standings.py:210-227 | zipping the parallel lists of some rows gives those rows back |
| Frames.Select | etl/bigquery/top_scorers.py:113-120 | reordering a tuple takes entry order[j] into place j |
| Frames.SelectColumns | etl/bigquery/top_scorers.py:113-120 | returning the lists in another order gives the columns of the reordered rows |
| Frames.BuildColumns | etl/bigquery/standings.py:80-159 | the `while count < n` loop fills the parallel lists with the rows' fields, or raises the first failing row's error |
| Frames.MakeFrame | etl/bigquery/standings.py:227 | `pd.DataFrame(rows, columns=headers)` succeeds iff every row has one value per header |
| Frames.Names | etl/bigquery/standings.py:232-250 | the schema's column names, in order |
| Frames.Apply | etl/bigquery/standings.py:258-262 | a replacing write makes the table equal the frame, an appending one adds the rows after the old rows; no other table changes |
| Frames.ReplaceIsIdempotent | etl/bigquery/standings.py:258-262 | repeating a replacing write changes nothing |
| Frames.AppendTwiceDuplicates | etl/bigquery/current_round.py:87-91 | repeating an appending write stores the rows twice |
| Frames.ApplyAllReplaces | etl/bigquery/squads.py:142-148 | after replacing writes, each written table holds the frame of the last write to it and every other table is unchanged |
| Frames.RunLoads | etl/bigquery/squads.py:57-152 | the per-team loop issues the writes of teams 0, 1, ... in order and stops at the first team that raises |
| Frames.RunLoadsStopsAt | etl/bigquery/squads.py:57-152 | after a prefix of successful teams, the first failing team ends the run with its error |
| Frames.TeamTableShape | etl/bigquery/squads.py:142 | a table name is the dataset, a dot, then the team name with no space and no capital letter, and names that agree after `replace`/`lower` give the same table |
| Transform.CatchInt | etl/bigquery/squads.py:84-100 | the try/except around `int()` never lets TypeError or ValueError escape; only the subscript's own error does |
| Transform.ConvertKind | etl/bigquery/standings.py:80-159 | `int()` appends an integer, `float()` a decimal, `str()`, `json.dumps`, `strip` and `strftime` a text, the guarded `int()` an integer or its default |
| Transform.IntOrDefaultCatches | etl/bigquery/top_scorers.py:87-94 | a null, a missing-by-TypeError or an unconvertible value gives the default; a convertible value gives `int(value)` |
| Transform.IntFieldRejectsNull | etl/postgres/top_scorers.py:95-97 | `int(None)` raises TypeError |
| Transform.IntOrDefaultExtendsIntField | etl/bigquery/top_scorers.py:87-94 | the guarded read agrees with the plain `int()` read wherever that succeeds, and fails only where it fails with the same error |
| Transform.ReadRow | etl/bigquery/standings.py:80-159 | a row succeeds iff every field does, holds field k at k, and otherwise raises the first failing field's error |
| Transform.FullNameOfTexts | etl/bigquery/top_scorers.py:60-79 | the full name is the stripped first name, one space, the stripped last name |
| Transform.FullNameOfStrings | etl/bigquery/top_scorers.py:60-79 | for plain string names the full name is "first last" |
| Transform.FullNameOfNull | etl/bigquery/top_scorers.py:60-79 | a null first name shows as the text "null" |
| Transform.PrefixAll | etl/postgres/teams.py:101-133 | every field read under a common prefix, in order |
| Transform.ReadFieldPrefixed | etl/postgres/teams.py:101-133 | reading a field under a prefix is reading it in the value at the prefix; a failing prefix raises its error, except where the guarded `int()` catches a TypeError |
| Transform.ReadRowPrefixed | etl/bigquery/standings.py:80-159 | a row read under a prefix that exists is the row read in the value at that prefix |
| Transform.ReadRowAgree | etl/bigquery/top_scorers.py:58-111 | field lists that read the same values give the same row |
| PointProgression.Running | components/point_progression_section.py:15-25 | one running total per result letter |
| PointProgression.TotalCountsResults | components/point_progression_section.py:17-25 | a form's points are 3 per 'W' plus 1 per 'D' |
| PointProgression.LastEntryCountsResults | components/point_progression_section.py:17-25 | the last running total is 3 x count('W') + count('D') |
| PointProgression.RunningSteps | components/point_progression_section.py:17-23 | each entry adds 3 for 'W', 1 for 'D' and 0 otherwise to the previous one, starting from 0 |
| PointProgression.RunningMonotone | components/point_progression_section.py:16-25 | the running total is never negative and never decreases |
| PointProgression.CalculatePoints | components/point_progression_section.py:11-27 | five lists, list t being the running totals of form t; fewer than five forms is an IndexError |
| PointProgression.IntRows | components/point_progression_section.py:31 | each total becomes an integer cell, in place |
| PointProgression.ChartFrame | components/point_progression_section.py:29-32 | the headers are the first five team names, there is one row per gameweek up to the shortest form, and row g holds each team's g-th total |
| Fixtures.OrdinalSuffixIsEnglish | components/fixtures_section.py:36-45 | for days 1 to 31 the suffix rule gives the English ordinal suffix (1st, 2nd, 3rd, 4th-20th, 21st, 22nd, 23rd, 24th-30th, 31st) |
| Fixtures.MatchLabelDate | components/fixtures_section.py:32-47 | every label starts with the kick-off's date read back: month name, the day as two digits with its English ordinal suffix, then the year |
| Fixtures.MatchLabelTime | components/fixtures_section.py:32-35 | every label ends with " - " and the kick-off's hour and minute as two digits each |
| Fixtures.MatchDateOfStamp | components/fixtures_section.py:33 | a fixture date parses iff its offset is literally "+00:00", and then gives the label of that time |
| Fixtures.DocAt | components/fixtures_section.py:27-29 | `documents[i]` is document i in date order, and IndexError past the end |
| Fixtures.FieldList | components/fixtures_section.py:50-59 | a value list has ten entries, entry i read from document i; fewer than ten documents is an IndexError |
| Fixtures.LabelList | components/fixtures_section.py:32-47 | the label list has ten entries, entry i the label of document i |
| Fixtures.FieldLists | components/fixtures_section.py:50-59 | the six value comprehensions run in order, each giving its list |
| Fixtures.PullReadsTenDocuments | components/fixtures_section.py:20-47 | a pulled round has ten labels from the first ten documents; with fewer documents the pull raises IndexError |
| Fixtures.PullReadsFields | components/fixtures_section.py:50-59 | entry i of each value list is the value at its path in document i |
| Fixtures.Countdown | components/fixtures_section.py:72-75 | the rounds from max_round down to min_round, none when min_round > max_round |
| Fixtures.CountdownVisitsEachOnce | components/fixtures_section.py:72-75 | every round between min_round and max_round is visited exactly once, in decreasing order |
| Fixtures.ShownFollowsCountdown | components/fixtures_section.py:72-144 | rounds are pulled in countdown order, and the first failing pull ends the display with its error |
| Fixtures.Display | components/fixtures_section.py:71-144 | the display loop shows exactly the pulls of the countdown, up to the first failure |
| Fixtures.PullRounds | components/fixtures_section.py:74-144 | for any pull of a round, the countdown loop collects exactly the pulls from the top round down, up to the first failure, whose exception it returns |
| LeagueForm.LabelShowsPositionAndForm | components/league_form_section.py:16 | the label shows position index+1, the literal "th", and the last five form characters (all when fewer) |
| LeagueForm.TeamHtml | components/league_form_section.py:9-18 | two entries per index, and an IndexError for a missing row |
| LeagueForm.TeamHtmlRenders | components/league_form_section.py:9-18 | the list renders iff every index names a row |
| LeagueForm.TeamHtmlEntries | components/league_form_section.py:9-18 | entries 2k and 2k+1 are the image and then the label of the team at index k |
| LeagueForm.GenerateTeamHtml | components/league_form_section.py:8-18 | the loop builds exactly the image/label list of the indices |
| LeagueForm.ColumnsPartitionRest | components/league_form_section.py:22-27 | the five columns cover positions 5 to 19 (ranks 6 to 20), each exactly once |
| LeagueForm.ColumnRenders | components/league_form_section.py:24-27 | column i renders iff the frame has a row at index i+15 |
| LeagueForm.RestOfLeague | components/league_form_section.py:20-29 | one markdown list per column, column i showing its three positions |
| LeagueForm.RestOfLeagueNeedsTwenty | components/league_form_section.py:20-29 | the section renders iff the frame has at least twenty teams |
| CurrentRound.ParseRound | etl/bigquery/current_round.py:56-59 | the season is the first 14 characters and the round `int()` of the text from index 17; a non-string raises TypeError, bad digits ValueError |
| CurrentRound.ParseRoundOfLabel | etl/bigquery/current_round.py:56-59 | "Regular Season - N" is read back as ("Regular Season", N) |
| CurrentRound.ParseRoundOfShortLabel | etl/bigquery/current_round.py:58-59 | a label ending before index 18 raises ValueError |
| CurrentRound.CreateDataFrame | etl/bigquery/current_round.py:51-66 | one row of season and round, and the round number |
| CurrentRound.FrameMatchesSchema | etl/bigquery/current_round.py:61-75 | the frame's columns are the schema's names in order and each cell fits its declared type |
| CurrentRound.SendDataframe | etl/bigquery/current_round.py:81-91 | the frame given is ignored; the API is read again and the new frame is appended |
| CurrentRound.SendTwiceStoresRoundTwice | etl/bigquery/current_round.py:87-91 | loading the same round twice stores its row twice |
| Standings.CallApi | etl/bigquery/standings.py:80-159 | the loop gives twelve lists holding the fields of the 20 standings entries, or the first error |
| Standings.CreateDataFrame | etl/bigquery/standings.py:177-229 | the frame has the twelve headers and exactly 20 rows, row i read from entry i |
| Standings.RowReadsItsEntry | etl/bigquery/standings.py:80-159 | row count is read from standings entry count alone |
| Standings.ShortTableFails | etl/bigquery/standings.py:80-83 | a standings group with fewer than 20 entries makes the job raise |
| Standings.HeadersMatchSchema | etl/bigquery/standings.py:196-209 | the schema names are the headers, in order |
| Standings.RowFitsSchemaExceptPoints | etl/bigquery/standings.py:127-129 | every value fits its declared column type except points, an integer declared STRING |
| Standings.ColumnConversion | etl/bigquery/standings.py:235-248 | each column's conversion matches its declared type, except points |
| Standings.SendReplacesTable | etl/bigquery/standings.py:253-262 | the write replaces the standings table, leaves the others alone, and can be repeated |
| Standings.Run | etl/bigquery/standings.py:267-270 | the job replaces the standings table with the 20-row frame, or raises the first error |
| TopScorers.ReturnOrderIsPermutation | etl/bigquery/top_scorers.py:113-120 | the returned lists are the six read lists in another order, each once |
| TopScorers.FrameRows | etl/bigquery/top_scorers.py:113-120 | each frame row is the read row in return order |
| TopScorers.CallApi | etl/bigquery/top_scorers.py:58-120 | the loop gives the six lists in return order for the five scorers, or the first error |
| TopScorers.CreateDataFrame | etl/bigquery/top_scorers.py:123-150 | five rows in header order name, goals, team, assists, nationality, photo |
| TopScorers.RowReadsItsEntry | etl/bigquery/top_scorers.py:58-111 | row count is read from response entry count alone |
| TopScorers.NullAssists | etl/postgres/top_scorers.py:95-97 | a null assist is 0 for BigQuery and raises for PostgreSQL |
| TopScorers.RowsAgreeAt | etl/bigquery/top_scorers.py:87-94 | where the PostgreSQL read succeeds, the BigQuery read gives the same row |
| TopScorers.BigQueryAgreesWithPostgres | etl/postgres/top_scorers.py:66-114 | when the PostgreSQL job reads all five scorers, the BigQuery job reads the same rows |
| TopScorers.HeadersMatchSchemas | etl/postgres/top_scorers.py:139-164 | both schemas name the headers, in order |
| TopScorers.BqSendDataframe | etl/bigquery/top_scorers.py:168-179 | the BigQuery write replaces the table with the module-level frame |
| TopScorers.BqRun | etl/bigquery/top_scorers.py:182-185 | the BigQuery job replaces the top-scorers table with the five rows, or raises |
| TopScorers.PgRun | etl/postgres/top_scorers.py:204-211 | the PostgreSQL job replaces its table with the five rows, or raises |
| PostgresLoader.SendDataframe | etl/postgres/teams.py:210-250 | an empty frame is rejected first, a missing schema becomes the default, a non-dict schema is rejected, and otherwise the table is replaced |
| PostgresLoader.OmittedSchemaIsDefault | etl/postgres/teams.py:236-237 | omitting the schema is passing the default schema |
| Teams.CallApi | etl/postgres/teams.py:93-133 | one request per id of the first 20 standings rows, in order, giving nine lists |
| Teams.CreateDataFrame | etl/postgres/teams.py:148-191 | 20 rows in header order, row i from the answer for id i |
| Teams.ShortStandingsFail | etl/postgres/teams.py:71 | fewer than 20 standings rows raise IndexError |
| Teams.RowReadsItsTeam | etl/postgres/teams.py:93-133 | row i depends only on the answer for id i |
| Teams.HeadersMatchSchema | etl/postgres/teams.py:164-205 | the schema keys are the headers, in order |
| Teams.AverageGoalsDeclaredSmallInt | etl/postgres/teams.py:126-128 | average goals is a decimal, which does not fit the SMALLINT it is declared as |
| Teams.Run | etl/postgres/teams.py:253-261 | the job replaces the teams table with the default schema, or raises |
| Squads.HeadersMatchSchema | etl/bigquery/squads.py:106-140 | the schema names are the headers, in order |
| Squads.TeamNameIsText | etl/bigquery/squads.py:77-78 | the first row's team name is a text |
| Squads.TeamLoad | etl/bigquery/squads.py:73-148 | a team's rows, one per player, replace the table named after the team; a team with no players raises IndexError |
| Squads.CallApi | etl/bigquery/squads.py:57-152 | the teams' writes are issued in rank order, up to the first team that raises |
| Squads.EmptySquadStops | etl/bigquery/squads.py:142 | a squad without players raises IndexError when the table name is formed |
| Squads.RowsRepeatTeam | etl/bigquery/squads.py:77-78 | every row of a team repeats that team's id and name |
| Squads.MissingAgeOrNumberIsNull | etl/bigquery/squads.py:83-101 | a null age or a null number becomes None |
| Squads.SquadLoadReplaces | etl/bigquery/squads.py:144-148 | each team's write replaces its table with the squad schema |
| Squads.SquadsReplaceTables | etl/bigquery/squads.py:57-152 | every write replaces its table with the squad schema, and after the job each written table holds the frame of the last team written to it |
| Injuries.InjuredTeams | etl/bigquery/injuries.py:58-72 | the filter succeeds iff every answer can be read, and keeps at most the ids it is given |
| Injuries.InjuredTeamsKeeps | etl/bigquery/injuries.py:58-72 | an id is kept iff it is among the ids and its injury answer is non-empty, and the kept ids keep their order among the ids |
| Injuries.InjuredTeamsStopsAt | etl/bigquery/injuries.py:58-72 | the first unreadable answer ends the filter with its error |
| Injuries.GetTeamsWithInjuries | etl/bigquery/injuries.py:44-72 | of the first 20 ids, the loop keeps those whose injury answer is non-empty, in rank order |
| Injuries.HeadersMatchSchema | etl/bigquery/injuries.py:121-152 | the schema names are the headers, in order |
| Injuries.TeamNameIsText | etl/bigquery/injuries.py:107-112 | the first row's team name is a text |
| Injuries.TeamLoad | etl/bigquery/injuries.py:103-161 | a team's rows, one per response entry, replace the table named after the team |
| Injuries.LoadInjuredTeams | etl/bigquery/injuries.py:86-161 | the injured teams' writes are issued in order, up to the first team that raises |
| Injuries.CallApi | etl/bigquery/injuries.py:75-161 | the job filters the teams, then writes one table per injured team |
| Injuries.EmptyAnswerStops | etl/bigquery/injuries.py:103-154 | an empty answer raises IndexError; otherwise the write exists iff the rows can be read |
| Injuries.TeamIdFromFirstEntry | etl/bigquery/injuries.py:107 | every row's team id comes from response entry 0 |
| Injuries.InjuryDateIsDatePart | etl/bigquery/injuries.py:114-117 | the injury date is the YYYY-MM-DD part of the parsed fixture stamp |
| News.CallApi | etl/bigquery/news.py:60-69 | the loop gives the four lists of the articles' fields, or the first error |
| News.RowPerArticle | etl/bigquery/news.py:60-67 | one row per article, whose published_at is the HH:MM:SS of the article's stamp |
| News.RowsAreShaped | etl/bigquery/news.py:60-67 | every row has four values and a text time |
| News.Insert | etl/bigquery/news.py:86 | inserting a row into rows in descending time order keeps that order and adds exactly that row |
| News.SortDescending | etl/bigquery/news.py:86 | the sort keeps exactly the same rows and orders them by published_at, latest first |
| News.CreateDataFrame | etl/bigquery/news.py:72-88 | the frame has the four headers and the read rows, in descending published_at order |
| News.OrderIgnoresDate | etl/bigquery/news.py:66-67 | the sort compares times of day only: later in the day comes first, whatever the date |
| News.HeadersMatchSchema | etl/bigquery/news.py:79-99 | the schema names are the frame's columns, in order |
| News.Run | etl/bigquery/news.py:104-121 | the job replaces the news table with the sorted rows and leaves the other tables alone, or raises |
| Location.FillIds | src/location.py:29-34 | the while loop collects `json.dumps` of the team id of standings places 0 to 19 |
| Location.IdsFollowStandings | src/location.py:29-34 | exactly 20 ids, id k from standings place k |
| Location.Unzip | src/location.py:42-46 | the team texts and the city texts of the answers as two aligned lists |
| Location.FillTeamsAndCities | src/location.py:37-46 | one request per id, in id order, with team k and city k from the answer to id k |
| Location.Eval | src/location.py:49 | `eval` of dumped JSON gives an integer or a string; `null`, `true` and `false` raise NameError |
| Location.EvalReadsDumpedInt | src/location.py:31-32 | an integer id written by `json.dumps` is read back by `eval` as the same integer |
| Location.EvalReadsDumpedString | src/location.py:31-32 | a string id whose characters `json.dumps` writes as themselves is read back by `eval` as the same string |
| Location.EvalRejectsNull | src/location.py:49 | a null id is written as `null` and `eval` raises NameError on it |
| Location.StrippedTeams | src/location.py:52-55 | each team name without leading and trailing quotes |
| Location.StripTeams | src/location.py:52-55 | the team loop produces exactly the stripped names, in order |
| Location.CityOf | src/location.py:59-63 | a city loses its quotes and everything from its first comma: the result is the prefix of the unquoted city up to its first comma, or all of it when it has none |
| Location.Cities | src/location.py:59-63 | each city cut at its first comma, in order |
| Location.StripCities | src/location.py:59-63 | the city loop produces exactly the cut cities, in order |
| Location.TeamNameRoundTrip | src/location.py:42-55 | a plain string team name comes out unchanged |
| Location.CityRoundTrip | src/location.py:45-63 | a plain string city comes out as its text before the first comma, unchanged when it has none |
| Location.Import | src/location.py:19-63 | the module's statements compute the ids, the teams and the cities in that order, or raise the first error |
| Location.RowsAreTriples | src/location.py:79-80 | three equal-length lists zip into (ID, Team, City) triples in list order |
| Location.ListsFollowIds | src/location.py:37-63 | entry k of each list comes from standings place k and the answer to id k |
| Location.IntegerIdsRoundTrip | src/location.py:31-49 | with integer team ids the ID column holds those integers, in standings order |
| Location.LoadJob | src/location.py:78-91 | the load appends the (ID, Team, City) rows to the location table |
| Location.Drop | src/location.py:67-74 | dropping removes the project's location table and nothing else |

## Left out

- Network, secrets and clients: the API calls, Secret Manager, and the BigQuery, Firestore and SQLAlchemy clients are not modelled. Their answers are parameters and their writes are `Load` values.
- Console output (`print`) and Streamlit rendering calls are not modelled, apart from the markdown text of the league-form section.
- Clock: the injuries and news jobs put today's or yesterday's date in their requests. The model takes the answers as given, and the two passes of the injuries job as two separate answer functions.
- SQL: the `ORDER BY Rank` queries that give the team ids are not modelled. The ids are a parameter, taken to be in rank order.
- Rounds are not deduplicated. `CurrentRound.SendDataframe` appends on every run, because the source never compares with stored rounds.
- The BigQuery top-scorers job writes the module-level frame whatever frame it is given. `TopScorers.BqSendDataframe` models exactly that.
- The jobs run their main blocks on import (`if __name__ != "__main__"`), while the PostgreSQL top-scorers job and the BigQuery current-round job run theirs only as a script. The `Run` methods model what those blocks do, not when they run.
- The PostgreSQL teams job calls the loader without a schema, so the default schema applies. `PostgresLoader.SendDataframe` covers both the given and the omitted case.
- Text.AsciiLower: lower-cases ASCII letters only. Python's Unicode case mapping is not modelled.
- JsonValues.Json: there is no non-integer JSON number. An answer that gives a figure such as the average goals as a JSON number with a fraction or an exponent cannot be represented; `float()` is modelled on integers and on decimal strings only.
- JsonValues.Dumps: strings that need escape sequences, arrays and objects give `NotModelled` instead of their JSON text.
- JsonValues.PyStr: arrays and objects give `NotModelled` where Python's `str()` gives their repr.
- Text.ParseInt: underscores and non-ASCII digits are not accepted, though Python's `int()` accepts them.
- Text.ParseFloat: accepts plain decimals only, read as exact values. Exponents ("1e3"), "inf", "nan" and underscores ("1_0"), which Python's `float()` accepts, give ValueError, and binary rounding is not modelled.
- Timestamps.Strptime: only the directives the code uses are modelled. The `%z` offset accepts "Z" and ±HH[:]MM and gives `NotModelled` for offsets with seconds. The exact text of the error message is a fixed constant.
- News.SortDescending: pandas' default sort is not stable, so rows with the same published_at may come in any order. The model fixes one order, and its contract says nothing about how ties are ordered.
- Location.Eval: covers only the texts `json.dumps` can produce for the ids: integers, plain strings and the three constants. Other texts give `NotModelled`.
- Location.LoadJob: the table schema is inferred by the BigQuery client, so the load carries no schema.
- Location.Drop: the drop query is never awaited, so a failure to drop is not reported. The model only removes the table.
- Display code that only renders (`display` methods apart from their loops, chart layout, HTML styling) is not modelled.
