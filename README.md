# IPTV relay backend: a verified model

This project models the core of a small IPTV backend in Dafny:

- **The single-stream relay** (`routes/stream.js`). One module-level record, `activeStream`, says which channel is being relayed. The playlist request handler does one of the following:
  - refuses the request;
  - redirects to the live channel;
  - restarts the live channel;
  - launches a new transcoder command.

  The command's `start`, `error` and `end` events and a 20-tick poll for the playlist file then change the record. Teardown is `stopActiveStream`; the first signal triggers `gracefulShutdown`. All of this is the class `Stream.StreamManager`, with one method per request, event, timer tick and timer firing. The transcoder, the file system and the catalog become oracle parameters: `Probe` (does the playlist exist), `Lookup` (the catalog row) and the error message text.
- **Playlist ingest** (`scripts/parseM3u.js`). `parseGroupTitle` runs eight ordered rules that map a group title to a location code and a cleaned title. `extractAttributesFromString` is the `key="value"` scan of an `#EXTINF` line plus the channel name. The ingest also prepares segments into rows and inserts the rows in batches of 5000.
- **The batch re-classifier** (`scripts/update_channel_groups.js`). It applies the same rules to every stored row, page by page. Its empty-title fallback differs from `parseGroupTitle`.
- **Channel listing** (`routes/channels.js`). This covers:
  - the defaults and validation of page and limit;
  - the offset and the page count;
  - the normalisation of location codes;
  - the filter list;
  - the 400/404 rules of `GET /:id`.

The module `Js` holds the JavaScript built-ins these files use:
- `trim`, with its whitespace set;
- `toUpperCase`, one code point to one, for ASCII, Latin-1, `ı` and `ſ`;
- `toLowerCase` for ASCII;
- `split` on one character;
- `String(n)` and `parseInt`.

Each imperative piece of the source is a method with loops and invariants. Each method is proved against a specification function, and the properties the source promises are lemmas about those functions.

Time is a sequence of steps. Each request handler and each event handler runs as one atomic step. Races between overlapping requests are therefore interleavings of those steps. Three scenario methods replay them literally:
- `RaceBeforeStart`: two first requests before either `start`;
- `RestartRace`: a restart whose old command's SIGTERM error arrives late;
- `LiveChannelIsKept`: requests while a channel is live.

## Model

| member | source | states |
|---|---|---|
| Stream.NamesAreDistinct | routes/stream.js:140-141 | Different channels never share an output directory, a playlist path or a `/hls/<id>/playlist.m3u8` target, and the playlist lies inside the channel's directory |
| Stream.RouteCases | routes/stream.js:103-126 | With a live channel, a request for another channel is redirected to the live one. A request for the live channel is served as is if its playlist exists, restarted if it is missing, and passed on if the check throws. Only an idle record takes the start path |
| Stream.InvalidIffUnparsable | routes/stream.js:95-99 | The request is refused with 400 exactly when `parseInt` rejects the id |
| Stream.LaunchUpdateSound | routes/stream.js:173-259 | Replacing one launch by a consistent launch of the same channel keeps the relay's invariant |
| Stream.Tick | routes/stream.js:187-215 | One poll tick: it counts; it redirects once the playlist exists, if no response was sent; it never answers after a response or an error; polling stops exactly when the file is found, the check throws or the count reaches 20; it gives up (500 and teardown) only when it is still free to answer |
| Stream.PollEndsWithin | routes/stream.js:185-188 | The poll stops after at most 20 ticks in all |
| Stream.AnswersOnce | routes/stream.js:190-213 | Once a response or an error has been sent, later ticks send nothing |
| Stream.PollAnswers | routes/stream.js:187-215 | A launch still free to answer when its poll stops has been answered by the poll |
| Stream.PollTimesOut | routes/stream.js:197-204 | If the playlist never appears, the 20th tick answers 500 "Failed to start stream: Playlist not created in time" |
| Stream.AfterError | routes/stream.js:218-244 | An `error` event finishes the launch. A SIGTERM error is never reported. Any other error sets `errorSent`, and answers 500 "FFmpeg runtime error" exactly when no response was sent yet |
| Stream.StreamManager.constructor | routes/stream.js:16-22 | The record starts all null, with no cleanup scheduled and no shutdown in progress |
| Stream.StreamManager.Status | routes/stream.js:89-91 | `/status` reports a channel exactly when a command is held, and it is that command's channel |
| Stream.StreamManager.StopActiveStream | routes/stream.js:25-86 | The held command gets SIGTERM. The output directory's deletion is scheduled only when the record holds one. The record is reset to all null with `cleanupScheduled` false. Nothing else changes, so a second call schedules nothing |
| Stream.StreamManager.StartStream | routes/stream.js:126-216 | With nothing live: a catalog miss answers 404 and changes nothing; a lookup that throws is passed on; a row creates the output directory and one new command, with the record not yet committed |
| Stream.StreamManager.RequestPlaylist | routes/stream.js:94-275 | The handler does what `RouteOf` of the old record says. 400 and redirects change nothing. A restart sends SIGTERM, schedules the directory's deletion and starts afresh. A fresh start kills nothing |
| Stream.StreamManager.ServeChannel | routes/stream.js:100-275 | Same as `RequestPlaylist`, for an id that already parsed |
| Stream.StreamManager.OnStart | routes/stream.js:173-186 | `start` commits the record to this command's channel, paths and process, whatever the record held. It clears `cleanupScheduled` and starts the poll at count 0 |
| Stream.StreamManager.PollTick | routes/stream.js:187-215 | The launch becomes `Tick(launch, probe)`. When the tick gives up, whatever stream is live by then is torn down |
| Stream.StreamManager.OnError | routes/stream.js:218-247 | The launch becomes `AfterError(launch, message)`. A SIGTERM error tears down only if the live channel is this request's channel. Any other error always tears down |
| Stream.StreamManager.OnEnd | routes/stream.js:249-259 | `end` always tears down, whichever channel is live |
| Stream.StreamManager.FireCleanup | routes/stream.js:64-73 | A scheduled deletion removes its directory, if present, and nothing else |
| Stream.StreamManager.GracefulShutdown | routes/stream.js:278-287 | The first signal tears down and schedules the exit. Any later signal changes nothing |
| Stream.RaceBeforeStart | routes/stream.js:126-258 | Two first requests for `a` and `b` before either `start`: both launch a command, and the record shows `b`. Only `b`'s command is ever sent SIGTERM. `a`'s `end` tears down `b`'s stream |
| Stream.RestartRace | routes/stream.js:118-126 | A restart reuses the directory whose deletion was just scheduled, so the deletion removes the new stream's output. A late SIGTERM error from the old command tears down the new stream |
| Stream.LiveChannelIsKept | routes/stream.js:103-117 | With `a` live and its playlist present, requests for another channel and repeated requests for `a` all redirect to `/hls/a/playlist.m3u8`. Nothing is stopped or launched |
| GroupTitle.MappingCodesAreTwoCapitals | scripts/parseM3u.js:10-20 | Every mapped code is two capital letters |
| GroupTitle.PipeMatch | scripts/parseM3u.js:29 | A `XX\|` match captures two capital letters |
| GroupTitle.DashMatch | scripts/parseM3u.js:30 | A `XX -` match captures two capital letters |
| GroupTitle.MappingFrom | scripts/parseM3u.js:56-57 | Finds the first mapping, in insertion order, whose name followed by a space starts the upper-cased title, or reports that none does |
| GroupTitle.CapturedCodeRule | scripts/parseM3u.js:47-52 | Rules 1 and 2 take the captured code |
| GroupTitle.FixedCodeRule | scripts/parseM3u.js:67-70 | The PT/BR and WT\| tests give their fixed code |
| GroupTitle.KeepTitle | scripts/parseM3u.js:71-82 | The keyword and script tests give their code and keep the title |
| GroupTitle.RuleCode | scripts/parseM3u.js:47-82 | Every test that fires gives two capital letters or `XXX` |
| GroupTitle.FirstFiring | scripts/parseM3u.js:45-82 | The `matched` flag picks a test index within the tests |
| GroupTitle.FirstFiringFacts | scripts/parseM3u.js:45-82 | The chosen test fires, and no test before it does: the first match wins |
| GroupTitle.FirstFiringIs | scripts/parseM3u.js:45-82 | A firing test with none before it is the one chosen |
| GroupTitle.KeywordFrom | scripts/parseM3u.js:85-91 | The keyword loop finds a match exactly when some worldwide keyword occurs in the upper-cased title |
| GroupTitle.Decide | scripts/parseM3u.js:45-96 | The code is never null: two capitals, `XXX` or `OTHER`. `OTHER` leaves the title unchanged |
| GroupTitle.GroupTitleOf | scripts/parseM3u.js:39-107 | `parseGroupTitle` returns a known code and a non-empty title |
| GroupTitle.NoRuleOnEmpty | scripts/parseM3u.js:47-82 | No test fires on the empty title |
| GroupTitle.NothingFiresOnEmpty | scripts/parseM3u.js:47-82 | On the empty title the `matched` flag stays false |
| GroupTitle.NoKeywordInEmpty | scripts/parseM3u.js:85-91 | No worldwide keyword occurs in the empty title |
| GroupTitle.NullIsEmpty | scripts/parseM3u.js:40-104 | A missing title is classified like `''`, as `OTHER` / `Uncategorized` |
| GroupTitle.PipeRuleWins | scripts/parseM3u.js:46-101 | `XX\|rest` gives code `XX` and `rest` trimmed (the whole title if that is empty), ahead of every later rule |
| GroupTitle.WtRuleNeverDecides | scripts/parseM3u.js:69-70 | Any title the `WT\|` test matches was already taken by rule 1 with code `WT`, so that test's `WW` is never produced |
| GroupTitle.NameRuleDecides | scripts/parseM3u.js:55-63 | If the upper-cased title starts with a mapped name and a space, the first such name gives the code. The title loses the name, is trimmed, and loses one leading `-` |
| GroupTitle.MappingFromIs | scripts/parseM3u.js:56-62 | The mapping loop stops at the first matching name |
| GroupTitle.KeywordPrecedence | scripts/parseM3u.js:71-82 | When rules 1-3 and PT/BR do not fire, the first of the following decides, keeping the title: case-insensitive `MENA` (`AR`), then `EU`, then Arabic script (`AR`), then `FOR ADULTS` (`XXX`) |
| GroupTitle.FallbackCodes | scripts/parseM3u.js:84-96 | If no test fires, the code is `WW` exactly when a worldwide keyword occurs, else `OTHER`, and the title is kept |
| GroupTitle.ProgressComplete | scripts/parseM3u.js:45-96 | After all the tests, the locals hold exactly what the first firing test decides |
| GroupTitle.TryCapturedCodes | scripts/parseM3u.js:46-52 | Rules 1 and 2, statement by statement, keep the rule-progress invariant |
| GroupTitle.TryMappedNames | scripts/parseM3u.js:54-64 | Rule 3's loop with `break` keeps the invariant |
| GroupTitle.TryRegionalPatterns | scripts/parseM3u.js:66-72 | Rule 4 keeps the invariant |
| GroupTitle.TryScriptAndAdult | scripts/parseM3u.js:74-82 | Rules 5 and 6 keep the invariant |
| GroupTitle.ApplyRules | scripts/parseM3u.js:41-96 | The imperative rules compute `Decide` |
| GroupTitle.ParseGroupTitle | scripts/parseM3u.js:39-108 | `parseGroupTitle` computes `GroupTitleOf`: the rules, then the two empty-title fallbacks |
| Extinf.KeyEnd | scripts/parseM3u.js:115 | The greedy key run ends within the line |
| Extinf.KeyEndChars | scripts/parseM3u.js:115 | The key run is all key characters and stops at the first non-key character |
| Extinf.IndexFrom | scripts/parseM3u.js:115 | Finds the first occurrence of a character at or after a position |
| Extinf.IndexFromFirst | scripts/parseM3u.js:115 | The character found is the first occurrence from the position |
| Extinf.LineEnd | scripts/parseM3u.js:115 | The reach of `.` lies within the line |
| Extinf.LineEndFirst | scripts/parseM3u.js:115 | `.` stops exactly at the first line terminator |
| Extinf.MatchAt | scripts/parseM3u.js:115 | A match at a position covers a non-empty stretch of the line |
| Extinf.MatchAtSound | scripts/parseM3u.js:115 | A match is a well-formed `key=<q>value<q>` whose text is exactly the stretch it covers |
| Extinf.Search | scripts/parseM3u.js:117 | `exec` finds a match at or after `lastIndex` |
| Extinf.SearchLeftmost | scripts/parseM3u.js:117 | What `exec` finds is a match, and none starts earlier |
| Extinf.ExtractedName | scripts/parseM3u.js:127 | The name is never empty. A truthy `tvg-name` comes first, then the non-empty text after the last comma, and otherwise `Unknown` |
| Extinf.ToMapKeys | scripts/parseM3u.js:119 | A key is stored exactly when some match carries it and it is not `__proto__`, which a plain object hands to the prototype setter and does not store |
| Extinf.ToMapLastWins | scripts/parseM3u.js:119 | A later duplicate key overwrites the earlier value |
| Extinf.MatchedKeysLowerCase | scripts/parseM3u.js:119 | Stored keys have no capital letters |
| Extinf.ExtractedNameAddsOneKey | scripts/parseM3u.js:113-129 | `extractedChannelName` never collides with a line's attribute: the result is the attributes plus that one non-empty key |
| Extinf.MatchAtAttribute | scripts/parseM3u.js:115 | Every well-formed attribute is matched where it starts |
| Extinf.MatchesOfRender | scripts/parseM3u.js:117-120 | Attributes written one after another are visited in order, with nothing in between |
| Extinf.NameAfterLastComma | scripts/parseM3u.js:123-124 | On one line, the name is the trimmed text after the last comma |
| Extinf.ExtinfLineRoundTrip | scripts/parseM3u.js:112-129 | Extraction inverts writing: an `#EXTINF` line built from well-formed attributes, a comma and a name gives back the attributes, with keys lower-cased, and the trimmed name |
| Extinf.ExtractAttributesFromString | scripts/parseM3u.js:112-130 | The `while (regex.exec)` loop and the name computation produce `ExtractedAttributes(line)` |
| Ingest.RowOfSegment | scripts/parseM3u.js:158-205 | A segment becomes a row exactly when it has a truthy `inf` or `title` and a truthy `uri`. The row carries the extracted name, the classification of `group-title` or `Uncategorized`, `tvg-id`, `tvg-logo` and the url |
| Ingest.PreparedRowsValid | scripts/parseM3u.js:158-205 | Prepared rows are valid, and there are no more rows than segments |
| Ingest.PrepareRows | scripts/parseM3u.js:154-205 | The loop pushes exactly the prepared rows, and pushed plus skipped equals the number of segments |
| Ingest.ChunksPartition | scripts/parseM3u.js:210-216 | The 5000-row batches, put back together in order, are the rows |
| Ingest.ChunkSizes | scripts/parseM3u.js:210-217 | No batch is empty and none exceeds 5000. All but the last are full. There are ceil(n/5000) of them |
| Ingest.TallyTotal | scripts/parseM3u.js:221-239 | Every row sent is counted once (inserted, a url conflict, or in a failed batch), except that a batch whose commit throws after the callback counted it is counted twice. Without such a batch the counts add up to the rows sent |
| Ingest.TallyStep | scripts/parseM3u.js:221-239 | The counters after one more batch are the previous counters plus that batch's outcome |
| Ingest.ChunksSplit | scripts/parseM3u.js:215 | At cursor `k*5000` the batches still to send are the rows' batches from `k` on |
| Ingest.ChunksDone | scripts/parseM3u.js:215 | A cursor past the end after `k` batches means there were at most `k` batches |
| Ingest.InsertBatches | scripts/parseM3u.js:210-240 | The loop sends exactly the batches. The counters are the tally of the outcomes: inserted + conflicts + skipped grows by the number of rows, plus the rows of every batch whose commit threw after the callback counted it |
| Ingest.ParseAndStore | scripts/parseM3u.js:147-249 | No report when there are no segments. Otherwise `parsed` is the segment count, and inserted + conflicts + skipped equals it plus the rows counted twice by a failed commit, so exactly the segment count when no commit fails that way |
| Regroup.ClassifyRow | scripts/update_channel_groups.js:71-133 | The per-row body computes `RegroupedOf` |
| Regroup.SameLocationCode | scripts/update_channel_groups.js:71-128 | Every title gets the same location code as `parseGroupTitle`, and it is never null |
| Regroup.CleanedTitlesDiffer | scripts/update_channel_groups.js:130-133 | The two titles differ exactly when the rules leave an empty title and either the code is `AR` or `OTHER` or the original title is empty. The re-classifier's title is then empty |
| Regroup.EmptyTitleStaysEmpty | scripts/update_channel_groups.js:71-133 | A missing or empty title gives `OTHER` with an empty title, and no `Uncategorized` |
| Regroup.ArPipeExample | scripts/update_channel_groups.js:130-133 | For `AR\|`, `parseGroupTitle` keeps `AR\|`, while the re-classifier writes an empty title |
| Regroup.UpdatesCount | scripts/update_channel_groups.js:137-144 | At most one update per row. There is one per row when no update fails, and none when all fail |
| Regroup.UpdatesWriteKnownCodes | scripts/update_channel_groups.js:139 | Every update writes a known, non-null code |
| Regroup.ProcessBatch | scripts/update_channel_groups.js:69-145 | Every row counts as processed. The updates written are those of the rows whose update does not throw, and `updatedCount` is their number |
| Regroup.FetchStep | scripts/update_channel_groups.js:51-146 | Fetching at the offset takes the next batch and moves the offset by the number of rows fetched |
| Regroup.UpdateGroups | scripts/update_channel_groups.js:36-149 | The paged loop fetches exactly the table's batches and stops at the first empty one. It processes every row and writes one update per row that does not fail, so updated ≤ processed |
| Channels.IntOrDefaults | routes/channels.js:13-14 | A missing, unparsable or zero page or limit takes the default. Any other number written out is read back as itself |
| Channels.OffsetTiles | routes/channels.js:15 | On accepted input the offset is non-negative, page 1 starts at 0, and each page starts `limit` rows after the one before |
| Channels.TotalPagesCeiling | routes/channels.js:73 | The page count is the least number of `limit`-row pages that hold all rows, and zero exactly when there are none |
| Channels.NormalizedCodes | routes/channels.js:36 | The codes are non-empty, contain no commas, and are no more than the pieces |
| Channels.NoCodesWhenBlank | routes/channels.js:36-37 | No code remains exactly when every piece is blank |
| Channels.FilterPresence | routes/channels.js:24-41 | Each filter is present exactly when its parameter asks for it. The code filter holds only non-empty codes |
| Channels.BuildConditions | routes/channels.js:24-41 | The `push` sequence builds the filter list in order |
| Channels.NoFilterNoWhere | routes/channels.js:44 | Filters are conjoined. Without filters there is no where clause |
| Channels.ListChannels | routes/channels.js:8-89 | 400 exactly when page or limit is not positive. A query error is passed on. Otherwise the query uses the limit, the offset and the filters, and the response echoes the total, ceil(total/limit), the page and the limit |
| Channels.GetChannel | routes/channels.js:107-127 | 400 exactly for a non-numeric id. For a parsed id: the error is passed on exactly when the query throws, 404 exactly when it runs and finds no row, and otherwise the row |
| Channels.GetChannelOfPrintedId | routes/channels.js:108-122 | Every id written in decimal is accepted and looked up as itself |
| Js.Trim | routes/channels.js:10-12 | `trim` keeps a stretch of the text with only whitespace outside it, and the stretch neither starts nor ends with whitespace: exactly the leading and trailing whitespace is removed |
| Js.TrimAfterTrimStart | scripts/parseM3u.js:47-48 | Trimming after `\s*` has taken the leading whitespace gives the same text as trimming directly |
| Js.ToUpper | scripts/parseM3u.js:57 | For the letters listed, `toUpperCase` maps each code point to its capital: ASCII and Latin-1 letters, and `ı`, `ſ` to `I`, `S`. Every other code point is kept, and so is the length |
| Js.LowerAsciiChars | scripts/parseM3u.js:119 | `toLowerCase` of ASCII leaves no capital letters and changes nothing else |
| Js.Split | routes/channels.js:36 | `split` gives at least one piece, none containing the separator |
| Js.SplitJoin | routes/channels.js:36 | `split` loses nothing: joining the pieces with the separator gives back the text |
| Js.ParseIntOfIntToString | routes/channels.js:108 | `parseInt` reads back every integer written by `String` |
| Js.IntToStringInjective | routes/stream.js:140-141 | Different integers are written differently |

## Left out

- All Postgres access:
  - the `ILIKE`, `ORDER BY`, `count(*)` and `onConflictDoNothing` semantics;
  - the `GET /groups` route, which is one query;
  - the table clearing before ingest.

  Query results and failures are inputs. The ingest batches arrive as an outcome per batch: the insert threw, or it returned how many rows were inserted and the commit either succeeded or threw.
- The m3u8 parser library: its segments are the input of the ingest.
- Reading the file, the command-line wrapper of both scripts, and `process.exit`: these are I/O.
- The transcoder process and its options: the process is a handle, and its `start`, `error` and `end` events are method calls in any order the caller chooses.
- Real timers:
  - the poll interval, the 3-second cleanup delay and the exit delay are explicit steps;
  - `timeoutId` is never set by the source, so clearing it does nothing, and the model keeps the field only to reset it;
  - the 50 ms pause between re-classifier pages is left out.
- The file system is an abstract set of existing directories. Three things are left out:
  - `path.resolve`, because paths are relative names under `stream_data/`;
  - `fs.remove` failures, which the source only logs;
  - an `ensureDir` that throws, which has the same effect as a failing catalog lookup (an error passed on).
- `res.headersSent` is tracked only through the responses the model itself sends.
- Genuine concurrency inside one handler (interleaving at its `await`s): each handler is one atomic step.
- Stream.StreamManager.Status: its contract ties the reported channel to the held command and its launch. It does not restate that the value is `activeStream.channelId`, which is what the route returns.
- Stream.RouteCases: the `Stalled` route is never produced from a coherent record. It stands for the handler falling through without a response when `channelId` is set but `playlistPath` is not, which no step of the model reaches.
- Js.ToUpper: maps one code point to one. JavaScript upper-cases `ß` to `SS` and the ligatures U+FB00 to U+FB06 to two or three letters (`ﬂ` to `FL`); the model keeps them as they are. So a title such as `Rußain x` or `NETﬂIX` is not matched by rule 3 or rule 7 as JavaScript would match it, and a location code `ß` is not turned into `SS`. Other letters outside Latin-1 are also left unchanged. Seven more of them have a capital that is an ASCII letter followed by a mark, and the model keeps them too: `ŉ` (to `ʼN`), `ǰ` (to `J` and U+030C), and U+1E96 to U+1E9A, `ẖ ẗ ẘ ẙ ẚ` (to `H`, `T`, `W`, `Y`, `A`, each followed by U+0331, U+0308, U+030A, U+030A or U+02BE). So in JavaScript `skẙ` upper-cases to `SKY` and a ring, contains the keyword `SKY` and gets `WW` from rule 7, while the model leaves it `OTHER`; `paramounẗ` and `PARAMOUNT` go the same way. `toLowerCase` is modelled on ASCII only, which is all the attribute keys can hold.
- `parseInt` is modelled on decimal digits with an optional sign and the `0x` prefix, on unbounded integers. Floating-point rounding of very long numerals, and of `Math.ceil`, is left out.
- Regroup.UpdateGroups: the table is a fixed sequence during the paged loop, so the `count(*)` snapshot and rows added or removed between pages are not modelled. A count query that throws ends the script, which is not modelled.
- Logging.
