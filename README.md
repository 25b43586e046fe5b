# debian-builder, modelled in Dafny

debian-builder produces call graphs for Debian source packages. A filter
admits each (source, version, dist, arch) release once. A build plugin then
works on each release in four steps: it downloads the sources from
snapshot.debian.org or the Debian pool, it runs `sbuild` with the CScout
analyser, it reads the analyser's `report` file line by line, and it emits
`begin`, `complete`/`failed`, error and call-graph messages. An older
consumer performs the same steps in one pass. Beside the pipeline there are
small tools:
- a bulk driver that runs the build container over a list of sources;
- a debugger that summarises the Kafka topics;
- a call-graph comparer;
- a splitter for CScout `make.cs` files.

The model lifts this logic away from Kafka, HTTP, subprocesses and the file
system. Emitted messages are a sequence of events. A file system is a map
from path to lines. A network is a function from URL (and attempt number) to
response. An exception is an outcome: `Raised` for the error the code
catches, `Uncaught` for one that escapes every handler.

| file | module | models |
|---|---|---|
| `text.dfy` | `Text` | the Python `str` operations the code uses (`startswith`, `find`, slicing with negative bounds, `split`, `strip`, `replace`, `os.path.join`) |
| `report.dfy` | `Report` | a report line split on `': '`, comment lines, outcomes |
| `package.dfy` | `Package` | `PackageState`: the record fields and the derived paths |
| `admission.dfy` | `Admission` | `parse_release`, `filter_sources` over the nested map, as a class method |
| `fetch.dfy` | `Fetch` | `find_deb_prefix`, the link filter of `parse_page_deb`, the retry loop of `download_from_snapshot`, `retrieve_page`, `download_snap`, `download_deb`, `download` |
| `plugin.dfy` | `SbuildPlugin` | the newer plugin: the two-pass `_check_analysis_result`, `download`, `_run_sbuild`, `_cleanup`, `consume` |
| `analyser.dfy` | `CScoutAnalyser` | the older `Analyser`: paths, `_retrieve_page`, `_download_files`, `_run_sbuild`, the single-pass `_check_analysis_result`, `analyse` |
| `workers.dfy` | `RunContainers` | `tools/run_containers.py`: `detect_report`, one `do_work` worker, `main` |
| `debug_stats.dfy` | `KafkaDebug` | `get_sources`, `get_packages`, `get_failed`, `get_error_stats`, `uncomplete` |
| `compare_cg.dfy` | `CompareCg` | the computation of `compare_cg.py`'s `main` |
| `separate.dfy` | `Separate` | `can_project` and the splitting loop of `separate.py` |

Each stateful operation follows the source's own form:
- Loops are `while`/`for` loops with invariants.
- Objects are classes whose methods modify their fields.
- Each such method is proved equal to a pure specification function of the
  old state.
- The properties are lemmas about those functions.

Some behaviour of the code is easy to misread. The model follows the code in each case:
- In `download_from_snapshot`, `MyHTTP404Exception` is a class of its own. Neither handler catches it, so a 404 is never retried.
- The older consumer never looks at sbuild's return code. Only the `.dsc` count decides whether its `_run_sbuild` succeeds.
- The newer plugin's `_run_sbuild` runs sbuild with no subprocess timeout.
- The newer plugin reads `record['version']`. The admission filter reads `source_version`.
- The older consumer's missing-report message puts a `/` after `callgraph_dir`, which already ends in `/`. The newer plugin's message does not.

## Model

| member | source | states |
|---|---|---|
| Report.ParseLineFields | kafka_sbuild/entrypoint.py:519-520 | the fields of a report line joined with `': '` give back the stripped line, and no field contains `': '`: it is `line.strip().split(': ')` |
| Report.Record | kafka_sbuild/entrypoint.py:519-520 | a report line yields no record exactly when it starts with `#` |
| Report.ReportLinesAppend | kafka_sbuild/entrypoint.py:519-520 | the records of two concatenated parts of a report are the records of the first part followed by those of the second |
| Package.ParseRecord | kafka_sbuild/entrypoint.py:355-373 | a record is read exactly when `source`, `version`, `release` and `arch` are present and the source is non-empty (for `source[0]`); the fields are taken from those keys, with `forge` defaulting to `debian` |
| Package.DirNameFields | kafka_sbuild/entrypoint.py:362-364 | when no field contains `-`, `dir_name` splits on `-` back into source, dist, arch and version, in that order; releases whose version has a Debian revision (`2.10-2`) or whose name has a `-` do not split back this way |
| Package.DirNameJoin | kafka_sbuild/entrypoint.py:362-364 | for every release, `dir_name` is source, dist, arch and version joined with `-` |
| Package.CallgraphDirFields | kafka_sbuild/entrypoint.py:365-367 | `callgraph_dir` is `/callgraphs/source/dist/version/arch/`, component by component |
| Package.SourceDirFields | kafka_sbuild/entrypoint.py:368-370 | `source_dir` is `/sources/dist/<first letter>/source/version` |
| Package.CgDstFields | kafka_sbuild/entrypoint.py:382-385 | `get_cg_dst(pkg)` is `callgraphs/pkg[0]/pkg/dist/version/arch` |
| Package.SourcesDstFields | kafka_sbuild/entrypoint.py:371-390 | `get_sources_dst(pkg)` is `sources/pkg[0]/pkg/version`, and `dst` is `get_sources_dst(source)` |
| Package.PackageState.constructor | kafka_sbuild/entrypoint.py:355-380 | a new package state holds the release and the old working directory, no times, no binary packages, a blank error and an empty status |
| Admission.ParseRelease | kafka_filter_debian/entrypoint.py:8-13 | the release gives `source`, `source_version`, `release` and `arch`, in that order; it fails exactly when one of them is missing |
| Admission.Admit | kafka_filter_debian/entrypoint.py:16-33 | answers True exactly when the tuple was present, and then changes nothing; afterwards the tuple is present, the present tuples are the old ones plus this one, and every old arch list is a prefix of its new list |
| Admission.AdmitBranches | kafka_filter_debian/entrypoint.py:21-32 | a missing source, version or dist creates exactly that branch holding `[arch]`, and a new arch is appended at the end of its list |
| Admission.SourceIndex.FilterSources | kafka_filter_debian/entrypoint.py:16-33 | the in-place update of the nested map and the answer are those of `Admit` |
| Admission.SecondCallSeesDuplicate | kafka_filter_debian/entrypoint.py:16-33 | a second call with the same release answers True; the first answers whether the tuple was already present |
| Admission.StreamMembership | kafka_filter_debian/entrypoint.py:16-33 | after a stream of releases, the present tuples are the initial ones plus the stream's; nothing is removed |
| Admission.ForwardedOnce | kafka_filter_debian/entrypoint.py:16-33 | over a stream, a tuple gets the answer False exactly once if it is new, and never otherwise |
| Fetch.Quote | kafka_sbuild/entrypoint.py:267-269 | `urllib.parse.quote` leaves a string of safe characters (letters, digits, `_.-~/`) unchanged, turns one other character into `%XX` for each byte of its UTF-8 encoding, and never shortens a string |
| Fetch.QuoteConcat | kafka_sbuild/entrypoint.py:267-269 | quoting a concatenation concatenates the quoted parts, so with the one-character cases of `Quote` the result is fixed on every string |
| Fetch.FindDebPrefix | kafka_sbuild/entrypoint.py:289-297 | a non-`l` name gives its first letter if that letter is in `deb_lookup`, and False otherwise; an `l` name gives its 4-letter prefix if that prefix is in `deb_lookup_l`, and `l` otherwise; an empty name raises |
| Fetch.LinkFilterMembers | kafka_sbuild/entrypoint.py:304-308 | a link text is kept exactly when it does not end in `deb` and starts with `source_version.` |
| Fetch.LinkFilterSplits | kafka_sbuild/entrypoint.py:305-307 | the filter keeps order: filtering a concatenation concatenates the filtered parts |
| Fetch.LinkFilterOne | kafka_sbuild/entrypoint.py:305-307 | one link text is kept exactly when it is a source file of the release |
| Fetch.PoolUrls | kafka_sbuild/entrypoint.py:308 | each kept text `x` becomes `deb_url.format(prefix, source, x)`, at the same position |
| Fetch.BodyRows | kafka_sbuild/entrypoint.py:304 | `select('tr')[3:-1]` keeps the rows after the first three and before the last one, and none of a table with fewer than four rows |
| Fetch.ParsePageDeb | kafka_sbuild/entrypoint.py:300-308 | `parse_page_deb` raises exactly when one of rows `[3:-1]` has no link; otherwise it gives the pool URLs of the row texts that pass both filters, in row order |
| Fetch.ParsePageDebUrls | kafka_sbuild/entrypoint.py:300-308 | a URL is returned exactly when it is `deb_url.format(prefix, source, x)` for the link text `x` of one of rows `[3:-1]` that names a source file of the release (`source_version.`, not a `.deb`) |
| Fetch.Perform | kafka_sbuild/entrypoint.py:125-175 | one attempt ends the loop exactly when it is not retried, with its result; otherwise the buffer becomes the one the next attempt starts from |
| Fetch.DownloadFromSnapshot | kafka_sbuild/entrypoint.py:91-176 | the retry loop gives the result, the sleeps and the resume offsets of the reference definition `Fetch` |
| Fetch.FetchBounds | kafka_sbuild/entrypoint.py:96-97 | between 1 and 10 attempts are made, with one sleep fewer than attempts |
| Fetch.FetchBackoff | kafka_sbuild/entrypoint.py:158-172 | the sleep after a retried attempt n (0-based) is 4^(n+1) seconds |
| Fetch.FirstDecisiveAttempt | kafka_sbuild/entrypoint.py:125-165 | the first attempt that is not retried ends the loop: a 404 is never retried; a 200/206 returns the bytes of the buffer it resumed from followed by its own body; a non-retryable curl error is re-raised; one back-off sleep came after each earlier attempt |
| Fetch.BufferAt | kafka_sbuild/entrypoint.py:125-175 | the buffer an attempt starts from: emptied after an HTTP error, kept with the bytes received after a curl error |
| Fetch.AllTransientFails | kafka_sbuild/entrypoint.py:151-176 | when every attempt fails retryably, all 10 are made and the result is "failed too often" |
| Fetch.ResumeOffsets | kafka_sbuild/entrypoint.py:125-175 | an attempt after an HTTP status error restarts from offset 0; one after a retryable curl error resumes from the bytes kept so far |
| Fetch.RetrieveSnap | kafka_sbuild/entrypoint.py:189-203 | a snapshot page is retrieved exactly when the retry loop returns data; any exception becomes the error `Url <url>: status Failed` |
| Fetch.RetrieveHttp | kafka_sbuild/entrypoint.py:204-236 | a page is retrieved exactly on status 200; another status, or a request exception, becomes the error in phase `retrieving the url` |
| Fetch.DownloadFiles | kafka_sbuild/entrypoint.py:280-285 | the files are downloaded exactly when every URL is retrieved |
| Fetch.DownloadFilesFirstError | kafka_sbuild/entrypoint.py:280-285 | a failed download reports the error of the first URL that failed |
| Fetch.DownloadSnap | kafka_sbuild/entrypoint.py:266-286 | a failed index page gives its error; an index page whose links cannot be parsed raises |
| Fetch.DownloadDeb | kafka_sbuild/entrypoint.py:311-338 | an empty source raises; a source without a pool prefix gives the `find deb prefix` error; a failed index page gives its error and an unparsable one raises; the download succeeds exactly when there is a prefix, the index page is retrieved and parsed, and every URL it lists is retrieved |
| Fetch.DownloadRelease | kafka_sbuild/entrypoint.py:341-349 | the snapshot result is discarded: the result is that of the deb download, unless the snapshot path raised |
| SbuildPlugin.Crash | kafka_sbuild/entrypoint.py:526-549 | a fatal error sets the phase and the message, marks the error crashed, and emits nothing |
| SbuildPlugin.ProduceError | kafka_sbuild/entrypoint.py:609-621 | one error message is emitted, carrying the current error and profiling times |
| SbuildPlugin.EmitGraph | kafka_sbuild/entrypoint.py:659-673 | one success message is emitted for the package |
| SbuildPlugin.ProduceCg | kafka_sbuild/entrypoint.py:623-673 | a missing `fcg.json` raises with phase `read_fcg` and emits nothing; otherwise, if nothing escapes, exactly one success for `pkg` is emitted |
| SbuildPlugin.Fatal | kafka_sbuild/entrypoint.py:526-549 | a fatal checkpoint raises exactly when its field 1 is `failed`, and then with the checkpoint's phase and message |
| SbuildPlugin.NonFatal | kafka_sbuild/entrypoint.py:538-557 | a non-fatal checkpoint never raises |
| SbuildPlugin.LineOutcome | kafka_sbuild/entrypoint.py:525-568 | a line only adds error and success messages, each error carrying the collected times; a raised line leaves a crashed error |
| SbuildPlugin.LinesOutcome | kafka_sbuild/entrypoint.py:525-568 | the same for the whole second pass |
| SbuildPlugin.AnalysisOutcome | kafka_sbuild/entrypoint.py:514-579 | a missing report raises in phase `report` with message `File not found: <callgraph_dir>report`; otherwise the times are collected before any checkpoint is read, and lifecycle messages are never emitted |
| SbuildPlugin.DownloadOutcome | kafka_sbuild/entrypoint.py:430-441 | a successful download changes nothing; a failed one raises crashed in the download's own phase |
| SbuildPlugin.SbuildOutcome | kafka_sbuild/entrypoint.py:443-497 | sbuild succeeds exactly when there is one `.dsc` file and the return code is not 1, and then returns to `old_cwd`; on return code 1 an output that is not UTF-8 makes `decode` raise an exception no handler catches, and any other failure raises in `dir_name`, in phase `run_sbuild`, crashed, with `Cannot find .dsc file or found multiple` as the message when the `.dsc` count is not 1 and `Sbuild failed:` followed by the decoded output when the return code is 1 |
| SbuildPlugin.Steps | kafka_sbuild/entrypoint.py:684-687 | the three steps only add error and success messages, and a raised step leaves a crashed error |
| SbuildPlugin.TimesLastWins | kafka_sbuild/entrypoint.py:521-524 | every `time_elapsed` record with at least 3 fields is kept, and the last record for a name wins |
| SbuildPlugin.TimesUntouched | kafka_sbuild/entrypoint.py:521-524 | a name no record mentions keeps its value |
| SbuildPlugin.LinesAppend | kafka_sbuild/entrypoint.py:525-568 | the second pass stops at the first line that does not end normally |
| SbuildPlugin.FirstFatalAborts | kafka_sbuild/entrypoint.py:525-549 | the first fatal `failed` line in file order raises with its phase (a `produce_debs` failure is tagged `detect_binaries`), and no later line is read |
| SbuildPlugin.ShortLineUncaught | kafka_sbuild/entrypoint.py:526-558 | a checkpoint line with too few fields raises IndexError, which no handler catches |
| SbuildPlugin.MissingGraphIsFatal | kafka_sbuild/entrypoint.py:558-644 | a `produce_callgraph … success` whose `fcg.json` is missing raises crashed in phase `read_fcg` and emits nothing |
| SbuildPlugin.SuccessEvent | kafka_sbuild/entrypoint.py:558-568 | a `produce_callgraph … success` line that ends normally sets the status to `done` and emits exactly one success, for `log[1]` |
| SbuildPlugin.FailureEvent | kafka_sbuild/entrypoint.py:538-557 | an `analysis`/`produce_callgraph … failed` line emits exactly one error with the line's phase, with message `log[1]` and type `log[3]` |
| SbuildPlugin.QuietLine | kafka_sbuild/entrypoint.py:525-568 | every other line emits nothing |
| SbuildPlugin.CompletedEvents | kafka_sbuild/entrypoint.py:525-568 | a report read to its end emits a success for each success line and an error for each failure line, in file order |
| SbuildPlugin.StepsAfterBegin | kafka_sbuild/entrypoint.py:680-687 | after `begin`, the steps add no lifecycle message |
| SbuildPlugin.FinishLifecycle | kafka_sbuild/entrypoint.py:684-697 | it finishes exactly when no exception escaped the steps; a normal end adds exactly `complete`, a caught PluginError exactly the crash's error message with the collected times and then `failed`; then the working directory is restored and both trees are removed |
| SbuildPlugin.Lifecycle | kafka_sbuild/entrypoint.py:675-697 | `consume` finishes exactly when no exception escaped its steps, ending in `complete` when they raised nothing and in the crash's error and `failed` when they raised a PluginError; it emits `begin` first, then exactly one of `complete`/`failed`, last, a `failed` right after the crash's error; then it restores the working directory and removes `dir_name` and `callgraph_dir`; an escaping exception leaves no terminal message and no cleanup; an unreadable record emits nothing |
| SbuildPlugin.UndecodableOutputEscapes | kafka_sbuild/entrypoint.py:487-488 | after a good download, an sbuild return code of 1 with output that is not UTF-8 escapes `consume`: no terminal message is sent and nothing is cleaned up |
| SbuildPlugin.CScoutKafkaPlugin.constructor | kafka_sbuild/entrypoint.py:675-697 | a new plugin has emitted nothing, removed nothing and holds no package state |
| SbuildPlugin.CScoutKafkaPlugin.ProduceErrorToKafka | kafka_sbuild/entrypoint.py:609-621 | appends one error message to the emitted ones and changes nothing else |
| SbuildPlugin.CScoutKafkaPlugin.ProduceCgToKafka | kafka_sbuild/entrypoint.py:623-673 | the new state and outcome are those of `ProduceCg` |
| SbuildPlugin.CScoutKafkaPlugin.CheckLine | kafka_sbuild/entrypoint.py:526-568 | the new state and outcome are those of `LineOutcome` |
| SbuildPlugin.CScoutKafkaPlugin.CollectTimesLoop | kafka_sbuild/entrypoint.py:521-524 | the first pass changes only the times, to `CollectTimes` |
| SbuildPlugin.CScoutKafkaPlugin.CheckLines | kafka_sbuild/entrypoint.py:525-568 | the second pass gives the state and outcome of `LinesOutcome` |
| SbuildPlugin.CScoutKafkaPlugin.CheckAnalysisResult | kafka_sbuild/entrypoint.py:514-584 | the new state and outcome are those of `AnalysisOutcome` |
| SbuildPlugin.CScoutKafkaPlugin.Download | kafka_sbuild/entrypoint.py:430-441 | the new state and outcome are those of `DownloadOutcome` |
| SbuildPlugin.CScoutKafkaPlugin.RunSbuild | kafka_sbuild/entrypoint.py:443-497 | the new state, outcome and working directory are those of `SbuildOutcome` |
| SbuildPlugin.CScoutKafkaPlugin.Cleanup | kafka_sbuild/entrypoint.py:586-607 | removes `dir_name`, relative to the working directory, and then `callgraph_dir` |
| SbuildPlugin.CScoutKafkaPlugin.Process | kafka_sbuild/entrypoint.py:684-687 | the state, outcome and working directory are those of `Steps` |
| SbuildPlugin.CScoutKafkaPlugin.Conclude | kafka_sbuild/entrypoint.py:688-697 | emits the terminal messages, restores the working directory, cleans up and clears the state, as `Finish` |
| SbuildPlugin.CScoutKafkaPlugin.Consume | kafka_sbuild/entrypoint.py:675-697 | emits, changes directory and removes exactly what `ConsumeOutcome` says, and clears the state when it finishes; the lifecycle is proved about `ConsumeOutcome` |
| CScoutAnalyser.AnalyserPaths | kafka_sbuild_cscout_consumer/entrypoint.py:51-54 | for fields without `/`, `callgraph_dir` is `/callgraphs/package/dist/version/arch/` component by component; `url` is the snapshot URL of package and version |
| CScoutAnalyser.AnalyserDirName | kafka_sbuild_cscout_consumer/entrypoint.py:48-50 | `dir_name` is package, dist, arch and version joined with `-` for every release, and splits back into them when no field contains `-` |
| CScoutAnalyser.SendError | kafka_sbuild_cscout_consumer/entrypoint.py:241-251 | one error message, with the current error, is sent |
| CScoutAnalyser.RetrieveOutcome | kafka_sbuild_cscout_consumer/entrypoint.py:76-99 | a page is returned exactly on status 200; otherwise the call raises in phase `downloading` and sends nothing |
| CScoutAnalyser.FilesOutcome | kafka_sbuild_cscout_consumer/entrypoint.py:110-139 | the files are downloaded exactly when every listed URL answers 200, and nothing is sent |
| CScoutAnalyser.DownloadFilesOutcome | kafka_sbuild_cscout_consumer/entrypoint.py:121-139 | downloading sends nothing |
| CScoutAnalyser.SbuildOutcome | kafka_sbuild_cscout_consumer/entrypoint.py:141-179 | it succeeds exactly when there is one `.dsc` file, and then returns to the old directory; otherwise it raises in phase `run_sbuild` while still inside `dir_name` |
| CScoutAnalyser.ProduceCg | kafka_sbuild_cscout_consumer/entrypoint.py:253-265 | a missing `fcg.json` raises in phase `read_fcg`; a parsed one is sent as one call-graph message |
| CScoutAnalyser.FatalCheck | kafka_sbuild_cscout_consumer/entrypoint.py:191-211 | a fatal checkpoint sends nothing; with fewer than 2 fields it raises IndexError; otherwise it raises exactly when field 1 is `failed`, with the checkpoint's phase and message, and else passes with the state unchanged |
| CScoutAnalyser.NonFatalCheck | kafka_sbuild_cscout_consumer/entrypoint.py:201-219 | a non-fatal checkpoint never raises; fewer than 3 fields, or a `failed` line with fewer than 4, escape uncaught; a line not `failed` changes nothing; a `failed` line with 4 fields sends exactly one error with phase `log[0]`, type `log[3]` and message `log[1]` and goes on; it sends something exactly in that case |
| CScoutAnalyser.AnalysisOutcome | kafka_sbuild_cscout_consumer/entrypoint.py:184-235 | a missing report sets phase `report` with message `File not found: <callgraph_dir>/report` and raises; otherwise the lines are checked in order |
| CScoutAnalyser.LinesAppend | kafka_sbuild_cscout_consumer/entrypoint.py:186-229 | the single pass stops at the first line that does not end normally |
| CScoutAnalyser.FirstFatalAborts | kafka_sbuild_cscout_consumer/entrypoint.py:186-211 | the first fatal `failed` line in file order raises with its phase and message; successes before it were sent, later lines are never read |
| CScoutAnalyser.FatalLineRaises | kafka_sbuild_cscout_consumer/entrypoint.py:191-211 | a `produce_debs: failed` line raises in phase `detect_binaries` with `Produce debian packages failed`, and `build`/`detect_binaries` with their own |
| CScoutAnalyser.CommentSkipped | kafka_sbuild_cscout_consumer/entrypoint.py:187-188 | a line starting with `#` changes nothing |
| CScoutAnalyser.DetectPackages | kafka_sbuild_cscout_consumer/entrypoint.py:212-213 | `detect_packages` sets only the binary packages, to its value split on spaces: pieces without a space that joined with spaces give the value back |
| CScoutAnalyser.OneLineGraphs | kafka_sbuild_cscout_consumer/entrypoint.py:186-229 | a line that ends normally only appends messages, and one call graph exactly when it is a success line |
| CScoutAnalyser.SuccessLineSends | kafka_sbuild_cscout_consumer/entrypoint.py:220-229 | a success line that ends normally sets the status to `done` and sends exactly one call graph |
| CScoutAnalyser.FailureLineSends | kafka_sbuild_cscout_consumer/entrypoint.py:201-219 | an `analysis` or `produce_callgraph` line whose field 2 is `failed` and has 4 fields sends exactly one error with phase `log[0]`, type `log[3]` and message `log[1]`, keeps that error as the current one and the loop goes on |
| CScoutAnalyser.OtherLineSends | kafka_sbuild_cscout_consumer/entrypoint.py:191-219 | every other line that ends normally sends that one error exactly when it is such a failure line, and nothing otherwise |
| CScoutAnalyser.CompletedGraphs | kafka_sbuild_cscout_consumer/entrypoint.py:186-229 | a report read to its end sends one call graph per success line |
| CScoutAnalyser.CaughtErrorSentOnce | kafka_sbuild_cscout_consumer/entrypoint.py:68-74 | an `AnalyserError` from any step is caught, and exactly one error is sent for it |
| CScoutAnalyser.MissingReport | kafka_sbuild_cscout_consumer/entrypoint.py:230-235 | after a good download and sbuild, a missing report sends exactly one error, in phase `report` |
| CScoutAnalyser.Analyser.constructor | kafka_sbuild_cscout_consumer/entrypoint.py:39-66 | the error starts with the release's fields and empty phase, type and message; nothing is listed or sent |
| CScoutAnalyser.Analyser.ProduceErrorToKafka | kafka_sbuild_cscout_consumer/entrypoint.py:241-251 | the new state is that of `SendError` |
| CScoutAnalyser.Analyser.RetrievePage | kafka_sbuild_cscout_consumer/entrypoint.py:76-99 | the state, outcome and content are those of `RetrieveOutcome` |
| CScoutAnalyser.Analyser.RetrieveListed | kafka_sbuild_cscout_consumer/entrypoint.py:135-139 | the loop over `urls` gives the state and outcome of `FilesOutcome` |
| CScoutAnalyser.Analyser.DownloadFiles | kafka_sbuild_cscout_consumer/entrypoint.py:121-139 | the state and outcome are those of `DownloadFilesOutcome` |
| CScoutAnalyser.Analyser.RunSbuild | kafka_sbuild_cscout_consumer/entrypoint.py:141-179 | the state, outcome and working directory are those of `SbuildOutcome` |
| CScoutAnalyser.Analyser.ProduceCgToKafka | kafka_sbuild_cscout_consumer/entrypoint.py:253-265 | the state and outcome are those of `ProduceCg` |
| CScoutAnalyser.Analyser.CheckFatal | kafka_sbuild_cscout_consumer/entrypoint.py:191-211 | the state and outcome are those of `FatalCheck` |
| CScoutAnalyser.Analyser.CheckNonFatal | kafka_sbuild_cscout_consumer/entrypoint.py:201-219 | the state and outcome are those of `NonFatalCheck` |
| CScoutAnalyser.Analyser.CheckLine | kafka_sbuild_cscout_consumer/entrypoint.py:186-229 | the state and outcome are those of `LineOutcome` |
| CScoutAnalyser.Analyser.CheckLog | kafka_sbuild_cscout_consumer/entrypoint.py:189-229 | the state and outcome are those of `LogOutcome` |
| CScoutAnalyser.Analyser.CheckAnalysisResult | kafka_sbuild_cscout_consumer/entrypoint.py:181-239 | the state and outcome are those of `AnalysisOutcome` |
| CScoutAnalyser.Analyser.Analyse | kafka_sbuild_cscout_consumer/entrypoint.py:68-74 | the state, working directory and finishing are those of `AnalyseOutcome` |
| RunContainers.ScanReport | tools/run_containers.py:17-30 | gives True exactly when the third walked directory has a readable `report` with a line containing both `fcan` and `success`; it is falsy when there is no `report` file and False when the walk or the read fails |
| RunContainers.DestinationCases | tools/run_containers.py:73-86 | an item goes to `sq` exactly when its run completes and its report shows a success, to `tq` exactly when it times out, and otherwise to `fq` |
| RunContainers.RunOne | tools/run_containers.py:68-86 | one item is routed as `Destination` says |
| RunContainers.RoutedMembers | tools/run_containers.py:42-86 | a queue holds exactly the items routed to it |
| RunContainers.RoutedPartition | tools/run_containers.py:42-86 | the three queues together are a permutation of the input: each item lands in exactly one, as often as it was queued |
| RunContainers.WorkLoop | tools/run_containers.py:42-87 | the worker loop fills each queue with the items routed to it, in input order |
| RunContainers.Queues.Enqueue | tools/run_containers.py:99-100 | the values are queued in order |
| RunContainers.Queues.DoWork | tools/run_containers.py:40-87 | the worker empties the input queue and appends to each result queue its routed items |
| RunContainers.Queues.Drain | tools/run_containers.py:119-126 | draining a result queue prints its items in order and empties only that queue |
| RunContainers.PopAll | tools/run_containers.py:119-126 | popping until empty gives the queue's contents in order |
| RunContainers.StripLines | tools/run_containers.py:99-100 | each input line is stripped, in order |
| RunContainers.Printed | tools/run_containers.py:118-126 | the output is the TIMEOUT header, the timed-out items, the FAILED header, the failed items, the SUCCESS header and the successful items |
| RunContainers.RunAll | tools/run_containers.py:90-128 | `main` prints every stripped input line under the section of its queue; with no worker (a count of zero or less), the sections are empty |
| RunContainers.PrintedPermutation | tools/run_containers.py:90-128 | the printed sections hold the input lines as a multiset, and an item is in the success section only if its run completed with a successful report |
| KafkaDebug.Field | kafka_debug/entrypoint.py:42-47 | `get_sources`/`get_packages` preserve length and order, mapping each message to its field; a message without that field is an error |
| KafkaDebug.FieldSet | kafka_debug/entrypoint.py:51-52 | the set comprehension holds exactly the field values of the messages |
| KafkaDebug.GetFailed | kafka_debug/entrypoint.py:50-53 | a value is failed exactly when it is the source of an error message and of no call-graph message |
| KafkaDebug.BumpCounts | kafka_debug/entrypoint.py:61-68 | a counted key goes up by one, a new key starts at 1, and the total grows by one |
| KafkaDebug.ErrorStats | kafka_debug/entrypoint.py:56-69 | the statistics exist exactly when every message has an `error` with a hashable `phase` and `type` |
| KafkaDebug.ErrorStatsCounts | kafka_debug/entrypoint.py:56-69 | each count is the number of messages with that phase (type), only occurring values are counted, and the counts of each table sum to the number of messages |
| KafkaDebug.GetErrorStats | kafka_debug/entrypoint.py:56-69 | the loop computes `ErrorStats` |
| KafkaDebug.NoneStays | kafka_debug/entrypoint.py:58-60 | a message without the fields makes the whole call fail |
| KafkaDebug.UncompleteLast | kafka_debug/entrypoint.py:72-79 | a package is uncomplete exactly when its last `begin`/`complete`/`failed` message is `begin` |
| KafkaDebug.OtherPhaseIgnored | kafka_debug/entrypoint.py:75-78 | a message with any other phase leaves the set unchanged |
| KafkaDebug.UncompleteLoop | kafka_debug/entrypoint.py:72-79 | the loop computes `Uncomplete` |
| KafkaDebug.UncompleteRaises | kafka_debug/entrypoint.py:74-78 | a message the loop cannot read makes the whole call fail |
| CompareCg.Dependencies | compare_cg.py:13-26 | the dependency set is the set of `product` values over `depset`, with list entries flattened |
| CompareCg.AdjacencyTargets | compare_cg.py:33-44 | the adjacency map has one key per edge source, and lists that source's targets in graph order, duplicates kept |
| CompareCg.TargetsEdges | compare_cg.py:57 | `x` is among the targets of `n` exactly when `[n, x]` is an edge |
| CompareCg.SumNodesMissing | compare_cg.py:50-62 | summing the missing targets node by node counts the graph entries whose edge is not in the other graph |
| CompareCg.Edges | compare_cg.py:33-44 | the edge loop builds the set of edge tuples and the adjacency map |
| CompareCg.CountAbsent | compare_cg.py:57-62 | the targets of one node not in the other graph's list are counted, duplicates included |
| CompareCg.CountNode | compare_cg.py:51-62 | one node adds its missing entries: all of its targets when the other graph lacks the node |
| CompareCg.CountMissing | compare_cg.py:50-62 | `counter1` is the number of graph-1 entries, duplicates included, whose edge is not in graph 2 |
| CompareCg.Compare | compare_cg.py:8-88 | the reported dependency differences are `deps1 - deps2` and `deps2 - deps1`; the totals are the edge-set sizes; the common count is their intersection's size, at most either total; the counters count entries missing from the other graph |
| Separate.CanProject | separate.py:11-14 | the file is `cscout_files/<p>.cs`, with `/` replaced by `__` only when the name starts with `/` |
| Separate.AbsoluteProjectFlattened | separate.py:11-14 | for a name starting with `/` no `/` is left after the directory |
| Separate.Parent | separate.py:54 | the directory of a path is what comes before its last `/`, and "" without one |
| Separate.ProjectFileWritable | separate.py:23-24 | a project file can always be opened when the name has no `/` or starts with one; a name with a `/` elsewhere needs its sub-directory of `cscout_files` to exist already, since the script creates only `cscout_files` |
| Separate.SplitMake | separate.py:23-61 | the script completes exactly when the reference `Run` does not stop on a write; its writes are those of `Run`, and only when it completes does it print the number of projects and the projects, which are the names of the `#pragma project` lines in order |
| Separate.LinesConserved | separate.py:36-58 | for a run that does not stop, the written blocks, in order, followed by the buffer are exactly the lines that are not echo pragmas: each is buffered once, and the lines after the last balancing `block_exit` are never written |
| Separate.StepConserves | separate.py:36-58 | one line that does not stop the script adds itself, unless it is an echo pragma, to the written and buffered lines |
| Separate.WritesEndAtExit | separate.py:36-56 | every write was made by a line that closes the outermost block (counter 1 to 0) with an openable file; it goes to the file of the project current just before that line and holds the buffer then followed by that line; it ends with a `block_exit` line and its directory exists |
| Separate.StepWrite | separate.py:50-56 | a line writes exactly when it is a `block_exit` taking the counter from 1 to 0 and the current project's file can be opened; it then writes the buffer followed by the line to `can_project(current_project)`, empties the buffer and leaves the counter at 0; every other line writes nothing |
| Separate.StepStops | separate.py:50-55 | a line stops the script exactly when it is a `block_exit` taking the counter from 1 to 0 and the current project's file cannot be opened |
| Separate.ProjectsListed | separate.py:39-44 | while the script has not stopped, `projects` holds the names of the `#pragma project` lines in file order and `current_project` is the last of them, or `''` before the first |
| Separate.StoppedStays | separate.py:53-55 | once a write has raised, later lines change nothing |
| Separate.StopCause | separate.py:36-58 | a run that stops was stopped by one `block_exit` line with an unopenable project file; the lines before it ran normally and none after it was read |
| Separate.CounterIsDepth | separate.py:46-52 | while nothing has stopped the script, the counter is the number of `block_enter` lines minus the number of `block_exit` lines |
| Separate.ProjectBetweenQuotes | separate.py:39-43 | a `#pragma project` line names the text between its first two quotes |
| Separate.EchoDropped | separate.py:37-38 | a `#pragma echo` line changes nothing |

## Left out

- Kafka transport is left out: producers, consumers, `emit_message`/`create_message`, the debug files and the infinite consume loops. Emitted messages are an event sequence. The message envelope, the `datetime` stamps and the JSON key order are not modelled.
- Network and HTML parsing are left out. HTTP responses and curl attempts are function parameters. BeautifulSoup is replaced by the list of links or row texts it would find, and `None` stands for a page it cannot parse.
- Timing is left out: the 1.5 s rate-limit watermark, the 10-minute progress watchdog and `time.sleep` are wall-clock. The back-off sleeps are recorded as integer seconds. The watchdog appears only as the curl error code it produces.
- Subprocesses and the file system are left out. `sbuild`/`docker` runs, `glob`, `os.walk`, file reads and `create_dir` are inputs. Writes, `copy_tree` and `_copy_sources` are not modelled. `_cleanup` is recorded as the list of trees removed, and its OSError handling is not modelled.
- `multiprocessing` is left out: one worker is modelled, running to completion. `Queue.empty()` is taken as reliable, and `mprint` is not modelled.
- Admission.SourceIndex.FilterSources: requires the release's four fields. The source raises KeyError on a missing field before touching the map; `ParseRelease` models that failure.
- `run()` of the admission filter, `consume_messages`, argument parsing and `tools/udd_scraper.py` are left out. They are drivers around the modelled functions, and `run()` is broken as written.
- Separate: the `find('/') == 0` test is modelled as written, so `/` is replaced only in names starting with `/`. A name with a `/` elsewhere gives a file below a sub-directory of `cscout_files`; the directories that exist before the run are an input, and a write into a missing one stops the script before it prints. The printed `repr` of the project list and the reading of the input file are not modelled. Writes are recorded in order, and a later write to the same file replaces the earlier one.
- KafkaDebug: messages are JSON objects with string, literal and object values. JSON lists are not modelled, and two literals are equal when their text is. A missing key is modelled as failure (`None`), not as the exception's type.
- CompareCg: edges are two-field `[src, dst]` lists. The `gnode` branch, the colour output and the KeyErrors on malformed files are left out.
- SbuildPlugin and CScoutAnalyser: an exception that escapes every handler is the `Uncaught` outcome. Examples are an IndexError on a short line, an unparsable `fcg.json`, a record `PackageState` cannot read, a page without links, and the newer plugin's UnicodeDecodeError on sbuild output that is not UTF-8. The output is modelled as already decoded, or as undecodable; the bytes themselves are not modelled. Its traceback is not modelled.
- Fetch.Quote: `urllib.parse.quote` is modelled with its default `safe='/'`, percent-encoding the UTF-8 bytes of each other character. Its `encoding` and `errors` arguments are not modelled.
