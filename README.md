# Job recommender — a verified model of its core

The system recommends jobs for an uploaded resume. It has three parts, each modelled here:

- **The React client (`src/App.js`).** It keeps the selected PDF, the loading flag, the error message, the recommendation list, the search query and the selected skills. It posts the file to `/upload` and filters the returned list by a case-insensitive search over title, company and location and by the selected skills. It colours each match score by band.
- **The Express backend (`job-recommender-backend/server.js`).** multer stores a single PDF of at most 5 MB under `uploads/` as `<Date.now()>-<original name>`. The route then checks, in order:
  1. the upload error;
  2. the missing file;
  3. the required data file `data/linkdindata.csv`;
  4. the worker script.

  Only then does it spawn the Python worker. Stdout and stderr are accumulated. On `close` the upload is unlinked and the exit code and output are turned into one HTTP reply. On `error` a 500 is sent.
- **The Python worker (`job-recommender-backend/scripts/process_resume.py`).** It:
  - cleans text;
  - detects an experience level by keywords;
  - finds catalogue skills among spaCy chunks and the word bigrams and trigrams;
  - scores every job row of the CSV;
  - sorts by match score and keeps the best five.

  Each failure along the way is a fixed error message. `__main__` exits with 1 for a wrong argument count or a missing resume and with 0 otherwise.

The modules follow that structure:

| file | module | what it holds |
|---|---|---|
| `common.dfy` | `Common` | ASCII lower-casing, substring search, decimal rendering, an order-preserving filter, path join and `dirname` |
| `json.dfy` | `JsonValue` | JSON values, JavaScript truthiness, property access |
| `result_filter.dfy` | `ResultFilter` | the client's result filter, score colours and skill toggle |
| `client_app.dfy` | `ClientApp` | class `App`: the client state and its event handlers |
| `upload_server.dfy` | `UploadServer` | multer, the check chain, the `close` classification, class `Invocation` for the stream listeners |
| `clean_text.dfy` | `TextClean` | `clean_text` as its four stages |
| `skill_extraction.dfy` | `SkillExtraction` | `split`, n-grams, the skill catalogue and its lookup |
| `experience.dfy` | `Experience` | experience levels, the multiplier, the empty guard and intersection of the match score |
| `recommend.dfy` | `Recommend` | the row loop, sort, top five, error chain and entry point |
| `pipeline.dfy` | `Pipeline` | what the server makes of what the worker prints, and where the worker looks for the job data |

Code written as loops or as handlers that update state is modelled as methods. A method that computes a value is proved equal to a specification function, and the properties are proved about that function. A handler that only assigns the state (`HandleFileChange`, `HandleDrop`, `HandleSearchChange`) states the new state directly. The methods are:

- the handlers of `App` and of `Invocation`;
- the keyword loop and the level loop of `extract_experience_level`;
- the n-gram loop;
- the skill lookup;
- the row loop;
- `get_job_recommendations`;
- `__main__`.

Some behaviour of the code is easy to miss, and the model keeps it:

- When the worker exits with 0, parsed output `null` gets a 500 "Invalid response format", because reading `.error` of `null` throws (server.js:171, caught at 178-184). An object with a truthy `error` gets a 400 carrying that value (server.js:171-173). Any other parsed value that is not an array, and an empty array, gets a 400 "No job recommendations found" (server.js:174-176).
- The client compares the search query as typed, without trimming it (App.js:133-136; `ResultFilter.QueryNotTrimmed`).
- When the worker fails to start, the `error` listener alone replies 500 and unlinks nothing (server.js:188-194). The `close` event that Node emits after it is what unlinks the upload (server.js:157-159).
- The route's early replies leave the stored upload on disk, because only the `close` listener unlinks it (server.js:157-159). This covers the 500 for a missing CSV and the 500 for a missing script (server.js:107-130). In the model, a `Respond` outcome of `HandleUpload` carries no unlink.

## Model

| member | source | states |
|---|---|---|
| Common.LowerIdempotent | src/App.js:133-136 | lower-casing twice is lower-casing once |
| Common.ContainsIffOccurs | src/App.js:134-135 | the substring test holds exactly when the needle occurs at some index of the haystack |
| Common.ContainsEmpty | src/App.js:133-136 | every text contains the empty string |
| Common.ContainsChar | src/App.js:134-135 | every character of a contained needle occurs in the text |
| Common.ContainsSingle | src/App.js:134-135 | a one-character needle is contained exactly when that character occurs in the text |
| Common.MissingCharExcludes | job-recommender-backend/scripts/process_resume.py:78 | a needle holding a character that the text lacks is not contained in it |
| Common.DecimalRoundTrip | job-recommender-backend/server.js:67-69 | reading back the decimal rendering of a time stamp gives the time stamp |
| Common.DecimalInjective | job-recommender-backend/server.js:67-69 | different time stamps render differently |
| Common.FilterPositions | src/App.js:132-146 | `filter` keeps exactly the elements satisfying the predicate, at increasing positions of the input |
| Common.FilterAll | src/App.js:132-146 | filtering with a predicate that every element satisfies returns the input |
| Common.FilterNarrows | src/App.js:138-143 | filtering with a stronger predicate after a weaker one equals filtering with the stronger one alone |
| Common.FilterDistinct | src/App.js:120-126 | filtering a list without repetitions keeps it without repetitions |
| Common.FilterAppend | src/App.js:120-126 | filtering distributes over concatenation |
| Common.DirnameOfJoin | job-recommender-backend/scripts/process_resume.py:318 | `dirname` of `dir/name` is `dir` when the name has no slash |
| JsonValue.Prop | job-recommender-backend/server.js:171 | reading a property of an object gives its value; on any other value it gives nothing |
| ResultFilter.FilteredPositions | src/App.js:132-146 | the visible list is an order-preserving subsequence of the recommendations that keeps every position passing both tests and no other |
| ResultFilter.NoFilterIsIdentity | src/App.js:133-143 | with an empty query and no selected skill every recommendation is shown, in order |
| ResultFilter.AbsentSkillsExcluded | src/App.js:139-142 | a job without a skill list is hidden as soon as a skill is selected |
| ResultFilter.AddingSkillNarrows | src/App.js:138-143 | selecting one more skill shows exactly the currently visible jobs that also have it |
| ResultFilter.SearchIgnoresQueryCase | src/App.js:133-136 | the search result does not depend on the case of the query |
| ResultFilter.ScoreBand | src/App.js:113-118 | a score is in the strong, good, fair or weak band exactly when it is at least 80, in [60, 80), in [40, 60), or below 40 |
| ResultFilter.ColourBands | src/App.js:113-118 | a higher score never gets a weaker band; two scores get the same colour exactly when they share a band |
| ResultFilter.ToggleSkill | src/App.js:120-126 | a selected skill is removed, every other skill stays selected, and the result is the selection filtered to the other skills. An unselected skill is appended |
| ResultFilter.ToggleOffKeepsOrder | src/App.js:120-126 | deselecting keeps the other skills in their order, at exactly the positions that do not hold the removed skill |
| ResultFilter.ToggleKeepsDistinct | src/App.js:120-126 | toggling keeps the selection free of repetitions |
| ResultFilter.ToggleTwiceRestores | src/App.js:120-126 | selecting and then deselecting a skill restores the selection |
| ResultFilter.ExampleQuery | src/App.js:133-136 | the query "engineer" keeps the backend engineer and drops the analyst |
| ResultFilter.ExampleOneSkill | src/App.js:138-143 | selecting "sql" keeps only the job whose skill list has SQL in any case |
| ResultFilter.ExampleTwoSkills | src/App.js:138-143 | selecting "sql" and "excel" requires both, so neither job remains |
| ResultFilter.ExactQueryMatches | src/App.js:133-136 | "nyc" matches a job located in "NYC" |
| ResultFilter.QueryNotTrimmed | src/App.js:133-136 | " nyc" with a leading space does not match that job: the query is not trimmed |
| ClientApp.AfterReply | src/App.js:81-106 | a 2xx job array becomes the list, with no message. After a settled request the state shows either a non-empty message or a list that came in a 2xx array, never both. Each kind of reply (no response, request not sent, 2xx or non-2xx error object, non-2xx array, `null` bodies) leaves its own message |
| ClientApp.SubmitAlwaysReports | src/App.js:81-106 | every reply other than an empty list or a `null` error body leaves exactly one of a message and a non-empty list |
| ClientApp.App.constructor | src/App.js:12-20 | the initial values of the state hooks |
| ClientApp.App.HandleFileChange | src/App.js:55-64 | a PDF becomes the selection and clears the error; anything else clears the selection and asks for a PDF |
| ClientApp.App.HandleDrop | src/App.js:41-53 | a dropped PDF becomes the selection; anything else shows a message and keeps the previous selection |
| ClientApp.App.HandleSkillClick | src/App.js:120-126 | the selection becomes its toggle by the clicked skill |
| ClientApp.App.HandleSearchChange | src/App.js:128-130 | the query becomes the typed value, untrimmed |
| ClientApp.App.HandleSubmit | src/App.js:66-111 | a request is posted exactly when a file is selected. Without one only the message is set. With one, loading ends false, the progress is 0, and the error and list are those of `AfterReply` |
| UploadServer.StoredName | job-recommender-backend/server.js:67-69 | the stored name is the decimal time stamp, a dash, then the original name |
| UploadServer.StoredNameInjective | job-recommender-backend/server.js:67-69 | equal stored names come only from equal time stamps and equal original names |
| UploadServer.FileFilter | job-recommender-backend/server.js:72-78 | a file is accepted exactly when its type is `application/pdf`; otherwise the error is "Only PDF files are allowed" |
| UploadServer.ReceiveUpload | job-recommender-backend/server.js:63-86 | a file is stored exactly when it is one PDF of at most 5 MB under field `resume`, at `uploads/<stored name>`. Otherwise an error is reported if a part was sent: `LIMIT_UNEXPECTED_FILE` for a part under another field, then the filter's error, then `LIMIT_FILE_SIZE` |
| UploadServer.UploadErrorResponse | job-recommender-backend/server.js:91-101 | every upload error is a 400: the size message for `LIMIT_FILE_SIZE`, "Error uploading file" for other multer codes, and the filter's own message otherwise |
| UploadServer.FirstMissing | job-recommender-backend/server.js:107-116 | reports nothing exactly when every required file exists; otherwise it reports the first missing one in list order |
| UploadServer.HandleUpload | job-recommender-backend/server.js:90-136 | the worker is spawned on the stored file exactly when there is no upload error, a file, the CSV and the script. Otherwise the reply is the first failing check's 400 or 500 |
| UploadServer.RejectedUploads | job-recommender-backend/server.js:72-101 | a non-PDF or an oversized PDF is refused with its 400 whatever files exist; a valid PDF with both files present is spawned |
| UploadServer.FirstLine | job-recommender-backend/server.js:165 | the details are a prefix of stderr without a line feed, ending at its first line feed |
| UploadServer.Classify | job-recommender-backend/server.js:161-185 | a non-zero or `null` exit code is a 500 with stderr's first line. Otherwise: unparseable or `null` output is a 500; a truthy `error` is passed on as a 400; a non-empty array is the only 200 and is sent as is; anything else is a 400 "No job recommendations found" |
| UploadServer.UploadRepliesShaped | job-recommender-backend/server.js:90-130 | every immediate reply is a 400 or 500 whose body has a truthy `error` |
| UploadServer.ClassifyShaped | job-recommender-backend/server.js:161-185 | every `close` reply is a 200 with a non-empty array, or a 400/500 with a truthy `error` |
| UploadServer.LaunchFailureShaped | job-recommender-backend/server.js:188-194 | the `error` reply is a 500 with a truthy `error` |
| UploadServer.RunAccumulates | job-recommender-backend/server.js:138-186 | each accumulator is its own stream's chunks in order. Every `close` appends exactly one unlink of the upload, and every `close` or `error` appends exactly one reply attempt |
| UploadServer.NormalRun | job-recommender-backend/server.js:138-186 | a worker that writes and then closes gets one unlink and one reply, classified from the whole of both streams |
| UploadServer.LaunchFailureRun | job-recommender-backend/server.js:188-194 | on the event sequence `error` alone, the `error` listener replies 500 once and unlinks nothing; the unlink comes only with a later `close` (see `ErrorThenClose`) |
| UploadServer.ErrorThenClose | job-recommender-backend/server.js:153-194 | an `error` followed by a `close` makes two reply attempts and one unlink |
| UploadServer.Invocation.constructor | job-recommender-backend/server.js:138-139 | both accumulators start empty, with nothing unlinked and nothing sent |
| UploadServer.Invocation.OnStdout | job-recommender-backend/server.js:141-145 | appends the chunk to the stdout accumulator and changes nothing else |
| UploadServer.Invocation.OnStderr | job-recommender-backend/server.js:147-151 | appends the chunk to the stderr accumulator and changes nothing else |
| UploadServer.Invocation.OnClose | job-recommender-backend/server.js:153-186 | unlinks the upload, then records the reply `Classify` gives for the accumulated output |
| UploadServer.Invocation.OnError | job-recommender-backend/server.js:188-194 | records the 500 launch-failure reply and unlinks nothing |
| TextClean.ReplaceSpecial | job-recommender-backend/scripts/process_resume.py:120 | keeps every word, whitespace, '-' and '/' character, turns every other character into a space, and keeps the length |
| TextClean.CollapseSpaces | job-recommender-backend/scripts/process_resume.py:122 | the result has no two adjacent whitespace characters. Every whitespace left is a plain space, every other character comes from the input, and the result starts with whitespace exactly when the input does |
| TextClean.CollapseEnds | job-recommender-backend/scripts/process_resume.py:122 | the collapsed text ends with whitespace exactly when the input does |
| TextClean.SepsTight | job-recommender-backend/scripts/process_resume.py:124 | after removing whitespace around separators, no whitespace stands next to a '-' or '/' |
| TextClean.SepsNoDouble | job-recommender-backend/scripts/process_resume.py:124 | that stage keeps text free of doubled whitespace |
| TextClean.Strip | job-recommender-backend/scripts/process_resume.py:125 | the result is the slice of the input after its leading whitespace, and everything after the slice is whitespace. It neither starts nor ends with whitespace, and it is empty exactly when the input is all whitespace |
| TextClean.CleanTextIsClean | job-recommender-backend/scripts/process_resume.py:116-125 | cleaned text has only lower-case word characters, single spaces, '-' and '/'. No space touches a separator, and there is no space at either end |
| TextClean.CleanTextFixesClean | job-recommender-backend/scripts/process_resume.py:116-125 | cleaning text already in that form changes nothing |
| TextClean.CleanTextIdempotent | job-recommender-backend/scripts/process_resume.py:116-125 | cleaning twice is cleaning once, so the job text cleaned at line 273 and again at line 129 gives the same words |
| SkillExtraction.Split | job-recommender-backend/scripts/process_resume.py:147 | every word of `split()` is non-empty and has no whitespace |
| SkillExtraction.SplitJoin | job-recommender-backend/scripts/process_resume.py:147-151 | splitting words joined by single spaces gives back the words |
| SkillExtraction.CollapseKeepsWords | job-recommender-backend/scripts/process_resume.py:122 | collapsing whitespace keeps the words of `split()` unchanged, in order |
| SkillExtraction.AddNgrams | job-recommender-backend/scripts/process_resume.py:146-151 | the loop adds to the chunks exactly every bigram and trigram of the words |
| SkillExtraction.NoNgramsBelowTwoWords | job-recommender-backend/scripts/process_resume.py:147-151 | fewer than two words give no n-gram |
| SkillExtraction.NgramsAreWindows | job-recommender-backend/scripts/process_resume.py:147-151 | every n-gram is two or three consecutive words joined by a space, and splitting it gives those words back |
| SkillExtraction.WindowSkillNamed | job-recommender-backend/scripts/process_resume.py:146-157 | any two or three consecutive words that spell a catalogue skill are found |
| SkillExtraction.Flatten | job-recommender-backend/scripts/process_resume.py:67-71 | the flattened catalogue names exactly the skills of the categories |
| SkillExtraction.FlattenLastWins | job-recommender-backend/scripts/process_resume.py:67-71 | a skill's weight is the one of the last category that lists it |
| SkillExtraction.LookupSkills | job-recommender-backend/scripts/process_resume.py:153-157 | the result names exactly the catalogue skills among the stripped chunks, each with its catalogue weight |
| SkillExtraction.ExtractSkills | job-recommender-backend/scripts/process_resume.py:127-160 | the skills are exactly the catalogue skills among spaCy's chunks and the n-grams of the cleaned text, each with its catalogue weight |
| SkillExtraction.SkillsAvoid | job-recommender-backend/scripts/process_resume.py:118-144 | a character that cleaning replaces occurs in no extracted skill, because spaCy's chunks are spans of the cleaned text |
| SkillExtraction.SymbolSkillsNeverFound | job-recommender-backend/scripts/process_resume.py:21-31 | "c++", "c#", "node.js" and "asp.net" are never extracted from any text, because cleaning replaces '+', '#' and '.' |
| Experience.LevelsFoundInOrder | job-recommender-backend/scripts/process_resume.py:76-79 | the collected levels are the mentioned ones among entry, mid and senior, in that order |
| Experience.DetectLevel | job-recommender-backend/scripts/process_resume.py:73-80 | entry exactly when an entry keyword occurs; senior exactly when a senior keyword occurs and no entry or mid one does; mid otherwise |
| Experience.AnyKeyword | job-recommender-backend/scripts/process_resume.py:78 | true exactly when some keyword occurs in the text |
| Experience.ExtractExperienceLevel | job-recommender-backend/scripts/process_resume.py:73-80 | the loop's result is the detected level |
| Experience.Rank | job-recommender-backend/scripts/process_resume.py:209 | the level's position in the key order |
| Experience.ExperienceMultiplier | job-recommender-backend/scripts/process_resume.py:206-211 | 1.2 exactly for equal levels, 0.8 exactly for neighbouring levels, 1.0 exactly for entry against senior |
| Experience.MultiplierSymmetric | job-recommender-backend/scripts/process_resume.py:206-211 | the multiplier does not depend on which side is the resume |
| Experience.MatchScores | job-recommender-backend/scripts/process_resume.py:166-171 | the matching skills are those both maps name. With either map empty, both scores are 0 and no skill matches |
| Recommend.ProcessRow | job-recommender-backend/scripts/process_resume.py:272-290 | the entry for a row carries its fields, its scores and level, and as matching skills only catalogue skills that the resume names |
| Recommend.PlusKeywordsMissJobs | job-recommender-backend/scripts/process_resume.py:63 | "5+ years", "7+ years" and "8+ years" never match a job's cleaned description |
| Recommend.MatchesOf | job-recommender-backend/scripts/process_resume.py:270-293 | there are no entries exactly when every row raised |
| Recommend.CollectMatches | job-recommender-backend/scripts/process_resume.py:270-293 | the loop yields one entry per row that did not raise, in row order |
| Recommend.Insert | job-recommender-backend/scripts/process_resume.py:298 | inserting adds exactly the one entry |
| Recommend.InsertSorted | job-recommender-backend/scripts/process_resume.py:298 | inserting into a list sorted by descending score keeps it sorted |
| Recommend.SortByScore | job-recommender-backend/scripts/process_resume.py:298 | the result is a permutation of the entries, sorted by descending match score |
| Recommend.InsertStable | job-recommender-backend/scripts/process_resume.py:298 | inserting keeps the order among entries of equal score |
| Recommend.SortStable | job-recommender-backend/scripts/process_resume.py:298 | entries of equal score keep their relative order |
| Recommend.TopK | job-recommender-backend/scripts/process_resume.py:299 | the first k entries, or all of them when there are fewer |
| Recommend.BestMatches | job-recommender-backend/scripts/process_resume.py:298-299 | the first min(5, n) entries of the matches sorted by descending score: one to five entries, five unless fewer matched, each at most as often as it was matched |
| Recommend.BestMatchesAreBest | job-recommender-backend/scripts/process_resume.py:298-299 | the kept entries are a prefix of the sorted matches and a sub-multiset of the matches, and no match left out scores higher than a kept one |
| Recommend.Recommendations | job-recommender-backend/scripts/process_resume.py:232-302 | a failure carries a non-empty message; a success is one to five entries, best first |
| Recommend.ChainMessages | job-recommender-backend/scripts/process_resume.py:235-296 | every failure message is one of the chain's eight |
| Recommend.ChainOrder | job-recommender-backend/scripts/process_resume.py:234-262 | the first failing of the resume, data-directory, language-model, job-data and PDF checks answers with its own message |
| Recommend.ChainOrderAfterText | job-recommender-backend/scripts/process_resume.py:257-296 | once the PDF is read: empty text, no skill found, and no row processed without an exception each answer with their own message, the last "No matching jobs found" |
| Recommend.RecommendedOnlyIfChecksPass | job-recommender-backend/scripts/process_resume.py:235-296 | recommending implies: the resume, the data directory and the CSV exist; the model loads; the text is non-empty; skills are found; and some row is processed |
| Recommend.ChecksPassRecommend | job-recommender-backend/scripts/process_resume.py:235-296 | conversely, when all of these hold, jobs are recommended |
| Recommend.RecommendedAreBest | job-recommender-backend/scripts/process_resume.py:270-299 | the recommended jobs are the best matches of the processed rows: processed rows, none repeated beyond its count, and no processed row left out scores higher than one recommended |
| Recommend.GetJobRecommendations | job-recommender-backend/scripts/process_resume.py:232-306 | the method returns the chain's outcome |
| Recommend.MainRun | job-recommender-backend/scripts/process_resume.py:308-324 | exit 1 exactly for a wrong argument count ("Please provide the resume file path") or a missing resume ("Resume file not found"); exit 0 otherwise, printing the chain's outcome |
| Recommend.DataDirBesideUploads | job-recommender-backend/scripts/process_resume.py:318 | for a resume stored directly in `root/uploads`, the corrected data directory is `root/data` |
| Recommend.WorkerMain | job-recommender-backend/scripts/process_resume.py:308-324 | the entry point's run is `MainRun` with the corrected data directory |
| Pipeline.OutcomeJson | job-recommender-backend/scripts/process_resume.py:321-324 | a failure prints `{"error": message}`; recommendations print an array of the same length, entry by entry |
| Pipeline.ReplyToOutcome | job-recommender-backend/server.js:169-185 | exit 0 with a non-empty message is a 400 carrying it; an empty message or an empty list is "No job recommendations found"; a non-empty list is a 200 with the list |
| Pipeline.WorkerReply | job-recommender-backend/server.js:161-185 | exit 1 is a 500 with stderr's first line; a chain failure is a 400 with the worker's message; recommendations are a 200 with one to five entries |
| Pipeline.StoredPath | job-recommender-backend/server.js:63-70 | the worker's argument is `uploads/<stored name>` |
| Pipeline.SourceDataDirIsUploads | job-recommender-backend/scripts/process_resume.py:318 | as written, the data directory for any stored upload is the uploads directory |
| Pipeline.AsWrittenLosesJobData | job-recommender-backend/scripts/process_resume.py:318 | with the CSV where the server checks it, a PDF that passes every server check gets 400 "Failed to load job data" |
| Pipeline.CorrectedDataDirIsChecked | job-recommender-backend/server.js:107-116 | with the corrected data directory, the worker reads the very CSV the server checked before spawning it |

## Left out

- The network call, its 30-second timeout, the upload progress arithmetic, the drag-highlight state, the intro timer and all rendering in `src/App.js` and its components are left out. The outcome of `axios.post` is a parameter of `HandleSubmit`.
- ClientApp.App.HandleSubmit: requires that a 2xx reply is not an object with an empty `error`. The server never sends one (`UploadServer.ClassifyShaped`), so that case is not modelled.
- ClientApp.AfterReply: a `null` non-2xx body makes the `catch` block throw. It is modelled as leaving the cleared state, because the escaping exception is not modelled.
- The file system, `spawn`, `fs.unlink`, logging and `JSON.parse` are not executed. Files are a set of paths, the child is the sequence of events it delivers, and parsing is a function parameter.
- `copyDataFiles` (server.js:36-60), CORS and the server start-up are I/O. The model states only where the data file must be.
- multer's handling of several file parts and of malformed multipart bodies is left out; the model takes one part or none.
- Strings are sequences of characters. A UTF-8 code point split across two stream chunks is not modelled.
- Lower-casing, `\w`, `\s` and `str.strip` are modelled over ASCII. Python's Unicode case mapping and whitespace are not modelled.
- Experience.MatchScores: the weighted sums, the TF-IDF similarity, the multiplier product and `round` are floating point and library code. The two scores of the non-empty case are parameters, with the guard and the intersection modelled.
- Recommend.ProcessRow: spaCy's chunks of each text, the rows pandas reads, the PDF text PyPDF2 extracts, and whether a row raises are all inputs.
- The order of the `matching_skills` list and the key order of printed JSON are left out; matching skills are a set.
- Recommend.Recommendations: the outer `except` (lines 304-306) returns `str(e)` for an exception from a library call. No modelled step raises, so that path is not modelled. The same holds for the `except` of `__main__` (lines 323-324).
- UploadServer.ErrorThenClose: the model records both reply attempts, but not what the second one does. When the child fails to start, Node emits `error` and then `close` with a non-zero code. By the code as written, the second `res.status(500).json` (server.js:161-167, outside the `try`) throws ERR_HTTP_HEADERS_SENT. Nothing catches it, so the server process would end (not executed). Exceptions are not modelled.
- Recommend.WorkerMain: `os.path.abspath` is not modelled; the resume path is taken to be absolute and normalised, as the server passes it.
- `build.js` and `deploy-to-vercel.js` are build and deployment scripts and are not part of this model.

## Findings

| source | as written | input that shows it | evidently intended | confidence | as-written member | corrected member |
|---|---|---|---|---|---|---|
| job-recommender-backend/scripts/process_resume.py:318 | the data directory is `dirname(abspath(resume_path))`, the server's `uploads/` directory | any PDF under 5 MB that passes the server's checks, with `data/linkdindata.csv` present and no CSV in `uploads/`: the worker answers "Failed to load job data" and the client gets a 400 | the worker reads `data/linkdindata.csv`, the file the server copies and checks before spawning (server.js:22, 36-60, 107-116) | not executed | Pipeline.AsWrittenLosesJobData | Pipeline.CorrectedDataDirIsChecked |
