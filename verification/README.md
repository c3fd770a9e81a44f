# snapchat-dlp downloader core, modelled in Dafny

This project models the `SnapchatDL` class of snapchat-dlp
(`snapchat_dlp/snapchat_dlp.py`). It covers the three steps between asking
for a user's public Snapchat story and handing downloads to the worker pool:

- **`_web_fetch_story`**: classify the HTTP response by status. Cut the
  `__NEXT_DATA__` script block out of the page with the class's regular
  expression, then decode it. Read the user's profile variant and story
  list out of the decoded tree. Every `IndexError`, `KeyError` or
  `ValueError` on the way becomes `APIResponseError`.
- **`_download_media`**: name one story item. This gives its media URL and
  the output path `<prefix>/<username>/<YYYY-MM-DD>/<YYYY-MM-DD_HH-MM-SS> <snap id> <username>.<ext>`.
  When JSON dumping is on, it also gives the sidecar record written at the
  output path plus `.json`.
- **`download`**: plan one run. This is the download tasks
  `(media_url, media_output, sleep_interval)` submitted in story order, the
  sidecars written, and how the call ends.

Modules, in dependency order:

| file | module | what it holds |
|---|---|---|
| `wrappers.dfy` | `Wrappers` | `Option` and `Result` |
| `pytext.dfy` | `PyText` | Python's whitespace set, decimal text, `str.strip`, `int()` of a str |
| `jsonvalue.dfy` | `JsonValue` | the decoded JSON tree and the Python operations the code applies to it: subscript, `in`, truthiness, `len`, `int()`, `str()` |
| `nextdata.dfy` | `NextData` | the regular expression as a leftmost-match scanner, with a declarative reading of the pattern |
| `webfetch.dfy` | `WebFetch` | `_web_fetch_story` and its two inner helpers |
| `timeformat.dfy` | `TimeFormat` | the `strftime` directives used, and `str.format` with `{}` fields |
| `posixpath.dfy` | `PosixPath` | `os.path.join` on POSIX |
| `naming.dfy` | `Naming` | `_download_media` |
| `dispatch.dfy` | `Dispatch` | `download` |

The inputs that come from outside the class are parameters:

- The HTTP response is a `(status, body)` pair.
- `json.loads` is a function yielding `None` where it raises `ValueError`.
- The local time breakdown of a timestamp is `Env.localTime`.
- `MEDIA_TYPE` is `Env.mediaTypes`.
- `str()` of floats, lists and dicts is `Env.repr`.

`strf_time(ts, fmt)` is taken to be `time.strftime(fmt, time.localtime(ts))`.
Its definition lives in `snapchat_dlp/utils.py`, which is not part of this
model.

### Behaviour worth knowing

- **Status codes.** Every status other than 200 raises `APIResponseError`.
  Whether the status is 404 changes only the log line
  (`WebFetch.NonOkStatus`).
- **File name separators.** The file name puts `_` between the date and
  the time of day, and spaces before the snap id and the username
  (`TimeFormat.FileNameText`).
- **Unknown media types.** `MEDIA_TYPE` is indexed directly, with no
  fallback extension. If `MEDIA_TYPE` is a dict, as its use suggests, an
  unknown media type raises `KeyError`. That error leaves `download` after
  the earlier stories have been submitted (`Naming.UnknownMediaType`,
  `Dispatch.FirstUnreadableStops`).
- **Story cap.** `limit_story` is stored but never read.
- **Errors that escape.** `download` catches only `APIResponseError`:
  - A decoded tree of the wrong shape raises `TypeError`. The
    `except (IndexError, KeyError, ValueError)` clause does not name it,
    so it escapes (`WebFetch.NonObjectDocument`).
  - `UserNotFoundError` is not named by that clause either. Assuming it
    does not derive from `APIResponseError`, it leaves `download` too.
  - Any exception while naming a story leaves `download`.
- **Shared paths.** Two items with the same second and extension share an
  output path exactly when their snap ids print the same. The string
  `"7"` and the number `7` print the same (`Naming.SameSecondPaths`,
  `JsonValue.StrOfStrings`).
- **Non-list story lists.** A non-empty `snapList` that is not a list is
  iterated as Python iterates it. A str yields one-character strs and a
  dict yields its keys. Either way the first item raises `TypeError`
  (`Dispatch.StrStoriesRaise`).

## Model

| member | source | states |
|---|---|---|
| PyText.ParseIntText | snapchat_dlp/snapchat_dlp.py:104 | `int()` of the decimal text of any integer gives that integer back |
| PyText.ParseIntIgnoresSpace | snapchat_dlp/snapchat_dlp.py:104 | `int()` of a str ignores any run of the whitespace it strips, before and after the digits |
| PyText.FileSeparatorRejected | snapchat_dlp/snapchat_dlp.py:104 | U+001C, though whitespace to `str.isspace`, is not stripped by `int()`: `int("\x1c5")` raises ValueError |
| PyText.DecValue | snapchat_dlp/snapchat_dlp.py:104 | the digit value of the decimal digits `Dec(n)` of a natural number is `n`: the digit reading `int()` applies undoes the writing |
| JsonValue.Subscript | snapchat_dlp/snapchat_dlp.py:101-104 | a str key succeeds exactly on a dict holding it and yields its value; KeyError only from dicts, IndexError only from lists and strs, TypeError from scalars and from unhashable dict keys |
| JsonValue.ContainsMeaning | snapchat_dlp/snapchat_dlp.py:81 | `in` on a dict holds exactly when subscripting with the key succeeds; on a list, exactly when an item equals the str; on a str, exactly when the needle occurs at some position |
| JsonValue.Len | snapchat_dlp/snapchat_dlp.py:140 | `len` is defined exactly on strs, lists and dicts, and is positive exactly when the value is truthy |
| JsonValue.ToInt | snapchat_dlp/snapchat_dlp.py:104 | `int()` of a float lies within 1 of it and no farther from zero, and is negative exactly when the float is -1 or below; a str converts exactly when it parses; null, lists and dicts raise TypeError |
| JsonValue.ToIntOfText | snapchat_dlp/snapchat_dlp.py:104 | `int()` of an integer's decimal text, padded with any whitespace `int()` strips, is that integer |
| JsonValue.ToIntOfNumber | snapchat_dlp/snapchat_dlp.py:104 | `int()` of an integral float is that integer; `int(True)` is 1 and `int(False)` is 0 |
| JsonValue.Truncate | snapchat_dlp/snapchat_dlp.py:104 | `int()` of a float truncates towards zero |
| JsonValue.IntRoundTrip | snapchat_dlp/snapchat_dlp.py:104 | a timestamp printed and read back with `int()` is the same timestamp |
| JsonValue.StrOfStrings | snapchat_dlp/snapchat_dlp.py:110-111 | two string snap ids format to the same text exactly when they are equal; the str `"7"` and the int `7` format alike |
| JsonValue.GetChainIsWalk | snapchat_dlp/snapchat_dlp.py:81-82 | two chained string subscripts succeed exactly when the dictionary walk does, with the same value |
| NextData.FindFrom | snapchat_dlp/snapchat_dlp.py:75 | a reported match lies at or after the start position and is what the scanner reads there |
| NextData.FirstPayload | snapchat_dlp/snapchat_dlp.py:40 | a captured payload is non-empty and holds no `<` |
| NextData.MatchAtSound | snapchat_dlp/snapchat_dlp.py:40 | every match the scanner reports satisfies the pattern |
| NextData.MatchAtComplete | snapchat_dlp/snapchat_dlp.py:40 | every occurrence of the pattern at a position is the match the scanner reports there |
| NextData.FindFromLeftmost | snapchat_dlp/snapchat_dlp.py:75 | the search stops at the leftmost position where the pattern matches, and finds nothing only when it matches nowhere |
| NextData.FirstPayloadLeftmost | snapchat_dlp/snapchat_dlp.py:75 | `findall(...)[0]` fails exactly when the pattern matches nowhere, and otherwise is the group of the leftmost match |
| NextData.PayloadOfPage | snapchat_dlp/snapchat_dlp.py:39-41 | a page holding one well-formed data block, with no block before it, yields that block's text |
| WebFetch.FetchStory | snapchat_dlp/snapchat_dlp.py:54-98 | any status but 200 gives APIResponseError without a parse reason; parse failures carry only caught exceptions; only TypeError escapes |
| WebFetch.NonOkStatus | snapchat_dlp/snapchat_dlp.py:68-73 | a status other than 200 gives APIResponseError whatever the body and decoder, 404 differing only in its reason |
| WebFetch.MissingBlock | snapchat_dlp/snapchat_dlp.py:78 | a page with no data block gives APIResponseError from IndexError |
| WebFetch.OnlyPayloadDecoded | snapchat_dlp/snapchat_dlp.py:75-78 | only the leftmost block's payload reaches the decoder: pages with the same payload end alike |
| WebFetch.DecodedPayload | snapchat_dlp/snapchat_dlp.py:78 | an undecodable payload gives APIResponseError from ValueError; a decoded one is interpreted |
| WebFetch.NonObjectDocument | snapchat_dlp/snapchat_dlp.py:81 | a decoded document that is not a dict raises TypeError, which escapes |
| WebFetch.PageProps | snapchat_dlp/snapchat_dlp.py:81 | `content["props"]["pageProps"]` succeeds exactly when the dictionary walk does, with its value, and otherwise fails only with KeyError or TypeError |
| WebFetch.MissingPageProps | snapchat_dlp/snapchat_dlp.py:81 | a missing `props` or `pageProps` gives APIResponseError from KeyError |
| WebFetch.Interpret | snapchat_dlp/snapchat_dlp.py:80-98 | the tree walk raises APIResponseError only from IndexError, KeyError or ValueError, and lets only TypeError escape |
| WebFetch.AbsentProfile | snapchat_dlp/snapchat_dlp.py:85-86 | a page without `userProfile` raises UserNotFoundError whether or not it has a story |
| WebFetch.MissingCase | snapchat_dlp/snapchat_dlp.py:83 | a profile without `$case` gives APIResponseError |
| WebFetch.ProfileVariant | snapchat_dlp/snapchat_dlp.py:82-84 | the user info is exactly `userProfile[userProfile["$case"]]`; a `$case` naming no variant gives APIResponseError |
| WebFetch.StoryOfPage | snapchat_dlp/snapchat_dlp.py:88-91 | without `story` the list is empty and not an error; otherwise it is `story.snapList` as decoded; a story without `snapList` gives APIResponseError |
| TimeFormat.DayFormatText | snapchat_dlp/snapchat_dlp.py:105 | `%Y-%m-%d` writes the date as year, month and day joined by `-` |
| TimeFormat.NameFormatText | snapchat_dlp/snapchat_dlp.py:110 | the file name template becomes the date, `_`, the time of day, and the three `{}` fields |
| TimeFormat.FileNameText | snapchat_dlp/snapchat_dlp.py:110-112 | the file name is `<date>_<time> <snap id> <username>.<ext>` |
| TimeFormat.FormatPlain | snapchat_dlp/snapchat_dlp.py:110 | text without braces passes through `str.format` unchanged |
| PosixPath.Join | snapchat_dlp/snapchat_dlp.py:107 | an absolute part replaces the path; a relative part keeps the path as prefix and itself as suffix, with one `/` between them, or nothing after an empty path or a trailing `/` |
| PosixPath.JoinRelative | snapchat_dlp/snapchat_dlp.py:107 | a relative part is appended to the path's directory form: the path itself when empty or ending in `/`, else the path and one `/` |
| PosixPath.JoinSuffix | snapchat_dlp/snapchat_dlp.py:115 | `join(dir, name + ".json")` is `join(dir, name) + ".json"` |
| PosixPath.JoinFour | snapchat_dlp/snapchat_dlp.py:107 | joining a plain user name, a date and a file name gives `prefix/user/date/name` |
| Naming.MediaTypeDecides | snapchat_dlp/snapchat_dlp.py:100-113 | once every other field of a record reads, naming succeeds exactly when the media type is hashable and a key of `MEDIA_TYPE`, and otherwise raises KeyError for a hashable type and TypeError for a list or dict |
| Naming.UnknownMediaType | snapchat_dlp/snapchat_dlp.py:111-113 | a record whose media type is missing from the table fails to be named, with KeyError for a hashable type and TypeError for an unhashable one: there is no fallback extension |
| Naming.NameMediaSucceeds | snapchat_dlp/snapchat_dlp.py:100-112 | naming succeeds exactly when every field read is present, the timestamp reads as an int and the media type is in the table |
| Naming.NameMediaResult | snapchat_dlp/snapchat_dlp.py:100-121 | the URL is `snapUrls.mediaUrl`; the output joins prefix, username, date and file name from one timestamp; the sidecar exists exactly when dumping is on, beside the output, holding the record plus `snapUser` |
| Naming.FileNameStartsWithDay | snapchat_dlp/snapchat_dlp.py:105-110 | a layout fact of the reference file name: it begins with the text of its date directory's name followed by `_`, because both come from `%Y-%m-%d` on the one timestamp |
| Naming.OutputPathLayout | snapchat_dlp/snapchat_dlp.py:107-120 | for a plain user name the output path is `prefix/username/<date>/<file name>` |
| Naming.SameSecondPaths | snapchat_dlp/snapchat_dlp.py:110-112 | two records with the same second and extension share an output path exactly when their snap ids format to the same text |
| Dispatch.SubmitAll | snapchat_dlp/snapchat_dlp.py:143-146 | tasks follow the stories in order, each with the configured pause; the loop stops at the first failing story with its exception, having submitted exactly the stories before it |
| Dispatch.SubmitAllDumped | snapchat_dlp/snapchat_dlp.py:114-118 | when every story is named with a sidecar, the sidecars written are theirs, one per story, in order |
| Dispatch.SubmitAllDumpedUntil | snapchat_dlp/snapchat_dlp.py:114-118 | when the loop stops at a failing story and every story before it is named with a sidecar, the sidecars written are exactly those, in order |
| Dispatch.SubmitAllUndumped | snapchat_dlp/snapchat_dlp.py:114 | when no naming carries a sidecar, none is written, whether the loop runs to the end or stops at a failing story |
| Dispatch.NameAll | snapchat_dlp/snapchat_dlp.py:144-145 | one naming per story, in story order, each the naming of that story |
| Dispatch.Chars | snapchat_dlp/snapchat_dlp.py:144 | iterating a str visits its one-character strs in order |
| Dispatch.WithSnapUser | snapchat_dlp/snapchat_dlp.py:116-117 | the sidecar record is the story's dict with `snapUser` set and every other key kept |
| Dispatch.ListRun | snapchat_dlp/snapchat_dlp.py:140-150 | the loop either raises or reports `len(stories)`, with one task per story; no task is submitted unless the first story is a dict |
| Dispatch.StoriesRun | snapchat_dlp/snapchat_dlp.py:135-150 | a falsy story value plans nothing and reports no stories; only a list can yield tasks, and a completed loop reports its length |
| Dispatch.Download | snapchat_dlp/snapchat_dlp.py:123-150 | any fetch outcome but stories gives no tasks; APIResponseError is logged exactly when the fetch raised it; "no stories" exactly when the list is falsy; tasks only for a fetched list, whose length is the reported count |
| Dispatch.NamedTask | snapchat_dlp/snapchat_dlp.py:100-121 | naming a readable record yields the task read off the record and, when dumping is on, the sidecar beside it |
| Dispatch.AllReadablePlan | snapchat_dlp/snapchat_dlp.py:144-146 | over readable stories the loop submits one task per story in order and writes every sidecar when dumping is on |
| Dispatch.FirstUnreadablePlan | snapchat_dlp/snapchat_dlp.py:144-146 | the loop raises the first unreadable story's exception after submitting the stories before it and, when dumping is on, writing exactly their sidecars |
| Dispatch.EveryStorySubmitted | snapchat_dlp/snapchat_dlp.py:135-150 | for a non-empty list of readable stories, `download` submits exactly `len(stories)` tasks in story order with the configured pause, writes their sidecars when dumping is on, and reports `len(stories)` |
| Dispatch.FirstUnreadableStops | snapchat_dlp/snapchat_dlp.py:143-146 | an unreadable story stops `download` with its exception, after the tasks for the stories before it and, when dumping is on, their sidecars beside their outputs; without dumping no sidecar is written |
| Dispatch.StrStoriesRaise | snapchat_dlp/snapchat_dlp.py:144-145 | a non-empty str story list raises TypeError and submits nothing |
| Dispatch.SameSecondTasks | snapchat_dlp/snapchat_dlp.py:144-146 | within one run, two stories of the same second and extension get the same path exactly when their snap ids format alike |

## Left out

- The HTTP request, its User-Agent header and the endpoint URL (lines 43-52). These are network I/O; the response is an input.
- `json.loads`. It is a library parser, modelled as a decoding function given by the caller. The model's decoder either yields a tree or fails with ValueError. CPython's decoder also raises RecursionError on deeply nested input, which neither `except` clause (lines 96 and 131) catches, so it would leave `download`; the model cannot express that.
- The time zone. `Env.localTime` stands for the local calendar breakdown of a timestamp. An overflowing timestamp, on which `localtime` fails, is not modelled.
- `strftime` `%Y` for years below 1000. glibc writes these without padding, and so does the model; other platforms may pad.
- `str()` of floats, lists and dicts is the abstract `Env.repr`.
- Float values are reals, so rounding is not modelled.
- `MEDIA_TYPE` keys that compare equal across types (`1 == 1.0 == True`) are distinct keys in the model's table.
- `int()` accepts only ASCII decimal digits in the model. Python also accepts other Unicode decimal digits.
- `str.format` fields other than `{}`, `{{` and `}}` raise ValueError in the model. The only template used has just `{}` fields, so nothing else is needed.
- `os.path.abspath` and `os.path.normpath` on the prefix (line 32). The prefix is an input, taken as already normalised.
- `os.makedirs` (line 108). The directories are not recorded, including the date directory made for a story whose naming then fails at the `MEDIA_TYPE` lookup (line 111), which stays on disk.
- `dump_response` and `download_url`. These are the sidecar write and the download itself. The model records what they would be given: the sidecars and the tasks of a run.
- The thread pool, `executor.submit` scheduling and `KeyboardInterrupt` (lines 142-148). These are concurrency and signal handling.
- All logging and the `quiet` flag, which only silences one log line.
- `limit_story`. It is stored but never read, so it does not affect which tasks are planned.
- Dispatch.Download: `max_workers` is not modelled. Line 142 builds `ThreadPoolExecutor(max_workers=self.max_workers)` after the story check and outside every `try`. A `max_workers` of 0 or less makes that call raise ValueError, so `download` raises with no task submitted and no sidecar written. The model plans as if the pool were always built, and reports the loop's outcome for every configuration.
- `UserNotFoundError`, `APIResponseError` and `NoStoriesFound` live in `snapchat_dlp/utils.py`, which is not part of this model. `UserNotFoundError` is taken not to derive from `APIResponseError` or from the three caught built-in exceptions. If it derived from `APIResponseError`, `download` would catch it at line 131 and return after logging.
- `MEDIA_TYPE` is defined in `snapchat_dlp/utils.py` and is taken to be a dict. A table of another kind could fail differently on a missing key.
- Non-finite floats. A decoded `NaN` or infinity, or a literal such as `1e400` that decodes to infinity, makes `int()` raise ValueError or OverflowError. The model's floats are reals, and OverflowError is not among its exceptions.
- ParseIntText: Python 3.11 and later refuse to convert integers of more than 4300 digits between int and str by default. The model has no such limit, so this lemma and `JsonValue.IntRoundTrip` also cover integers those versions reject.
- Dispatch.Download: for a non-empty dict story list, the model raises TypeError without iterating the keys. Every key is a str and would raise TypeError on the first subscript, so the outcome is the same.
- `snapchat_dlp/__init__.py` and `snapchat_dl/__init__.py` hold package metadata and re-export `SnapchatDL`. They add no behaviour.
- `sleep_interval` is passed through untouched to `download_url` (line 146), and Python allows a float there. `Config.sleepInterval` is an integer.
- A dict record is a map in the model, so the key order that `dump_response` writes for a sidecar record is not kept.
