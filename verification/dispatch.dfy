/** `SnapchatDL.download`, as a plan: which download tasks it submits to the
    worker pool, in which order, which sidecar files it writes, and how the
    call ends. The pool itself, the downloads it runs, directory creation
    and logging are outside the model. */
module Dispatch {
  import opened Wrappers
  import opened JsonValue
  import opened WebFetch
  import opened Naming
  import opened TimeFormat
  import opened PosixPath

  /** The settings `download` reads: the output root (already made absolute
      and normalised), the pause each task takes after its download, and
      whether each item's record is also dumped as JSON. */
  datatype Config = Config(prefix: string, sleepInterval: int, dumpJson: bool)

  /** One `executor.submit(download_url, media_url, media_output, sleep_interval)`. */
  datatype Task = Task(url: Json, output: string, delay: int)

  /** How a `download(username)` call ends. */
  datatype Outcome =
    | FetchFailed(reason: ApiReason)   // APIResponseError caught and logged
    | UserNotFoundRaised               // UserNotFoundError leaves the call
    | Raised(err: PyError)             // a built-in exception leaves the call
    | NoStories                        // "has no stories"
    | Submitted(reported: nat)         // "<n> stories downloaded"

  /** The effects of one call: its outcome, the tasks submitted in order,
      and the sidecar files written in order. */
  datatype Run = Run(outcome: Outcome, tasks: seq<Task>, sidecars: seq<Sidecar>)

  /** What the submission loop did: the tasks and sidecars it produced, and
      the exception that stopped it early, if any. */
  datatype Batch = Batch(tasks: seq<Task>, sidecars: seq<Sidecar>, failure: Option<PyError>)

  function TaskFor(n: Named, config: Config): Task {
    Task(n.url, n.output, config.sleepInterval)
  }

  function Name(media: Json, username: string, snapUser: Json, config: Config, env: Env): Result<Named, PyError> {
    NameMedia(media, username, snapUser, config.prefix, config.dumpJson, env)
  }

  /** Each story named in turn. Naming is pure, so naming every story up
      front and then stopping at the first failure submits what the
      interleaved loop submits. */
  function NameAll(stories: seq<Json>, username: string, snapUser: Json, config: Config, env: Env)
    : (r: seq<Result<Named, PyError>>)
    ensures |r| == |stories|
    ensures forall i :: 0 <= i < |stories| ==> r[i] == Name(stories[i], username, snapUser, config, env)
  {
    if |stories| == 0 then []
    else [Name(stories[0], username, snapUser, config, env)] + NameAll(stories[1..], username, snapUser, config, env)
  }

  /** The loop `for media in stories` over the stories' namings: each named
      story's sidecar is written and its download submitted, in story order.
      The first story that cannot be named raises out of the loop; the tasks
      submitted before it stay submitted. */
  function SubmitAll(named: seq<Result<Named, PyError>>, config: Config): (b: Batch)
    ensures |b.tasks| <= |named|
    ensures b.failure.None? <==> forall i :: 0 <= i < |named| ==> named[i].Ok?
    ensures b.failure.None? ==> |b.tasks| == |named|
    ensures b.failure.Some? ==> |b.tasks| < |named| && named[|b.tasks|] == Err(b.failure.value)
    ensures forall i :: 0 <= i < |b.tasks| ==> named[i].Ok? && b.tasks[i] == TaskFor(named[i].value, config)
  {
    if |named| == 0 then Batch([], [], None)
    else
      match named[0]
      case Err(e) => Batch([], [], Some(e))
      case Ok(n) =>
        var rest := SubmitAll(named[1..], config);
        var written := if n.sidecar.Some? then [n.sidecar.value] else [];
        Batch([TaskFor(n, config)] + rest.tasks, written + rest.sidecars, rest.failure)
  }

  /** When every naming succeeds with a sidecar, the sidecars written are
      theirs, in order. */
  lemma {:induction false} SubmitAllDumped(named: seq<Result<Named, PyError>>, config: Config)
    requires forall i :: 0 <= i < |named| ==> named[i].Ok? && named[i].value.sidecar.Some?
    ensures var b := SubmitAll(named, config);
            && |b.sidecars| == |named|
            && forall i :: 0 <= i < |named| ==> b.sidecars[i] == named[i].value.sidecar.value
  {
    if |named| > 0 {
      var rest := SubmitAll(named[1..], config);
      SubmitAllDumped(named[1..], config);
      assert SubmitAll(named, config).sidecars == [named[0].value.sidecar.value] + rest.sidecars;
    }
  }

  /** When the loop stops at the failing naming `k` and every naming before
      it carries a sidecar, the sidecars written are those `k`, in order. */
  lemma {:induction false} SubmitAllDumpedUntil(named: seq<Result<Named, PyError>>, config: Config, k: nat)
    requires k < |named| && named[k].Err?
    requires forall i :: 0 <= i < k ==> named[i].Ok? && named[i].value.sidecar.Some?
    ensures var b := SubmitAll(named, config);
            && |b.sidecars| == k
            && forall i :: 0 <= i < k ==> b.sidecars[i] == named[i].value.sidecar.value
  {
    if k > 0 {
      var rest := SubmitAll(named[1..], config);
      assert forall i :: 0 <= i < k - 1 ==> named[1..][i] == named[i + 1];
      SubmitAllDumpedUntil(named[1..], config, k - 1);
      assert SubmitAll(named, config).sidecars == [named[0].value.sidecar.value] + rest.sidecars;
    }
  }

  /** When no naming carries a sidecar, none is written, whether the loop
      runs to the end or stops at a failing story. */
  lemma {:induction false} SubmitAllUndumped(named: seq<Result<Named, PyError>>, config: Config)
    requires forall i :: 0 <= i < |named| && named[i].Ok? ==> named[i].value.sidecar.None?
    ensures SubmitAll(named, config).sidecars == []
  {
    if |named| > 0 && named[0].Ok? {
      assert forall i :: 0 <= i < |named[1..]| && named[1..][i].Ok? ==> named[1..][i].value.sidecar.None? by {
        forall i | 0 <= i < |named[1..]| ensures named[1..][i] == named[i + 1] { }
      }
      SubmitAllUndumped(named[1..], config);
    }
  }

  /** The items a `for` loop over a str visits: its one-character strs. */
  function Chars(s: string): (r: seq<Json>)
    ensures |r| == |s|
    ensures forall k :: 0 <= k < |s| ==> r[k] == JStr([s[k]])
  {
    if |s| == 0 then [] else [JStr([s[0]])] + Chars(s[1..])
  }

  /** The loop over a fetched, non-empty story list, and the count logged
      after it when no story raised. */
  function ListRun(stories: seq<Json>, username: string, snapUser: Json, config: Config, env: Env): (run: Run)
    ensures run.outcome.Raised? || run.outcome == Submitted(|stories|)
    ensures run.outcome.Submitted? ==> |run.tasks| == |stories|
    ensures |run.tasks| > 0 ==> |stories| > 0 && stories[0].JObj?
    ensures run.outcome.Submitted? ==> Len(JArr(stories)) == Ok(run.outcome.reported)
  {
    var b := SubmitAll(NameAll(stories, username, snapUser, config, env), config);
    Run(if b.failure.Some? then Raised(b.failure.value) else Submitted(|stories|), b.tasks, b.sidecars)
  }

  /** `download(username)` against one response. */
  function Download(username: string, response: Response, decode: string -> Option<Json>, config: Config, env: Env)
    : (run: Run)
    ensures !FetchStory(response, decode).Fetched? ==> run.tasks == [] && run.sidecars == []
    ensures run.outcome.FetchFailed? <==> FetchStory(response, decode).ApiError?
    ensures run.outcome.UserNotFoundRaised? <==> FetchStory(response, decode).UserNotFound?
    ensures run.outcome.NoStories? <==>
              FetchStory(response, decode).Fetched? && !Truthy(FetchStory(response, decode).stories)
    ensures run.outcome.NoStories? ==> run.tasks == [] && run.sidecars == []
    ensures |run.tasks| > 0 ==> FetchStory(response, decode).Fetched? && FetchStory(response, decode).stories.JArr?
    ensures run.outcome.Submitted? ==>
              && FetchStory(response, decode).Fetched?
              && FetchStory(response, decode).stories.JArr?
              && run.outcome.reported == |FetchStory(response, decode).stories.items| == |run.tasks| > 0
  {
    match FetchStory(response, decode)
    case ApiError(reason) => Run(FetchFailed(reason), [], [])
    case UserNotFound => Run(UserNotFoundRaised, [], [])
    case Escaped(e) => Run(Raised(e), [], [])
    case Fetched(stories, snapUser) => StoriesRun(stories, username, snapUser, config, env)
  }

  /** What `download` does once `_web_fetch_story` has returned `stories`:
      nothing for a false value, otherwise the loop over it. */
  function StoriesRun(stories: Json, username: string, snapUser: Json, config: Config, env: Env): (run: Run)
    ensures run.outcome.Raised? || run.outcome.NoStories? || run.outcome.Submitted?
    ensures run.outcome.NoStories? <==> !Truthy(stories)
    ensures run.outcome.NoStories? ==> run.tasks == [] && run.sidecars == []
    ensures |run.tasks| > 0 ==> stories.JArr?
    ensures run.outcome.Submitted? ==> stories.JArr? && run.outcome.reported == |stories.items| == |run.tasks| > 0
  {
    if !Truthy(stories) then Run(NoStories, [], [])
    else
      match stories
      case JArr(items) => ListRun(items, username, snapUser, config, env)
      case JStr(s) =>
        // Iterating a str yields one-character strs, and subscripting one
        // with "snapId" raises TypeError.
        ListRun(Chars(s), username, snapUser, config, env)
      case JObj(_) =>
        // Iterating a dict yields its keys, all strs: the first one raises
        // TypeError when subscripted with "snapId".
        Run(Raised(TypeError), [], [])
      case _ =>
        // A true int, float or bool has no len(): TypeError.
        Run(Raised(TypeError), [], [])
  }

  /** A story record `download` can name: every field `_download_media`
      reads is there, the timestamp reads as an int, and the media type is
      in the table. */
  predicate Readable(media: Json, env: Env) {
    media.JObj? && ReadStory(media).Some? && Extension(env.mediaTypes, ReadStory(media).value.mediaType).Ok?
  }

  /** The task a readable record becomes, read straight off the record:
      its media URL, the path `join(prefix, username, <date>, <file name>)`
      built from its timestamp, snap id and extension, and the configured
      pause. */
  function TaskOfRecord(media: Json, username: string, config: Config, env: Env): Task
    requires Readable(media, env)
  {
    var s := ReadStory(media).value;
    var m := env.localTime(s.timestamp);
    var name := FileName(m, Str(s.snapId, env.repr), username, env.mediaTypes[s.mediaType]);
    Task(s.url, Join(Join(Join(config.prefix, username), DayText(m)), name), config.sleepInterval)
  }

  /** `media["snapUser"] = snap_user` on a record dict: the record the
      sidecar holds. */
  function WithSnapUser(media: Json, snapUser: Json): (r: Json)
    ensures media.JObj? ==> r.JObj? && r.fields.Keys == media.fields.Keys + {"snapUser"}
    ensures media.JObj? ==> r.fields["snapUser"] == snapUser
    ensures media.JObj? ==> forall k :: k in media.fields && k != "snapUser" ==> r.fields[k] == media.fields[k]
  {
    match media
    case JObj(fields) => JObj(fields["snapUser" := snapUser])
    case _ => media
  }

  /** What naming a readable record yields: its task's URL and path, and,
      when dumping is on, a sidecar beside the output holding the record
      with `snapUser` added. */
  function NamedOfRecord(media: Json, username: string, snapUser: Json, config: Config, env: Env): Named
    requires Readable(media, env)
  {
    var t := TaskOfRecord(media, username, config, env);
    var sidecar := if config.dumpJson then Some(Sidecar(t.output + ".json", WithSnapUser(media, snapUser))) else None;
    Named(t.url, t.output, sidecar)
  }

  lemma NamedTask(media: Json, username: string, snapUser: Json, config: Config, env: Env)
    requires Readable(media, env)
    ensures Name(media, username, snapUser, config, env) == Ok(NamedOfRecord(media, username, snapUser, config, env))
  {
    NameMediaResult(media, username, snapUser, config.prefix, config.dumpJson, env);
    NamedOfRecordForm(media, username, snapUser, config, env);
  }

  /** `NamedOfRecord` spelled out over the record's fields. */
  lemma NamedOfRecordForm(media: Json, username: string, snapUser: Json, config: Config, env: Env)
    requires Readable(media, env)
    ensures var s := ReadStory(media).value;
            var m := env.localTime(s.timestamp);
            var ext := env.mediaTypes[s.mediaType];
            var output := Join(Join(Join(config.prefix, username), DayText(m)), FileName(m, Str(s.snapId, env.repr), username, ext));
            NamedOfRecord(media, username, snapUser, config, env)
              == Named(s.url, output, if config.dumpJson then Some(Sidecar(output + ".json", JObj(media.fields["snapUser" := snapUser]))) else None)
  {
    var t := TaskOfRecord(media, username, config, env);
    assert WithSnapUser(media, snapUser) == JObj(media.fields["snapUser" := snapUser]);
    assert NamedOfRecord(media, username, snapUser, config, env)
        == Named(t.url, t.output, if config.dumpJson then Some(Sidecar(t.output + ".json", WithSnapUser(media, snapUser))) else None);
  }

  /** The loop over namings that all succeed submits each one's task, in
      order. */
  lemma SubmitAllOk(named: seq<Result<Named, PyError>>, config: Config)
    requires forall i :: 0 <= i < |named| ==> named[i].Ok?
    ensures var b := SubmitAll(named, config);
            && b.failure.None?
            && |b.tasks| == |named|
            && (forall i :: 0 <= i < |named| ==> b.tasks[i] == TaskFor(named[i].value, config))
  {
  }

  /** `stories` as `_web_fetch_story` returned them, once it returned. */
  predicate FetchedList(response: Response, decode: string -> Option<Json>, items: seq<Json>, snapUser: Json) {
    FetchStory(response, decode) == Fetched(JArr(items), snapUser)
  }

  /** Once a non-empty story list is fetched, `download` is the loop over it. */
  lemma DownloadOfList(username: string, response: Response, decode: string -> Option<Json>,
                       config: Config, env: Env, items: seq<Json>, snapUser: Json)
    requires FetchedList(response, decode, items, snapUser) && |items| > 0
    ensures Download(username, response, decode, config, env) == ListRun(items, username, snapUser, config, env)
  {
    assert Truthy(JArr(items));
  }

  /** The loop over stories that are all readable submits one task per story,
      in order, and writes each sidecar when dumping is on. */
  lemma AllReadablePlan(items: seq<Json>, username: string, snapUser: Json, config: Config, env: Env)
    requires forall i :: 0 <= i < |items| ==> Readable(items[i], env)
    ensures var run := ListRun(items, username, snapUser, config, env);
            && run.outcome == Submitted(|items|)
            && |run.tasks| == |items|
            && (forall i :: 0 <= i < |items| ==> run.tasks[i] == TaskOfRecord(items[i], username, config, env))
            && |run.sidecars| == (if config.dumpJson then |items| else 0)
            && (config.dumpJson ==> forall i :: 0 <= i < |items| ==>
                  run.sidecars[i] == Sidecar(run.tasks[i].output + ".json", WithSnapUser(items[i], snapUser)))
  {
    AllReadableTasks(items, username, snapUser, config, env);
    AllReadableSidecars(items, username, snapUser, config, env);
  }

  /** Every story names successfully, to its record's task and sidecar. */
  lemma NameAllReadable(items: seq<Json>, username: string, snapUser: Json, config: Config, env: Env)
    requires forall i :: 0 <= i < |items| ==> Readable(items[i], env)
    ensures var named := NameAll(items, username, snapUser, config, env);
            forall i :: 0 <= i < |items| ==> named[i] == Ok(NamedOfRecord(items[i], username, snapUser, config, env))
  {
    forall i | 0 <= i < |items|
      ensures Name(items[i], username, snapUser, config, env) == Ok(NamedOfRecord(items[i], username, snapUser, config, env))
    {
      NamedTask(items[i], username, snapUser, config, env);
    }
  }

  lemma AllReadableTasks(items: seq<Json>, username: string, snapUser: Json, config: Config, env: Env)
    requires forall i :: 0 <= i < |items| ==> Readable(items[i], env)
    ensures var run := ListRun(items, username, snapUser, config, env);
            && run.outcome == Submitted(|items|)
            && |run.tasks| == |items|
            && (forall i :: 0 <= i < |items| ==> run.tasks[i] == TaskOfRecord(items[i], username, config, env))
  {
    NameAllReadable(items, username, snapUser, config, env);
    SubmitAllOk(NameAll(items, username, snapUser, config, env), config);
  }

  lemma AllReadableSidecars(items: seq<Json>, username: string, snapUser: Json, config: Config, env: Env)
    requires forall i :: 0 <= i < |items| ==> Readable(items[i], env)
    ensures var run := ListRun(items, username, snapUser, config, env);
            && |run.sidecars| == (if config.dumpJson then |items| else 0)
            && (config.dumpJson ==> forall i :: 0 <= i < |items| ==>
                  run.sidecars[i] == Sidecar(TaskOfRecord(items[i], username, config, env).output + ".json", WithSnapUser(items[i], snapUser)))
  {
    if config.dumpJson {
      DumpedSidecars(items, username, snapUser, config, env);
    } else {
      UndumpedSidecars(items, username, snapUser, config, env);
    }
  }

  lemma DumpedSidecars(items: seq<Json>, username: string, snapUser: Json, config: Config, env: Env)
    requires config.dumpJson
    requires forall i :: 0 <= i < |items| ==> Readable(items[i], env)
    ensures var run := ListRun(items, username, snapUser, config, env);
            && |run.sidecars| == |items|
            && forall i :: 0 <= i < |items| ==>
                 run.sidecars[i] == Sidecar(TaskOfRecord(items[i], username, config, env).output + ".json", WithSnapUser(items[i], snapUser))
  {
    NameAllReadable(items, username, snapUser, config, env);
    RecordSidecars(NameAll(items, username, snapUser, config, env), items, username, snapUser, config, env);
  }

  lemma RecordSidecars(named: seq<Result<Named, PyError>>, items: seq<Json>, username: string, snapUser: Json,
                       config: Config, env: Env)
    requires config.dumpJson && |named| == |items|
    requires forall i :: 0 <= i < |items| ==> Readable(items[i], env)
    requires forall i :: 0 <= i < |items| ==> named[i] == Ok(NamedOfRecord(items[i], username, snapUser, config, env))
    ensures var b := SubmitAll(named, config);
            && |b.sidecars| == |items|
            && forall i :: 0 <= i < |items| ==>
                 b.sidecars[i] == Sidecar(TaskOfRecord(items[i], username, config, env).output + ".json", WithSnapUser(items[i], snapUser))
  {
    assert forall i :: 0 <= i < |named| ==> named[i].Ok? && named[i].value.sidecar.Some?;
    SubmitAllDumped(named, config);
    var b := SubmitAll(named, config);
    forall i | 0 <= i < |items|
      ensures b.sidecars[i] == Sidecar(TaskOfRecord(items[i], username, config, env).output + ".json", WithSnapUser(items[i], snapUser))
    {
      assert Some(b.sidecars[i]) == NamedOfRecord(items[i], username, snapUser, config, env).sidecar;
    }
  }

  lemma RecordSidecarsUntil(named: seq<Result<Named, PyError>>, items: seq<Json>, username: string, snapUser: Json,
                            config: Config, env: Env, k: nat)
    requires config.dumpJson && |named| == |items| && k < |items| && named[k].Err?
    requires forall i :: 0 <= i < k ==> Readable(items[i], env)
    requires forall i :: 0 <= i < k ==> named[i] == Ok(NamedOfRecord(items[i], username, snapUser, config, env))
    ensures var b := SubmitAll(named, config);
            && |b.sidecars| == k
            && forall i :: 0 <= i < k ==>
                 b.sidecars[i] == Sidecar(TaskOfRecord(items[i], username, config, env).output + ".json", WithSnapUser(items[i], snapUser))
  {
    assert forall i :: 0 <= i < k ==> named[i].Ok? && named[i].value.sidecar.Some?;
    SubmitAllDumpedUntil(named, config, k);
    var b := SubmitAll(named, config);
    forall i | 0 <= i < k
      ensures b.sidecars[i] == Sidecar(TaskOfRecord(items[i], username, config, env).output + ".json", WithSnapUser(items[i], snapUser))
    {
      assert Some(b.sidecars[i]) == NamedOfRecord(items[i], username, snapUser, config, env).sidecar;
    }
  }

  /** The sidecars written before the first unreadable story stops the
      loop: one per earlier story when dumping is on, none otherwise. */
  lemma FirstUnreadableSidecars(items: seq<Json>, username: string, snapUser: Json, config: Config, env: Env, k: nat)
    requires k < |items|
    requires forall i :: 0 <= i < k ==> Readable(items[i], env)
    requires !Readable(items[k], env)
    ensures var run := ListRun(items, username, snapUser, config, env);
            && |run.sidecars| == (if config.dumpJson then k else 0)
            && (config.dumpJson ==> forall i :: 0 <= i < k ==>
                  run.sidecars[i] == Sidecar(TaskOfRecord(items[i], username, config, env).output + ".json", WithSnapUser(items[i], snapUser)))
  {
    var named := NameAll(items, username, snapUser, config, env);
    assert named[k].Err? by {
      NameMediaSucceeds(items[k], username, snapUser, config.prefix, config.dumpJson, env);
    }
    if config.dumpJson {
      forall i | 0 <= i < k
        ensures named[i] == Ok(NamedOfRecord(items[i], username, snapUser, config, env))
      {
        NamedTask(items[i], username, snapUser, config, env);
      }
      RecordSidecarsUntil(named, items, username, snapUser, config, env, k);
    } else {
      forall i | 0 <= i < |named| && named[i].Ok?
        ensures named[i].value.sidecar.None?
      {
        NameMediaSidecar(items[i], username, snapUser, config.prefix, config.dumpJson, env);
      }
      SubmitAllUndumped(named, config);
    }
  }

  lemma UndumpedSidecars(items: seq<Json>, username: string, snapUser: Json, config: Config, env: Env)
    requires !config.dumpJson
    requires forall i :: 0 <= i < |items| ==> Readable(items[i], env)
    ensures ListRun(items, username, snapUser, config, env).sidecars == []
  {
    var named := NameAll(items, username, snapUser, config, env);
    NameAllReadable(items, username, snapUser, config, env);
    SubmitAllUndumped(named, config);
  }

  /** The loop stops at the first unreadable story, after submitting the
      ones before it and writing their sidecars. */
  lemma {:induction false} FirstUnreadablePlan(items: seq<Json>, username: string, snapUser: Json, config: Config, env: Env, k: nat)
    requires k < |items|
    requires forall i :: 0 <= i < k ==> Readable(items[i], env)
    requires !Readable(items[k], env)
    ensures var run := ListRun(items, username, snapUser, config, env);
            && Name(items[k], username, snapUser, config, env).Err?
            && run.outcome == Raised(Name(items[k], username, snapUser, config, env).error)
            && |run.tasks| == k
            && (forall i :: 0 <= i < k ==> run.tasks[i] == TaskOfRecord(items[i], username, config, env))
            && |run.sidecars| == (if config.dumpJson then k else 0)
            && (config.dumpJson ==> forall i :: 0 <= i < k ==>
                  run.sidecars[i] == Sidecar(TaskOfRecord(items[i], username, config, env).output + ".json", WithSnapUser(items[i], snapUser)))
  {
    FirstUnreadableSidecars(items, username, snapUser, config, env, k);
    var named := NameAll(items, username, snapUser, config, env);
    var b := SubmitAll(named, config);
    assert named[k].Err? by {
      NameMediaSucceeds(items[k], username, snapUser, config.prefix, config.dumpJson, env);
    }
    forall i | 0 <= i < k
      ensures named[i].Ok?
      ensures TaskFor(named[i].value, config) == TaskOfRecord(items[i], username, config, env)
    {
      NamedTask(items[i], username, snapUser, config, env);
    }
    assert b.failure.Some?;
    assert |b.tasks| == k;
  }

  /** When every story in a non-empty list is readable, `download` submits
      one task per story, in list order, each for the record's own URL and
      path; it writes one sidecar per story exactly when JSON dumping is on,
      holding the record with `snapUser` added; and it reports the list's
      length. */
  lemma EveryStorySubmitted(username: string, response: Response, decode: string -> Option<Json>,
                            config: Config, env: Env, items: seq<Json>, snapUser: Json)
    requires FetchedList(response, decode, items, snapUser) && |items| > 0
    requires forall i :: 0 <= i < |items| ==> Readable(items[i], env)
    ensures var run := Download(username, response, decode, config, env);
            && run.outcome == Submitted(|items|)
            && |run.tasks| == |items|
            && (forall i :: 0 <= i < |items| ==> run.tasks[i] == TaskOfRecord(items[i], username, config, env))
            && |run.sidecars| == (if config.dumpJson then |items| else 0)
            && (config.dumpJson ==> forall i :: 0 <= i < |items| ==>
                  run.sidecars[i] == Sidecar(run.tasks[i].output + ".json", WithSnapUser(items[i], snapUser)))
  {
    DownloadOfList(username, response, decode, config, env, items, snapUser);
    AllReadablePlan(items, username, snapUser, config, env);
  }

  /** The first unreadable story stops the loop: the stories before it have
      been submitted, in order, their sidecars written when dumping is on,
      and its exception leaves `download`. */
  lemma FirstUnreadableStops(username: string, response: Response, decode: string -> Option<Json>,
                             config: Config, env: Env, items: seq<Json>, snapUser: Json, k: nat)
    requires FetchedList(response, decode, items, snapUser) && k < |items|
    requires forall i :: 0 <= i < k ==> Readable(items[i], env)
    requires !Readable(items[k], env)
    ensures var run := Download(username, response, decode, config, env);
            && Name(items[k], username, snapUser, config, env).Err?
            && run.outcome == Raised(Name(items[k], username, snapUser, config, env).error)
            && |run.tasks| == k
            && (forall i :: 0 <= i < k ==> run.tasks[i] == TaskOfRecord(items[i], username, config, env))
            && |run.sidecars| == (if config.dumpJson then k else 0)
            && (config.dumpJson ==> forall i :: 0 <= i < k ==>
                  run.sidecars[i] == Sidecar(run.tasks[i].output + ".json", WithSnapUser(items[i], snapUser)))
  {
    DownloadOfList(username, response, decode, config, env, items, snapUser);
    FirstUnreadablePlan(items, username, snapUser, config, env, k);
  }

  /** A non-empty str where the list should be is iterated character by
      character, and the first character raises TypeError: nothing is
      submitted. */
  lemma StrStoriesRaise(username: string, response: Response, decode: string -> Option<Json>,
                        config: Config, env: Env, s: string, snapUser: Json)
    requires FetchStory(response, decode) == Fetched(JStr(s), snapUser) && |s| > 0
    ensures Download(username, response, decode, config, env) == Run(Raised(TypeError), [], [])
  {
    var named := NameAll(Chars(s), username, snapUser, config, env);
    assert named[0] == Err(TypeError);
  }

  /** Two readable records stamped with the same second whose media types
      map to the same extension. */
  predicate SameSecondSameType(a: Json, b: Json, env: Env) {
    && Readable(a, env) && Readable(b, env)
    && ReadStory(a).value.timestamp == ReadStory(b).value.timestamp
    && env.mediaTypes[ReadStory(a).value.mediaType] == env.mediaTypes[ReadStory(b).value.mediaType]
  }

  /** Two stories of one run stamped with the same second and of the same
      media type are written to the same path exactly when their snap ids
      format to the same text. */
  lemma SameSecondTasks(username: string, response: Response, decode: string -> Option<Json>,
                        config: Config, env: Env, items: seq<Json>, snapUser: Json, i: nat, j: nat)
    requires forall k :: 0 <= k < |items| ==> Readable(items[k], env)
    requires i < |items| && j < |items|
    requires SameSecondSameType(items[i], items[j], env)
    requires FetchedList(response, decode, items, snapUser)
    ensures var run := Download(username, response, decode, config, env);
            && |run.tasks| == |items|
            && (run.tasks[i].output == run.tasks[j].output
                <==> Str(ReadStory(items[i]).value.snapId, env.repr) == Str(ReadStory(items[j]).value.snapId, env.repr))
  {
    EveryStorySubmitted(username, response, decode, config, env, items, snapUser);
    NamedTask(items[i], username, snapUser, config, env);
    NamedTask(items[j], username, snapUser, config, env);
    SameSecondPaths(items[i], items[j], username, snapUser, config.prefix, config.dumpJson, env);
  }
}
