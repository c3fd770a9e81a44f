/** `SnapchatDL._download_media` without its filesystem effects: where one
    story item goes. The directory creation is not modelled, and the sidecar
    write is left to the caller; this module computes the media URL, the
    output path and the optional sidecar (its path and the record written
    there). */
module Naming {
  import opened Wrappers
  import opened PyText
  import opened JsonValue
  import opened TimeFormat
  import opened PosixPath

  /** What the downloader takes from utilities outside this model: the local
      calendar fields of a timestamp (behind `strf_time`), the `MEDIA_TYPE`
      table (each extension as `str.format` writes it), and the text `str()`
      gives floats, lists and dicts. */
  datatype Env = Env(localTime: int -> Moment, mediaTypes: map<Json, string>, repr: Json -> string)

  /** A metadata file written next to the media: its path and its record. */
  datatype Sidecar = Sidecar(path: string, record: Json)

  /** The result of `_download_media`: the URL and output path it returns,
      and the sidecar it writes when JSON dumping is on. */
  datatype Named = Named(url: Json, output: string, sidecar: Option<Sidecar>)

  /** `MEDIA_TYPE[media_type]`: partial, with no fallback extension. What
      naming makes of it is stated by `MediaTypeDecides`. */
  function Extension(table: map<Json, string>, mediaType: Json): Result<string, PyError> {
    if !Hashable(mediaType) then Err(TypeError)
    else if mediaType in table then Ok(table[mediaType])
    else Err(KeyError)
  }

  /** `_download_media(media, username, snap_user)`, step for step: every
      failed subscript, `int()` or lookup raises, and the exception leaves
      the function. */
  function NameMedia(media: Json, username: string, snapUser: Json, prefix: string, dumpJson: bool, env: Env)
    : Result<Named, PyError>
  {
    var idBox :- Get(media, "snapId");
    var snapId :- Get(idBox, "value");
    var urls :- Get(media, "snapUrls");
    var url :- Get(urls, "mediaUrl");
    var mediaType :- Get(media, "snapMediaType");
    var tsBox :- Get(media, "timestampInSec");
    var tsValue :- Get(tsBox, "value");
    var timestamp :- ToInt(tsValue);
    var day := StrfTime(env.localTime(timestamp), DayFormat);
    var dir := Join(Join(prefix, username), day);
    var template := StrfTime(env.localTime(timestamp), NameFormat);
    var ext :- Extension(env.mediaTypes, mediaType);
    var filename :- Format(template, [Str(snapId, env.repr), username, ext]);
    var sidecar :=
      if dumpJson then Some(Sidecar(Join(dir, filename + ".json"), JObj(media.fields["snapUser" := snapUser])))
      else None;
    Ok(Named(url, Join(dir, filename), sidecar))
  }

  /** The fields of a story record that naming reads. */
  datatype Story = Story(snapId: Json, url: Json, mediaType: Json, timestamp: int)

  /** A declarative reading of a story record: every field found by walking
      dicts, and the timestamp as `int()` reads it. */
  function ReadStory(media: Json): Option<Story> {
    var snapId :- Walk(media, ["snapId", "value"]);
    var url :- Walk(media, ["snapUrls", "mediaUrl"]);
    var mediaType :- Walk(media, ["snapMediaType"]);
    var tsValue :- Walk(media, ["timestampInSec", "value"]);
    match ToInt(tsValue)
    case Err(_) => None
    case Ok(t) => Some(Story(snapId, url, mediaType, t))
  }

  /** The file name layout: `<date>_<time> <snap id> <username>.<extension>`,
      separated by spaces. */
  function FileName(m: Moment, snapId: string, username: string, ext: string): string {
    DayText(m) + "_" + ClockText(m) + " " + snapId + " " + username + "." + ext
  }

  lemma GetIsWalk(j: Json, k: string)
    ensures Get(j, k).Ok? <==> Walk(j, [k]).Some?
    ensures Get(j, k).Ok? ==> Get(j, k).value == Walk(j, [k]).value
  {
    if j.JObj? && k in j.fields {
      assert [k][1..] == [];
    }
  }

  /** Naming succeeds exactly when the record holds every field it reads,
      the timestamp reads as an int, and the media type is in the table. */
  lemma NameMediaSucceeds(media: Json, username: string, snapUser: Json, prefix: string, dumpJson: bool, env: Env)
    ensures NameMedia(media, username, snapUser, prefix, dumpJson, env).Ok?
            <==> ReadStory(media).Some? && Extension(env.mediaTypes, ReadStory(media).value.mediaType).Ok?
  {
    GetChainIsWalk(media, "snapId", "value");
    GetChainIsWalk(media, "snapUrls", "mediaUrl");
    GetIsWalk(media, "snapMediaType");
    GetChainIsWalk(media, "timestampInSec", "value");
    if ReadStory(media).Some? {
      var s := ReadStory(media).value;
      var m := env.localTime(s.timestamp);
      var ext := Extension(env.mediaTypes, s.mediaType);
      if ext.Ok? {
        FileNameText(m, Str(s.snapId, env.repr), username, ext.value);
      }
    }
  }

  /** What naming returns for a readable record: the URL is
      `snapUrls.mediaUrl` as decoded; the output is
      `join(prefix, username, <date>, <file name>)`, the date and the file
      name both taken from the one timestamp; the sidecar, present exactly
      when JSON dumping is on, sits at the output path plus `.json` and holds
      the record with `snapUser` added. */
  lemma NameMediaResult(media: Json, username: string, snapUser: Json, prefix: string, dumpJson: bool, env: Env)
    requires ReadStory(media).Some?
    requires Extension(env.mediaTypes, ReadStory(media).value.mediaType).Ok?
    ensures var s := ReadStory(media).value;
            var m := env.localTime(s.timestamp);
            var ext := env.mediaTypes[s.mediaType];
            var output := Join(Join(Join(prefix, username), DayText(m)), FileName(m, Str(s.snapId, env.repr), username, ext));
            var r := NameMedia(media, username, snapUser, prefix, dumpJson, env);
            && r.Ok?
            && r.value.url == s.url
            && r.value.output == output
            && (r.value.sidecar.Some? <==> dumpJson)
            && (dumpJson ==> r.value.sidecar.value == Sidecar(output + ".json", JObj(media.fields["snapUser" := snapUser])))
            && r == Ok(Named(s.url, output, if dumpJson then Some(Sidecar(output + ".json", JObj(media.fields["snapUser" := snapUser]))) else None))
  {
    NameMediaSucceeds(media, username, snapUser, prefix, dumpJson, env);
    GetChainIsWalk(media, "snapId", "value");
    GetChainIsWalk(media, "snapUrls", "mediaUrl");
    GetIsWalk(media, "snapMediaType");
    GetChainIsWalk(media, "timestampInSec", "value");
    var s := ReadStory(media).value;
    var m := env.localTime(s.timestamp);
    var ext := env.mediaTypes[s.mediaType];
    var name := FileName(m, Str(s.snapId, env.repr), username, ext);
    FileNameText(m, Str(s.snapId, env.repr), username, ext);
    DayFormatText(m);
    JoinSuffix(Join(Join(prefix, username), DayText(m)), name, ".json");
  }

  /** Whatever record is named, a successful naming carries a sidecar
      exactly when JSON dumping is on. */
  lemma NameMediaSidecar(media: Json, username: string, snapUser: Json, prefix: string, dumpJson: bool, env: Env)
    ensures var r := NameMedia(media, username, snapUser, prefix, dumpJson, env);
            r.Ok? ==> (r.value.sidecar.Some? <==> dumpJson)
  {
    NameMediaSucceeds(media, username, snapUser, prefix, dumpJson, env);
    if NameMedia(media, username, snapUser, prefix, dumpJson, env).Ok? {
      NameMediaResult(media, username, snapUser, prefix, dumpJson, env);
    }
  }

  /** Once every other field of a record reads, its media type alone
      decides whether naming succeeds: exactly when the type is hashable and
      a key of `MEDIA_TYPE`. Otherwise naming raises KeyError for a hashable
      type and TypeError for a list or dict. */
  lemma MediaTypeDecides(media: Json, username: string, snapUser: Json, prefix: string, dumpJson: bool, env: Env)
    requires ReadStory(media).Some?
    ensures var mt := ReadStory(media).value.mediaType;
            var r := NameMedia(media, username, snapUser, prefix, dumpJson, env);
            && (r.Ok? <==> Hashable(mt) && mt in env.mediaTypes)
            && (r.Err? ==> r.error == (if Hashable(mt) then KeyError else TypeError))
  {
    NameMediaSucceeds(media, username, snapUser, prefix, dumpJson, env);
    var mt := ReadStory(media).value.mediaType;
    if !(Hashable(mt) && mt in env.mediaTypes) {
      UnknownMediaType(media, username, snapUser, prefix, dumpJson, env);
    }
  }

  /** `MEDIA_TYPE[media_type]` has no fallback: a record whose other fields
      all read, but whose media type is not in the table, makes naming raise
      KeyError (TypeError for a list or dict media type), and nothing is
      returned for it. */
  lemma UnknownMediaType(media: Json, username: string, snapUser: Json, prefix: string, dumpJson: bool, env: Env)
    requires ReadStory(media).Some?
    requires !(Hashable(ReadStory(media).value.mediaType) && ReadStory(media).value.mediaType in env.mediaTypes)
    ensures NameMedia(media, username, snapUser, prefix, dumpJson, env)
            == Err(if Hashable(ReadStory(media).value.mediaType) then KeyError else TypeError)
  {
    GetChainIsWalk(media, "snapId", "value");
    GetChainIsWalk(media, "snapUrls", "mediaUrl");
    GetIsWalk(media, "snapMediaType");
    GetChainIsWalk(media, "timestampInSec", "value");
  }

  /** A user name that is one relative path component. */
  predicate PlainComponent(name: string) {
    |name| > 0 && !StartsWithSlash(name) && !EndsWithSlash(name)
  }

  lemma DayTextShape(m: Moment)
    ensures |DayText(m)| > 0 && !StartsWithSlash(DayText(m)) && !EndsWithSlash(DayText(m))
  {
    var y := Dec(m.year);
    assert DayText(m)[0] == y[0];
  }

  /** The file name starts with the name of the date directory it sits in. */
  lemma FileNameStartsWithDay(m: Moment, id: string, user: string, ext: string)
    ensures |FileName(m, id, user, ext)| > |DayText(m)|
    ensures FileName(m, id, user, ext)[..|DayText(m)| + 1] == DayText(m) + "_"
  {
    var name := FileName(m, id, user, ext);
    var p := DayText(m) + "_";
    forall k | 0 <= k < |p|
      ensures name[k] == p[k]
    {
    }
  }

  lemma FileNameShape(m: Moment, id: string, user: string, ext: string)
    ensures !StartsWithSlash(FileName(m, id, user, ext))
  {
    var y := Dec(m.year);
    assert FileName(m, id, user, ext)[0] == y[0];
  }

  /** For a user name that is one path component, the output path is
      `prefix/username/<date>/<file name>`. */
  lemma OutputPathLayout(media: Json, username: string, snapUser: Json, prefix: string, dumpJson: bool, env: Env)
    requires PlainComponent(username)
    requires ReadStory(media).Some?
    requires Extension(env.mediaTypes, ReadStory(media).value.mediaType).Ok?
    ensures var s := ReadStory(media).value;
            var m := env.localTime(s.timestamp);
            var name := FileName(m, Str(s.snapId, env.repr), username, env.mediaTypes[s.mediaType]);
            && NameMedia(media, username, snapUser, prefix, dumpJson, env).Ok?
            && NameMedia(media, username, snapUser, prefix, dumpJson, env).value.output
               == AsDir(prefix) + username + "/" + DayText(m) + "/" + name
  {
    NameMediaResult(media, username, snapUser, prefix, dumpJson, env);
    var s := ReadStory(media).value;
    var m := env.localTime(s.timestamp);
    OutputJoin(prefix, username, m, Str(s.snapId, env.repr), env.mediaTypes[s.mediaType]);
  }

  lemma OutputJoin(prefix: string, username: string, m: Moment, id: string, ext: string)
    requires PlainComponent(username)
    ensures Join(Join(Join(prefix, username), DayText(m)), FileName(m, id, username, ext))
            == AsDir(prefix) + username + "/" + DayText(m) + "/" + FileName(m, id, username, ext)
  {
    DayTextShape(m);
    FileNameShape(m, id, username, ext);
    JoinFour(prefix, username, DayText(m), FileName(m, id, username, ext));
  }

  lemma {:induction false} CancelSides(p: string, x: string, y: string, q: string)
    ensures p + x + q == p + y + q <==> x == y
  {
    if p + x + q == p + y + q {
      assert |x| == |y|;
      assert x == (p + x + q)[|p|..|p| + |x|];
      assert y == (p + y + q)[|p|..|p| + |y|];
    }
  }

  /** For one user, two readable records with the same timestamp and the same
      extension go to the same path exactly when their snap ids format to the
      same text: different string ids never collide, even within one second. */
  lemma SameSecondPaths(a: Json, b: Json, username: string, snapUser: Json, prefix: string, dumpJson: bool, env: Env)
    requires ReadStory(a).Some? && ReadStory(b).Some?
    requires Extension(env.mediaTypes, ReadStory(a).value.mediaType).Ok?
    requires Extension(env.mediaTypes, ReadStory(b).value.mediaType).Ok?
    requires ReadStory(a).value.timestamp == ReadStory(b).value.timestamp
    requires env.mediaTypes[ReadStory(a).value.mediaType] == env.mediaTypes[ReadStory(b).value.mediaType]
    ensures NameMedia(a, username, snapUser, prefix, dumpJson, env).Ok?
    ensures NameMedia(b, username, snapUser, prefix, dumpJson, env).Ok?
    ensures NameMedia(a, username, snapUser, prefix, dumpJson, env).value.output
              == NameMedia(b, username, snapUser, prefix, dumpJson, env).value.output
            <==> Str(ReadStory(a).value.snapId, env.repr) == Str(ReadStory(b).value.snapId, env.repr)
  {
    var sa := ReadStory(a).value;
    var sb := ReadStory(b).value;
    var m := env.localTime(sa.timestamp);
    var ext := env.mediaTypes[sa.mediaType];
    var dir := Join(Join(prefix, username), DayText(m));
    var ia := Str(sa.snapId, env.repr);
    var ib := Str(sb.snapId, env.repr);
    assert NameMedia(a, username, snapUser, prefix, dumpJson, env).Ok?
           && NameMedia(a, username, snapUser, prefix, dumpJson, env).value.output == Join(dir, FileName(m, ia, username, ext)) by {
      NameMediaResult(a, username, snapUser, prefix, dumpJson, env);
    }
    assert NameMedia(b, username, snapUser, prefix, dumpJson, env).Ok?
           && NameMedia(b, username, snapUser, prefix, dumpJson, env).value.output == Join(dir, FileName(m, ib, username, ext)) by {
      NameMediaResult(b, username, snapUser, prefix, dumpJson, env);
    }
    SameDirNames(dir, m, ia, ib, username, ext);
  }

  lemma SameDirNames(dir: string, m: Moment, ia: string, ib: string, username: string, ext: string)
    ensures Join(dir, FileName(m, ia, username, ext)) == Join(dir, FileName(m, ib, username, ext)) <==> ia == ib
  {
    FileNameShape(m, ia, username, ext);
    FileNameShape(m, ib, username, ext);
    var p := DayText(m) + "_" + ClockText(m) + " ";
    var q := " " + username + "." + ext;
    FileNameParts(m, ia, username, ext);
    FileNameParts(m, ib, username, ext);
    assert AsDir(dir) + (p + ia + q) == AsDir(dir) + p + ia + q;
    assert AsDir(dir) + (p + ib + q) == AsDir(dir) + p + ib + q;
    CancelSides(AsDir(dir) + p, ia, ib, q);
  }

  lemma FileNameParts(m: Moment, id: string, username: string, ext: string)
    ensures FileName(m, id, username, ext)
            == (DayText(m) + "_" + ClockText(m) + " ") + id + (" " + username + "." + ext)
  {
    var p := DayText(m) + "_" + ClockText(m) + " ";
    assert p + id + " " + username + "." + ext == p + id + (" " + username + "." + ext);
  }
}
