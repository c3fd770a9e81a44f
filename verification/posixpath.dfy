/** `os.path.join` as POSIX Python defines it. */
module PosixPath {

  predicate StartsWithSlash(p: string) {
    |p| > 0 && p[0] == '/'
  }

  predicate EndsWithSlash(p: string) {
    |p| > 0 && p[|p| - 1] == '/'
  }

  /** The directory `a` names, written so that a file name can follow it. */
  function AsDir(a: string): (r: string)
    ensures r == a || r == a + "/"
    ensures |r| == 0 || EndsWithSlash(r)
  {
    if |a| == 0 || EndsWithSlash(a) then a else a + "/"
  }

  /** `os.path.join(a, b)`: an absolute `b` replaces `a`; otherwise `b` is
      appended to `a`, with a `/` between them unless `a` is empty or already
      ends with one. `os.path.join(a, b, c)` is `Join(Join(a, b), c)`. */
  function Join(a: string, b: string): (r: string)
    ensures StartsWithSlash(b) ==> r == b
    ensures !StartsWithSlash(b) ==> |r| >= |a| + |b| && r[..|a|] == a && r[|r| - |b|..] == b
    ensures !StartsWithSlash(b) ==> |r| - |a| - |b| == (if |a| == 0 || EndsWithSlash(a) then 0 else 1)
    ensures !StartsWithSlash(b) && |r| > |a| + |b| ==> r[|a|] == '/'
  {
    if StartsWithSlash(b) then b
    else if |a| == 0 || EndsWithSlash(a) then a + b
    else a + "/" + b
  }

  /** A relative part follows the directory form of `a`: one `/` between
      them exactly when `a` is non-empty and does not already end in one. */
  lemma JoinRelative(a: string, b: string)
    requires !StartsWithSlash(b)
    ensures Join(a, b) == AsDir(a) + b
  {
  }

  /** A suffix added to the last part is a suffix of the joined path:
      the sidecar `join(dir, name + ".json")` is `join(dir, name) + ".json"`. */
  lemma JoinSuffix(a: string, b: string, suffix: string)
    requires !StartsWithSlash(suffix)
    ensures Join(a, b + suffix) == Join(a, b) + suffix
  {
    if StartsWithSlash(b) {
      assert (b + suffix)[0] == b[0];
    } else {
      RelativeAppend(b, suffix);
      JoinRelative(a, b);
      JoinRelative(a, b + suffix);
      assert AsDir(a) + (b + suffix) == (AsDir(a) + b) + suffix;
    }
  }

  lemma RelativeAppend(b: string, suffix: string)
    requires !StartsWithSlash(b) && !StartsWithSlash(suffix)
    ensures !StartsWithSlash(b + suffix)
  {
    if |b| == 0 {
      assert b + suffix == suffix;
    } else {
      assert (b + suffix)[0] == b[0];
    }
  }

  /** `os.path.join(prefix, user, day, name)` for a user name that is a single
      relative path component, and a date and a name that do not start with
      `/`: `prefix/user/day/name`. */
  lemma JoinFour(prefix: string, user: string, day: string, name: string)
    requires |user| > 0 && !StartsWithSlash(user) && !EndsWithSlash(user)
    requires |day| > 0 && !StartsWithSlash(day) && !EndsWithSlash(day)
    requires !StartsWithSlash(name)
    ensures Join(Join(Join(prefix, user), day), name) == AsDir(prefix) + user + "/" + day + "/" + name
  {
    var d1 := Join(prefix, user);
    JoinRelative(prefix, user);
    assert d1 == AsDir(prefix) + user;
    assert |d1| > 0 && !EndsWithSlash(d1);
    var d2 := Join(d1, day);
    assert d2 == d1 + "/" + day;
    assert |d2| > 0 && !EndsWithSlash(d2);
  }
}
