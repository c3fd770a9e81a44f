/** The values `json.loads` produces, and the Python operations the
    downloader applies to them: subscripting `x[k]`, membership `k in x`,
    truthiness, `len`, `int()` and `str()`. Each operation returns the
    exception Python would raise instead of a value where it raises one. */
module JsonValue {
  import opened Wrappers
  import opened PyText

  /** A decoded JSON value. Objects have string keys only, as every object
      `json.loads` builds does. Floats are modelled as exact reals. */
  datatype Json =
    | JNull
    | JBool(b: bool)
    | JInt(i: int)
    | JFloat(f: real)
    | JStr(s: string)
    | JArr(items: seq<Json>)
    | JObj(fields: map<string, Json>)

  /** The built-in exceptions the modelled code can raise. */
  datatype PyError = KeyError | IndexError | TypeError | ValueError

  /** Values Python can hash, and so use as a dictionary key. */
  predicate Hashable(j: Json) {
    !j.JArr? && !j.JObj?
  }

  /** The integer a value stands for when it indexes a list or a str:
      ints, and bools as 0 and 1. Anything else raises TypeError. */
  function AsIndex(key: Json): Option<int> {
    match key
    case JInt(i) => Some(i)
    case JBool(b) => Some(if b then 1 else 0)
    case _ => None
  }

  /** Python's sequence indexing: `-n <= i < n`, negative positions counted
      from the end, anything else raising IndexError. */
  function Position(n: nat, i: int): (r: Result<nat, PyError>)
    ensures r.Ok? <==> -(n as int) <= i < n
    ensures r.Ok? ==> r.value < n && (r.value - i) % n == 0
    ensures r.Err? ==> r.error == IndexError
  {
    if 0 <= i < n then Ok(i)
    else if -(n as int) <= i < 0 then Ok(i + n)
    else Err(IndexError)
  }

  /** `container[key]`. */
  function Subscript(container: Json, key: Json): (r: Result<Json, PyError>)
    ensures key.JStr? ==> (r.Ok? <==> container.JObj? && key.s in container.fields)
    ensures key.JStr? && r.Ok? ==> r.value == container.fields[key.s]
    ensures r.Err? && r.error == KeyError ==> container.JObj?
    ensures r.Err? && r.error == IndexError ==> container.JArr? || container.JStr?
    ensures r.Err? && !container.JObj? && !container.JArr? && !container.JStr? ==> r.error == TypeError
    ensures container.JObj? && !Hashable(key) ==> r == Err(TypeError)
  {
    match container
    case JObj(m) =>
      if !Hashable(key) then Err(TypeError)
      else if key.JStr? && key.s in m then Ok(m[key.s])
      else Err(KeyError)
    case JArr(xs) =>
      (match AsIndex(key)
       case None => Err(TypeError)
       case Some(i) =>
         var k :- Position(|xs|, i);
         Ok(xs[k]))
    case JStr(s) =>
      (match AsIndex(key)
       case None => Err(TypeError)
       case Some(i) =>
         var k :- Position(|s|, i);
         Ok(JStr([s[k]])))
    case _ => Err(TypeError)
  }

  /** `container[k]` for a string key, the form the downloader mostly uses. */
  function Get(container: Json, k: string): Result<Json, PyError> {
    Subscript(container, JStr(k))
  }

  predicate IsPrefix(a: string, s: string) {
    |a| <= |s| && s[..|a|] == a
  }

  /** `a in s` for two strs: `a` occurs somewhere in `s`. */
  predicate IsSubstring(a: string, s: string)
    decreases |s|
  {
    IsPrefix(a, s) || (|s| > 0 && IsSubstring(a, s[1..]))
  }

  /** `a` occurs in `s` starting at position `i`. */
  predicate OccursAt(a: string, s: string, i: nat) {
    i + |a| <= |s| && s[i..i + |a|] == a
  }

  /** The scan `IsSubstring` finds an occurrence exactly when one exists. */
  lemma {:induction false} SubstringOccurs(a: string, s: string)
    ensures IsSubstring(a, s) <==> exists i: nat :: i <= |s| && OccursAt(a, s, i)
    decreases |s|
  {
    if |s| == 0 {
      if |a| == 0 {
        assert OccursAt(a, s, 0);
      }
    } else {
      SubstringOccurs(a, s[1..]);
      if IsPrefix(a, s) {
        assert OccursAt(a, s, 0);
      } else if IsSubstring(a, s[1..]) {
        var j: nat :| j <= |s[1..]| && OccursAt(a, s[1..], j);
        assert s[1..][j..j + |a|] == s[j + 1..j + 1 + |a|];
        assert OccursAt(a, s, j + 1);
      }
      if exists i: nat :: i <= |s| && OccursAt(a, s, i) {
        var i: nat :| i <= |s| && OccursAt(a, s, i);
        if i == 0 {
          assert IsPrefix(a, s);
        } else {
          assert s[1..][i - 1..i - 1 + |a|] == s[i..i + |a|];
          assert OccursAt(a, s[1..], i - 1);
        }
      }
    }
  }

  /** `needle in container` for a str `needle`: a key of a dict, an element
      of a list, a substring of a str; TypeError for scalars. */
  function Contains(container: Json, needle: string): (r: Result<bool, PyError>)
    ensures r.Err? <==> !(container.JObj? || container.JArr? || container.JStr?)
    ensures r.Err? ==> r.error == TypeError
    ensures container.JObj? ==> r == Ok(needle in container.fields)
  {
    match container
    case JObj(m) => Ok(needle in m)
    case JArr(xs) => Ok(JStr(needle) in xs)
    case JStr(s) => Ok(IsSubstring(needle, s))
    case _ => Err(TypeError)
  }

  /** What `in` tests: on a dict, that subscripting with the key succeeds;
      on a list, that some element equals the str; on a str, that the
      needle occurs at some position. */
  lemma ContainsMeaning(c: Json, needle: string)
    ensures c.JObj? ==> Contains(c, needle) == Ok(Get(c, needle).Ok?)
    ensures c.JArr? ==> Contains(c, needle) == Ok(exists i :: 0 <= i < |c.items| && c.items[i] == JStr(needle))
    ensures c.JStr? ==> Contains(c, needle) == Ok(exists i: nat :: i <= |c.s| && OccursAt(needle, c.s, i))
  {
    if c.JStr? {
      SubstringOccurs(needle, c.s);
    }
  }

  /** Python truthiness (`if not x`). */
  predicate Truthy(j: Json) {
    match j
    case JNull => false
    case JBool(b) => b
    case JInt(i) => i != 0
    case JFloat(f) => f != 0.0
    case JStr(s) => |s| > 0
    case JArr(xs) => |xs| > 0
    case JObj(m) => |m| > 0
  }

  /** `len(j)`. */
  function Len(j: Json): (r: Result<nat, PyError>)
    ensures r.Ok? <==> j.JStr? || j.JArr? || j.JObj?
    ensures r.Err? ==> r.error == TypeError
    ensures r.Ok? ==> (r.value > 0 <==> Truthy(j))
  {
    match j
    case JStr(s) => Ok(|s|)
    case JArr(xs) => Ok(|xs|)
    case JObj(m) => Ok(|m|)
    case _ => Err(TypeError)
  }

  /** `int(f)` for a float: truncation towards zero. */
  function Truncate(f: real): (i: int)
    ensures f >= 0.0 ==> 0.0 <= i as real <= f < i as real + 1.0
    ensures f < 0.0 ==> i as real - 1.0 < f <= i as real <= 0.0
  {
    if f >= 0.0 then f.Floor else -((-f).Floor)
  }

  /** `int(j)`. */
  function ToInt(j: Json): (r: Result<int, PyError>)
    ensures j.JInt? ==> r == Ok(j.i)
    ensures j.JStr? ==> (r.Ok? <==> ParseInt(j.s).Some?)
    ensures j.JStr? && r.Ok? ==> r.value == ParseInt(j.s).value
    ensures j.JNull? || j.JArr? || j.JObj? ==> r == Err(TypeError)
    ensures j.JFloat? ==> r.Ok? && -1.0 < j.f - r.value as real < 1.0 && (r.value >= 0 <==> j.f > -1.0)
                          && (j.f >= 0.0 ==> r.value as real <= j.f) && (j.f < 0.0 ==> j.f <= r.value as real)
  {
    match j
    case JInt(i) => Ok(i)
    case JBool(b) => Ok(if b then 1 else 0)
    case JFloat(f) => Ok(Truncate(f))
    case JStr(s) =>
      (match ParseInt(s)
       case Some(v) => Ok(v)
       case None => Err(ValueError))
    case _ => Err(TypeError)
  }

  /** `str(j)`, which is what a `{}` field of `str.format` writes. The text
      Python writes for floats, lists and dicts is given by `repr`. */
  function Str(j: Json, repr: Json -> string): string {
    match j
    case JStr(s) => s
    case JInt(i) => IntText(i)
    case JBool(b) => if b then "True" else "False"
    case JNull => "None"
    case _ => repr(j)
  }

  /** `int(str(JInt(i))) == i`: an int formatted and read back is unchanged. */
  lemma IntRoundTrip(i: int, repr: Json -> string)
    ensures ToInt(JStr(Str(JInt(i), repr))) == Ok(i)
  {
    ParseIntText(i);
  }

  /** `int()` of the text of any integer, with whitespace around it, is
      that integer. */
  lemma ToIntOfText(w: string, i: int, w': string)
    requires AllIntSpace(w) && AllIntSpace(w')
    ensures ToInt(JStr(w + IntText(i) + w')) == Ok(i)
  {
    ParseIntIgnoresSpace(w, IntText(i), w');
    ParseIntText(i);
  }

  /** `int()` of an integral float is that integer, and of a bool 0 or 1. */
  lemma ToIntOfNumber(i: int)
    ensures ToInt(JFloat(i as real)) == Ok(i)
    ensures ToInt(JBool(true)) == Ok(1) && ToInt(JBool(false)) == Ok(0)
  {
  }

  /** Two different strs format differently, but a str and an int can
      format to the same text. */
  lemma StrOfStrings(a: string, b: string, repr: Json -> string)
    ensures Str(JStr(a), repr) == Str(JStr(b), repr) <==> a == b
    ensures Str(JStr("7"), repr) == Str(JInt(7), repr)
  {
    assert IntText(7) == "7";
  }

  /** A dictionary walk `j[k0][k1]...` that succeeds only through dicts. */
  function Walk(j: Json, keys: seq<string>): (r: Option<Json>)
    decreases |keys|
  {
    if |keys| == 0 then Some(j)
    else if j.JObj? && keys[0] in j.fields then Walk(j.fields[keys[0]], keys[1..])
    else None
  }

  /** A chain of string subscripts succeeds exactly when the dictionary walk
      does, and yields the same value. */
  lemma {:induction false} GetChainIsWalk(j: Json, k0: string, k1: string)
    ensures (var r := Get(j, k0); if r.Err? then Err(r.error) else Get(r.value, k1)).Ok?
            <==> Walk(j, [k0, k1]).Some?
    ensures Walk(j, [k0, k1]).Some? ==> Get(Get(j, k0).value, k1) == Ok(Walk(j, [k0, k1]).value)
  {
    if j.JObj? && k0 in j.fields {
      var v := j.fields[k0];
      assert Walk(j, [k0, k1]) == Walk(v, [k1]);
      assert [k1][1..] == [];
    }
  }
}
