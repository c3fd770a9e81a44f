/** Locating the page's embedded data block. The downloader takes the first
    capture `re.findall` returns for the pattern

      <script \s* id="__NEXT_DATA__" \s* type="application/json"> ([^<]+) </script>

    which is the payload of the leftmost match. This module scans for that
    match and proves the scan agrees with a declarative reading of the
    pattern. */
module NextData {
  import opened Wrappers
  import opened PyText

  const Open: string := "<script"
  const IdAttr: string := "id=\"__NEXT_DATA__\""
  const TypeAttr: string := "type=\"application/json\">"
  const Close: string := "</script>"

  /** Where the parts of one match sit in the body: the `id=` attribute, the
      `type=` attribute, and the end of the captured payload (where the
      closing tag begins). */
  datatype Span = Span(idAt: nat, typeAt: nat, payloadEnd: nat)

  function PayloadStart(m: Span): nat {
    m.typeAt + |TypeAttr|
  }

  predicate HasAt(s: string, i: nat, lit: string) {
    i + |lit| <= |s| && s[i..i + |lit|] == lit
  }

  ghost predicate SpacesIn(s: string, lo: nat, hi: nat) {
    lo <= hi <= |s| && forall k :: lo <= k < hi ==> IsSpace(s[k])
  }

  ghost predicate NoLtIn(s: string, lo: nat, hi: nat) {
    lo <= hi <= |s| && forall k :: lo <= k < hi ==> s[k] != '<'
  }

  /** The regular expression matches at `i`, with its parts placed as `m`
      says: each `\s*` covers whitespace only and `[^<]+` covers at least
      one character and no `<`. */
  ghost predicate Pattern(s: string, i: nat, m: Span) {
    && HasAt(s, i, Open)
    && SpacesIn(s, i + |Open|, m.idAt)
    && HasAt(s, m.idAt, IdAttr)
    && SpacesIn(s, m.idAt + |IdAttr|, m.typeAt)
    && HasAt(s, m.typeAt, TypeAttr)
    && PayloadStart(m) < m.payloadEnd
    && NoLtIn(s, PayloadStart(m), m.payloadEnd)
    && HasAt(s, m.payloadEnd, Close)
  }

  /** The end of the run of whitespace that starts at `i`. */
  function SkipSpaces(s: string, i: nat): (j: nat)
    requires i <= |s|
    ensures i <= j <= |s|
    ensures forall k :: i <= k < j ==> IsSpace(s[k])
    ensures j == |s| || !IsSpace(s[j])
    decreases |s| - i
  {
    if i < |s| && IsSpace(s[i]) then SkipSpaces(s, i + 1) else i
  }

  /** The end of the run of characters other than `<` that starts at `i`. */
  function SkipPayload(s: string, i: nat): (j: nat)
    requires i <= |s|
    ensures i <= j <= |s|
    ensures forall k :: i <= k < j ==> s[k] != '<'
    ensures j == |s| || s[j] == '<'
    decreases |s| - i
  {
    if i < |s| && s[i] != '<' then SkipPayload(s, i + 1) else i
  }

  /** Try the pattern at position `i`. Each `\s*` is followed by a literal
      that does not start with whitespace, and `[^<]+` by one that starts
      with `<`, so taking every run as long as possible is the only way the
      pattern can match here: no backtracking is needed. The scan goes in
      stages, one per part of the pattern. */
  function MatchAt(s: string, i: nat): Option<Span>
    requires i <= |s|
  {
    if HasAt(s, i, Open) then AfterOpen(s, SkipSpaces(s, i + |Open|)) else None
  }

  /** The rest of the scan once `<script` and the whitespace after it are
      read: `id="__NEXT_DATA__"` must start at `a`. */
  function AfterOpen(s: string, a: nat): Option<Span>
    requires a <= |s|
  {
    if HasAt(s, a, IdAttr) then AfterId(s, a, SkipSpaces(s, a + |IdAttr|)) else None
  }

  /** The rest of the scan once the `id=` attribute and the whitespace after
      it are read: `type="application/json">` must start at `b`. */
  function AfterId(s: string, a: nat, b: nat): Option<Span>
    requires b <= |s|
  {
    if HasAt(s, b, TypeAttr) then AfterType(s, a, b, SkipPayload(s, b + |TypeAttr|)) else None
  }

  /** The end of the scan: the payload ends at `d`, and must be non-empty
      and followed by `</script>`. */
  function AfterType(s: string, a: nat, b: nat, d: nat): Option<Span> {
    if d != b + |TypeAttr| && HasAt(s, d, Close) then Some(Span(a, b, d)) else None
  }

  datatype Found = Found(at: nat, span: Span)

  /** The leftmost match at or after position `i`. */
  function FindFrom(s: string, i: nat): (r: Option<Found>)
    requires i <= |s|
    ensures r.Some? ==> i <= r.value.at <= |s| && MatchAt(s, r.value.at) == Some(r.value.span)
    decreases |s| - i
  {
    match MatchAt(s, i)
    case Some(m) => Some(Found(i, m))
    case None => if i == |s| then None else FindFrom(s, i + 1)
  }

  /** `re.findall(pattern, body)[0]`: the payload of the leftmost match, or
      `None` where the list is empty and indexing it raises IndexError. */
  function FirstPayload(body: string): (r: Option<string>)
    ensures r.Some? ==> |r.value| > 0 && forall k :: 0 <= k < |r.value| ==> r.value[k] != '<'
  {
    match FindFrom(body, 0)
    case None => None
    case Some(f) =>
      MatchAtSound(body, f.at);
      Some(body[PayloadStart(f.span)..f.span.payloadEnd])
  }

  /** Every span the scanner reports is a match of the pattern. */
  lemma MatchAtSound(s: string, i: nat)
    requires i <= |s|
    ensures MatchAt(s, i).Some? ==> Pattern(s, i, MatchAt(s, i).value)
  {
  }

  lemma {:induction false} SkipSpacesStops(s: string, i: nat, j: nat)
    requires i <= j <= |s|
    requires forall k :: i <= k < j ==> IsSpace(s[k])
    requires j == |s| || !IsSpace(s[j])
    ensures SkipSpaces(s, i) == j
    decreases j - i
  {
    if i < j {
      SkipSpacesStops(s, i + 1, j);
    }
  }

  lemma {:induction false} SkipPayloadStops(s: string, i: nat, j: nat)
    requires i <= j <= |s|
    requires forall k :: i <= k < j ==> s[k] != '<'
    requires j == |s| || s[j] == '<'
    ensures SkipPayload(s, i) == j
    decreases j - i
  {
    if i < j {
      SkipPayloadStops(s, i + 1, j);
    }
  }

  /** A whitespace run that ends where a literal not starting with
      whitespace begins is exactly the run `SkipSpaces` skips. */
  lemma SpacesThenLiteral(s: string, lo: nat, hi: nat, lit: string)
    requires SpacesIn(s, lo, hi) && HasAt(s, hi, lit) && |lit| > 0 && !IsSpace(lit[0])
    ensures SkipSpaces(s, lo) == hi
  {
    assert s[hi] == s[hi..hi + |lit|][0];
    SkipSpacesStops(s, lo, hi);
  }

  /** Every match of the pattern is the one the scanner reports: the
      pattern places its parts in only one way. */
  lemma MatchAtComplete(s: string, i: nat, m: Span)
    requires i <= |s|
    requires Pattern(s, i, m)
    ensures MatchAt(s, i) == Some(m)
  {
    var a := SkipSpaces(s, i + |Open|);
    assert a == m.idAt by {
      assert !IsSpace(IdAttr[0]);
      SpacesThenLiteral(s, i + |Open|, m.idAt, IdAttr);
    }
    var b := SkipSpaces(s, a + |IdAttr|);
    assert b == m.typeAt by {
      assert !IsSpace(TypeAttr[0]);
      SpacesThenLiteral(s, m.idAt + |IdAttr|, m.typeAt, TypeAttr);
    }
    var d := SkipPayload(s, b + |TypeAttr|);
    assert d == m.payloadEnd by {
      assert s[m.payloadEnd] == s[m.payloadEnd..m.payloadEnd + |Close|][0];
      SkipPayloadStops(s, PayloadStart(m), m.payloadEnd);
    }
    StagesMatch(s, i, a, b, d);
  }

  /** When every literal is found where the runs before it end, the staged
      scan reports the span those runs mark. */
  lemma StagesMatch(s: string, i: nat, a: nat, b: nat, d: nat)
    requires i <= |s| && HasAt(s, i, Open)
    requires a == SkipSpaces(s, i + |Open|) && HasAt(s, a, IdAttr)
    requires b == SkipSpaces(s, a + |IdAttr|) && HasAt(s, b, TypeAttr)
    requires d == SkipPayload(s, b + |TypeAttr|) && d != b + |TypeAttr| && HasAt(s, d, Close)
    ensures MatchAt(s, i) == Some(Span(a, b, d))
  {
    assert AfterType(s, a, b, d) == Some(Span(a, b, d));
    StageId(s, a, b, d);
    StageOpen(s, a, b, d);
  }

  lemma StageId(s: string, a: nat, b: nat, d: nat)
    requires b <= |s| && HasAt(s, b, TypeAttr) && d == SkipPayload(s, b + |TypeAttr|)
    requires AfterType(s, a, b, d).Some?
    ensures AfterId(s, a, b) == AfterType(s, a, b, d)
  {
  }

  lemma StageOpen(s: string, a: nat, b: nat, d: nat)
    requires a <= |s| && HasAt(s, a, IdAttr) && b == SkipSpaces(s, a + |IdAttr|)
    requires AfterId(s, a, b).Some?
    ensures AfterOpen(s, a) == AfterId(s, a, b)
  {
  }

  /** No position in `lo..hi` starts a match. */
  ghost predicate NoMatchIn(s: string, lo: nat, hi: nat) {
    forall j: nat, m: Span :: lo <= j < hi ==> !Pattern(s, j, m)
  }

  lemma NoneAtNoPattern(s: string, i: nat)
    requires i <= |s| && MatchAt(s, i).None?
    ensures NoMatchIn(s, i, i + 1)
  {
    forall j: nat, m: Span | i <= j < i + 1
      ensures !Pattern(s, j, m)
    {
      if Pattern(s, j, m) {
        MatchAtComplete(s, j, m);
      }
    }
  }

  /** The search reports the leftmost position at which the pattern
      matches, and finds nothing only when it matches nowhere. */
  lemma {:induction false} FindFromLeftmost(s: string, i: nat)
    requires i <= |s|
    ensures FindFrom(s, i).Some? ==> NoMatchIn(s, i, FindFrom(s, i).value.at)
    ensures FindFrom(s, i).None? ==> NoMatchIn(s, i, |s| + 1)
    decreases |s| - i
  {
    if MatchAt(s, i).None? {
      NoneAtNoPattern(s, i);
      if i < |s| {
        FindFromLeftmost(s, i + 1);
      }
    }
  }

  /** What `re.findall(pattern, body)[0]` yields: nothing exactly when the
      pattern matches nowhere in the body; otherwise the payload of a match
      at the leftmost position where the pattern matches at all. */
  lemma FirstPayloadLeftmost(body: string)
    ensures FirstPayload(body).None? <==> NoMatchIn(body, 0, |body| + 1)
    ensures FirstPayload(body).Some? ==>
              exists i: nat, m: Span :: Pattern(body, i, m) && NoMatchIn(body, 0, i)
                && FirstPayload(body).value == body[PayloadStart(m)..m.payloadEnd]
  {
    FindFromLeftmost(body, 0);
    if FindFrom(body, 0).Some? {
      var f := FindFrom(body, 0).value;
      MatchAtSound(body, f.at);
      assert Pattern(body, f.at, f.span);
    }
  }

  /** A body holding an embedded data block, with nothing that looks like
      one before it, yields that block's text. */
  lemma PayloadOfPage(pre: string, p: string, post: string)
    requires |p| > 0 && forall k :: 0 <= k < |p| ==> p[k] != '<'
    requires NoMatchIn(pre + Open + IdAttr + TypeAttr + p + Close + post, 0, |pre|)
    ensures FirstPayload(pre + Open + IdAttr + TypeAttr + p + Close + post) == Some(p)
  {
    var body := pre + Open + IdAttr + TypeAttr + p + Close + post;
    var i := |pre|;
    var m := Span(i + |Open|, i + |Open| + |IdAttr|, i + |Open| + |IdAttr| + |TypeAttr| + |p|);
    assert body[i..i + |Open|] == Open;
    assert body[m.idAt..m.idAt + |IdAttr|] == IdAttr;
    assert body[m.typeAt..m.typeAt + |TypeAttr|] == TypeAttr;
    assert body[PayloadStart(m)..m.payloadEnd] == p;
    assert body[m.payloadEnd..m.payloadEnd + |Close|] == Close;
    assert Pattern(body, i, m);
    MatchAtComplete(body, i, m);
    FindFromLeftmost(body, 0);
    var f := FindFrom(body, 0).value;
    MatchAtSound(body, f.at);
    assert f.at == i;
  }
}
