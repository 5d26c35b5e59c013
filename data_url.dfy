/** Base64 data URLs as the components read and write them.
    The components parse with the regular expression
      ^data:([a-zA-Z0-9]+\/[a-zA-Z0-9-.+]+);base64,(.+)$
    (features/VibeStudio.tsx:26, features/VeoMemories.tsx:38) and print with the
    template `data:${mime};base64,${data}` (services/geminiService.ts:34,58,
    features/VibeStudio.tsx:93). */
module DataUrl {
  import opened Wrappers

  /** The `{mime, data}` pair a successful match yields (groups 1 and 2). */
  datatype Image = Image(mime: string, data: string)

  const Scheme: string := "data:"
  const Marker: string := ";base64,"

  /** `[a-zA-Z0-9]`: the characters of the top-level media type. */
  predicate IsTypeChar(c: char) {
    ('a' <= c <= 'z') || ('A' <= c <= 'Z') || ('0' <= c <= '9')
  }

  /** `[a-zA-Z0-9-.+]`: the characters of the subtype (the `-` after the range
      `0-9` is a literal dash). */
  predicate IsSubtypeChar(c: char) {
    IsTypeChar(c) || c == '-' || c == '.' || c == '+'
  }

  /** The characters `.` does not match without the `s` flag. */
  predicate IsLineTerminator(c: char) {
    c == '\n' || c == '\r' || c == '\U{2028}' || c == '\U{2029}'
  }

  /** Group 1 of the pattern: `T/S` with `T` one or more type characters and
      `S` one or more subtype characters. */
  ghost predicate IsMimeType(m: string) {
    exists j :: 0 < j < |m| - 1 && m[j] == '/' &&
      (forall k :: 0 <= k < j ==> IsTypeChar(m[k])) &&
      (forall k :: j < k < |m| ==> IsSubtypeChar(m[k]))
  }

  /** Group 2 of the pattern: `(.+)$`, one or more characters up to the end of
      the input, none of them a line terminator. */
  ghost predicate IsPayload(d: string) {
    d != [] && forall k :: 0 <= k < |d| ==> !IsLineTerminator(d[k])
  }

  /** The regular expression matches `s` with groups `img.mime` and `img.data`. */
  ghost predicate Matches(s: string, img: Image) {
    s == Scheme + img.mime + Marker + img.data && IsMimeType(img.mime) && IsPayload(img.data)
  }

  /** `data:${mime};base64,${data}`. */
  function Serialize(img: Image): (r: string)
    ensures |r| == |Scheme| + |img.mime| + |Marker| + |img.data|
    ensures r[..|Scheme|] == Scheme && r[|r| - |img.data|..] == img.data
  {
    Scheme + img.mime + Marker + img.data
  }

  /** The position of the first `c` in `s`, or `|s|` when there is none. */
  function IndexOf(s: string, c: char): (i: nat)
    ensures i <= |s|
    ensures forall k :: 0 <= k < i ==> s[k] != c
    ensures i < |s| ==> s[i] == c
  {
    if s == [] || s[0] == c then 0 else 1 + IndexOf(s[1..], c)
  }

  /** The executable test for group 1: split at the first `/`. */
  function MimeOk(m: string): (r: bool)
    ensures r <==> IsMimeType(m)
  {
    var j := IndexOf(m, '/');
    var r := 0 < j < |m| - 1 &&
      (forall k :: 0 <= k < j ==> IsTypeChar(m[k])) &&
      (forall k :: j < k < |m| ==> IsSubtypeChar(m[k]));
    assert r ==> IsMimeType(m);
    assert IsMimeType(m) ==> r by {
      if IsMimeType(m) {
        var j' :| 0 < j' < |m| - 1 && m[j'] == '/' &&
          (forall k :: 0 <= k < j' ==> IsTypeChar(m[k])) &&
          (forall k :: j' < k < |m| ==> IsSubtypeChar(m[k]));
        assert !IsTypeChar('/');
        assert j == j';
      }
    }
    r
  }

  /** The executable test for group 2. */
  function PayloadOk(d: string): (r: bool)
    ensures r <==> IsPayload(d)
  {
    d != [] && forall k :: 0 <= k < |d| ==> !IsLineTerminator(d[k])
  }

  /** `s.match(pattern)`: the groups of the match, or `None` (`null`) when the
      pattern does not match. The mime classes exclude `;`, so the first `;`
      after `data:` is where `;base64,` must start. */
  function Parse(s: string): (r: Option<Image>)
    ensures r.Some? ==> Matches(s, r.value)
  {
    if |s| < |Scheme| || s[..|Scheme|] != Scheme then None
    else
      var rest := s[|Scheme|..];
      var i := IndexOf(rest, ';');
      var mime := rest[..i];
      var tail := rest[i..];
      if MimeOk(mime) && |tail| >= |Marker| && tail[..|Marker|] == Marker && PayloadOk(tail[|Marker|..]) then
        assert s == Scheme + mime + Marker + tail[|Marker|..];
        Some(Image(mime, tail[|Marker|..]))
      else None
  }

  /** No character of a media type is a `;`. */
  lemma MimeHasNoSemicolon(m: string)
    requires IsMimeType(m)
    ensures forall k :: 0 <= k < |m| ==> m[k] != ';'
  {
    var j :| 0 < j < |m| - 1 && m[j] == '/' &&
      (forall k :: 0 <= k < j ==> IsTypeChar(m[k])) &&
      (forall k :: j < k < |m| ==> IsSubtypeChar(m[k]));
    forall k | 0 <= k < |m| ensures m[k] != ';' {
      if k < j { assert IsTypeChar(m[k]); } else if k > j { assert IsSubtypeChar(m[k]); }
    }
  }

  /** Every string the regular expression matches is parsed into exactly its groups. */
  lemma ParseComplete(s: string, img: Image)
    requires Matches(s, img)
    ensures Parse(s) == Some(img)
  {
    assert s[..|Scheme|] == Scheme;
    var rest := s[|Scheme|..];
    assert rest == img.mime + (Marker + img.data);
    MimeHasNoSemicolon(img.mime);
    assert rest[|img.mime|] == ';';
    assert IndexOf(rest, ';') == |img.mime|;
    assert rest[..|img.mime|] == img.mime;
    assert rest[|img.mime|..] == Marker + img.data;
  }

  /** `Parse` is exactly the regular expression: it succeeds with `img` if and
      only if the pattern matches `s` with groups `img`. */
  lemma ParseIffMatches(s: string, img: Image)
    ensures Parse(s) == Some(img) <==> Matches(s, img)
  {
    if Matches(s, img) { ParseComplete(s, img); }
  }

  /** The split is unambiguous: one string matches with at most one pair of groups. */
  lemma MatchIsUnique(s: string, a: Image, b: Image)
    requires Matches(s, a) && Matches(s, b)
    ensures a == b
  {
    ParseComplete(s, a);
    ParseComplete(s, b);
  }

  /** Round trip: printing a well-formed pair with the template and parsing the
      result gives the pair back. */
  lemma ParseSerialize(img: Image)
    requires IsMimeType(img.mime) && IsPayload(img.data)
    ensures Parse(Serialize(img)) == Some(img)
  {
    ParseComplete(Serialize(img), img);
  }

  /** Round trip the other way: a parsed string is reproduced by the template. */
  lemma SerializeParse(s: string)
    requires Parse(s).Some?
    ensures Serialize(Parse(s).value) == s
  {
  }
}
