/** lib/imagekit.ts: the upload wrapper's payload preparation and result
    shape, and the optimized-URL builder. The SDK is a parameter: the upload
    request it is handed and the outcome it reports. */
module ImageKit {
  import opened Values
  import opened Text
  import SharpImageKit

  // ---- uploadToImageKit -----------------------------------------------

  predicate IsAsciiLetter(c: char) {
    ('a' <= c <= 'z') || ('A' <= c <= 'Z')
  }

  /** Length of the run of ASCII letters at the start of `s`. */
  function LetterRun(s: string): (k: nat)
    ensures k <= |s|
    ensures forall i :: 0 <= i < k ==> IsAsciiLetter(s[i])
    ensures k < |s| ==> !IsAsciiLetter(s[k])
  {
    if s == [] || !IsAsciiLetter(s[0]) then 0 else 1 + LetterRun(s[1..])
  }

  const BASE64_MARKER: string := ";base64,"

  /** A string the pattern `^image\/[a-zA-Z]+;base64,` matches in full:
      "image/", one or more ASCII letters, ";base64,". */
  predicate IsMediaPrefix(p: string) {
    |p| >= 15 && p[..6] == "image/" && p[|p| - 8..] == BASE64_MARKER
    && forall i :: 6 <= i < |p| - 8 ==> IsAsciiLetter(p[i])
  }

  /** `base64Data.replace(/^image\/[a-zA-Z]+;base64,/, "")`: the letter run
      after "image/" is maximal, so the pattern has at most one match. */
  function StripBase64Prefix(s: string): (r: string)
    ensures r == s || (|r| < |s| && s == s[..|s| - |r|] + r && IsMediaPrefix(s[..|s| - |r|]))
  {
    if StartsWith(s, "image/") then
      var rest := s[6..];
      var k := LetterRun(rest);
      if k >= 1 && StartsWith(rest[k..], BASE64_MARKER) then
        assert s[..6] == "image/";
        var p := s[..6 + k + 8];
        assert p[..6] == s[..6];
        assert p[|p| - 8..] == rest[k..][..8];
        s[6 + k + 8..]
      else s
    else s
  }

  /** Exactly the media prefix is removed from a payload that carries one. */
  lemma StripRemovesMediaPrefix(subtype: string, payload: string)
    requires |subtype| >= 1 && forall i :: 0 <= i < |subtype| ==> IsAsciiLetter(subtype[i])
    ensures StripBase64Prefix("image/" + subtype + BASE64_MARKER + payload) == payload
  {
    var s := "image/" + subtype + BASE64_MARKER + payload;
    var k := |subtype|;
    assert StartsWith(s, "image/") by {
      assert s[..6] == "image/";
    }
    var rest := s[6..];
    assert rest == subtype + (BASE64_MARKER + payload);
    LetterRunOver(subtype, BASE64_MARKER + payload);
    assert rest[k..] == BASE64_MARKER + payload;
    assert StartsWith(rest[k..], BASE64_MARKER) by {
      assert (BASE64_MARKER + payload)[..8] == BASE64_MARKER;
    }
    assert s[6 + k + 8..] == payload;
  }

  lemma {:induction false} LetterRunOver(letters: string, tail: string)
    requires forall i :: 0 <= i < |letters| ==> IsAsciiLetter(letters[i])
    requires tail != [] && !IsAsciiLetter(tail[0])
    ensures LetterRun(letters + tail) == |letters|
    decreases |letters|
  {
    if letters == [] {
      assert letters + tail == tail;
    } else {
      assert (letters + tail)[1..] == letters[1..] + tail;
      LetterRunOver(letters[1..], tail);
    }
  }

  /** A `data:` URL, the only kind the generate route uploads, does not match
      the pattern and is sent unchanged, prefix and all. */
  lemma DataUrlIsSentWhole(s: string)
    requires StartsWith(s, "data:")
    ensures StripBase64Prefix(s) == s
  {
    assert s[..5] == "data:";
    assert !StartsWith(s, "image/") by {
      if |s| >= 6 {
        assert s[..6][0] == s[..5][0] == 'd';
      }
    }
  }

  datatype UploadRequest = UploadRequest(file: string, fileName: string, folder: string, useUniqueFileName: bool)

  /** What the SDK reports: the stored file, or the error it threw. */
  datatype SdkOutcome = Uploaded(url: string, fileId: string) | Rejected(message: Option<string>)

  datatype UploadResult = UploadResult(success: bool, url: Option<string>, fileId: Option<string>, error: Option<string>)

  const UPLOAD_FOLDER: string := "/thumbnails/"

  function UploadRequestFor(base64Data: string, filename: string): UploadRequest {
    UploadRequest(StripBase64Prefix(base64Data), filename, UPLOAD_FOLDER, true)
  }

  /** `uploadToImageKit`: it never throws. The SDK is handed the stripped
      payload, the file name, the "/thumbnails/" folder and a request for a
      unique name; its success becomes `success` with url and fileId, its
      error becomes `success = false` with the error's message, or a fixed
      message when that is empty. */
  function UploadToImageKit(base64Data: string, filename: string, sdk: UploadRequest -> SdkOutcome): (r: UploadResult)
    ensures var out := sdk(UploadRequest(StripBase64Prefix(base64Data), filename, "/thumbnails/", true));
      && (r.success <==> out.Uploaded?)
      && (r.success ==> r.url == Some(out.url) && r.fileId == Some(out.fileId) && r.error.None?)
      && (!r.success ==> r.url.None? && r.fileId.None?
                         && r.error == Some(OrElse(out.message, "Failed to upload to ImageKit")))
  {
    match sdk(UploadRequestFor(base64Data, filename))
    case Uploaded(url, fileId) => UploadResult(true, Some(url), Some(fileId), None)
    case Rejected(message) => UploadResult(false, None, None, Some(OrElse(message, "Failed to upload to ImageKit")))
  }

  // ---- getOptimizedUrl ------------------------------------------------

  /** The optional transformations; a zero number is falsy and skipped. */
  datatype Transformations = Transformations(
    width: Option<int>,
    height: Option<int>,
    quality: Option<int>,
    format: Option<SharpImageKit.Format>)

  predicate Set(n: Option<int>) {
    n.Some? && n.value != 0
  }

  predicate IsKind(c: char) {
    c == 'w' || c == 'h' || c == 'q' || c == 'f'
  }

  /** Where a parameter kind sits in push order. */
  function KindRank(c: char): nat {
    if c == 'w' then 0 else if c == 'h' then 1 else if c == 'q' then 2 else 3
  }

  /** One `<kind>-<value>` parameter. */
  function Param(kind: char, value: string): (p: string)
    ensures |p| >= 2 && p[0] == kind && p == [kind, '-'] + value
  {
    [kind, '-'] + value
  }

  /** The parameter a push adds when its guard holds. */
  function PushIf(guard: bool, p: string): (r: seq<string>)
    ensures guard ==> r == [p]
    ensures !guard ==> r == []
  {
    if guard then [p] else []
  }

  function WidthParam(t: Transformations): (r: seq<string>)
    ensures |r| == 1 <==> Set(t.width)
    ensures Set(t.width) ==> r == ["w-" + IntToString(t.width.value)]
    ensures |r| <= 1 && forall i :: 0 <= i < |r| ==> |r[i]| >= 2 && IsKind(r[i][0]) && KindRank(r[i][0]) == 0
  {
    PushIf(Set(t.width), Param('w', IntToString(t.width.GetOr(0))))
  }

  function HeightParam(t: Transformations): (r: seq<string>)
    ensures |r| == 1 <==> Set(t.height)
    ensures Set(t.height) ==> r == ["h-" + IntToString(t.height.value)]
    ensures |r| <= 1 && forall i :: 0 <= i < |r| ==> |r[i]| >= 2 && IsKind(r[i][0]) && KindRank(r[i][0]) == 1
  {
    PushIf(Set(t.height), Param('h', IntToString(t.height.GetOr(0))))
  }

  function QualityParam(t: Transformations): (r: seq<string>)
    ensures |r| == 1 <==> Set(t.quality)
    ensures Set(t.quality) ==> r == ["q-" + IntToString(t.quality.value)]
    ensures |r| <= 1 && forall i :: 0 <= i < |r| ==> |r[i]| >= 2 && IsKind(r[i][0]) && KindRank(r[i][0]) == 2
  {
    PushIf(Set(t.quality), Param('q', IntToString(t.quality.GetOr(0))))
  }

  function FormatParam(t: Transformations): (r: seq<string>)
    ensures |r| == 1 <==> t.format.Some?
    ensures t.format.Some? ==> r == ["f-" + SharpImageKit.FormatName(t.format.value)]
    ensures |r| <= 1 && forall i :: 0 <= i < |r| ==> |r[i]| >= 2 && IsKind(r[i][0]) && KindRank(r[i][0]) == 3
  {
    PushIf(t.format.Some?, Param('f', SharpImageKit.FormatName(t.format.GetOr(SharpImageKit.FormatAuto))))
  }

  /** The parameters pushed, in push order. */
  function OptimizedParams(t: Transformations): seq<string> {
    WidthParam(t) + HeightParam(t) + QualityParam(t) + FormatParam(t)
  }

  /** `getOptimizedUrl`: no transformations, or none that produce a parameter,
      leave the URL unchanged; otherwise the parameters are appended as `tr`. */
  method GetOptimizedUrl(imageUrl: string, transformations: Option<Transformations>) returns (r: string)
    ensures transformations.None? ==> r == imageUrl
    ensures transformations.Some? && OptimizedParams(transformations.value) == [] ==> r == imageUrl
    ensures transformations.Some? && OptimizedParams(transformations.value) != [] ==>
      r == imageUrl + "?tr=" + Join(OptimizedParams(transformations.value), ',')
  {
    if transformations.None? {
      return imageUrl;
    }
    var t := transformations.value;
    var params: seq<string> := [];
    if Set(t.width) {
      params := params + [Param('w', IntToString(t.width.value))];
    }
    assert params == WidthParam(t);
    if Set(t.height) {
      params := params + [Param('h', IntToString(t.height.value))];
    }
    assert params == WidthParam(t) + HeightParam(t);
    if Set(t.quality) {
      params := params + [Param('q', IntToString(t.quality.value))];
    }
    assert params == WidthParam(t) + HeightParam(t) + QualityParam(t);
    if t.format.Some? {
      params := params + [Param('f', SharpImageKit.FormatName(t.format.value))];
    }
    assert params == OptimizedParams(t);
    r := if |params| > 0 then imageUrl + "?tr=" + Join(params, ',') else imageUrl;
  }

  /** Parameter kinds strictly increase along `p`, every one below `bound`. */
  predicate OrderedBelow(p: seq<string>, bound: nat) {
    && (forall i :: 0 <= i < |p| ==> |p[i]| >= 2 && IsKind(p[i][0]) && KindRank(p[i][0]) < bound)
    && (forall i, j :: 0 <= i < j < |p| ==> KindRank(p[i][0]) < KindRank(p[j][0]))
  }

  lemma PushKeepsOrder(p: seq<string>, q: seq<string>, bound: nat)
    requires OrderedBelow(p, bound)
    requires |q| <= 1 && forall i :: 0 <= i < |q| ==> |q[i]| >= 2 && IsKind(q[i][0]) && KindRank(q[i][0]) == bound
    ensures OrderedBelow(p + q, bound + 1)
  {
  }

  /** The parameters come in the order w, h, q, f, each kind at most once. */
  lemma OptimizedParamsOrdered(t: Transformations)
    ensures OrderedBelow(OptimizedParams(t), 4)
  {
    GroupsOrdered(WidthParam(t), HeightParam(t), QualityParam(t), FormatParam(t));
  }

  /** Four groups of at most one parameter each, of ranks 0 to 3, concatenate
      into an ordered sequence. */
  lemma GroupsOrdered(w: seq<string>, h: seq<string>, q: seq<string>, f: seq<string>)
    requires |w| <= 1 && forall i :: 0 <= i < |w| ==> |w[i]| >= 2 && IsKind(w[i][0]) && KindRank(w[i][0]) == 0
    requires |h| <= 1 && forall i :: 0 <= i < |h| ==> |h[i]| >= 2 && IsKind(h[i][0]) && KindRank(h[i][0]) == 1
    requires |q| <= 1 && forall i :: 0 <= i < |q| ==> |q[i]| >= 2 && IsKind(q[i][0]) && KindRank(q[i][0]) == 2
    requires |f| <= 1 && forall i :: 0 <= i < |f| ==> |f[i]| >= 2 && IsKind(f[i][0]) && KindRank(f[i][0]) == 3
    ensures OrderedBelow(w + h + q + f, 4)
  {
    PushKeepsOrder([], w, 0);
    assert [] + w == w;
    PushKeepsOrder(w, h, 1);
    PushKeepsOrder(w + h, q, 2);
    PushKeepsOrder(w + h + q, f, 3);
  }

  /** Where the parameter at position i of a concatenation of at most
      one-element groups comes from. */
  lemma Located(w: seq<string>, h: seq<string>, q: seq<string>, f: seq<string>, i: nat)
    requires |w| <= 1 && |h| <= 1 && |q| <= 1 && |f| <= 1 && i < |w + h + q + f|
    ensures var p := w + h + q + f;
      || (|w| == 1 && p[i] == w[0]) || (|h| == 1 && p[i] == h[0])
      || (|q| == 1 && p[i] == q[0]) || (|f| == 1 && p[i] == f[0])
  {
  }

  /** The parameter of each kind set is present, as that kind's letter, a
      dash and the value, at the position the kinds before it leave; the
      width one comes first. */
  lemma SetParamsPresent(t: Transformations)
    ensures var p := OptimizedParams(t);
      var w, h, q := |WidthParam(t)|, |HeightParam(t)|, |QualityParam(t)|;
      && (Set(t.width) ==> p[0] == "w-" + IntToString(t.width.value))
      && (Set(t.height) ==> w < |p| && p[w] == "h-" + IntToString(t.height.value))
      && (Set(t.quality) ==> w + h < |p| && p[w + h] == "q-" + IntToString(t.quality.value))
      && (t.format.Some? ==> w + h + q < |p| && p[w + h + q] == "f-" + SharpImageKit.FormatName(t.format.value))
  {
    GroupsAt(WidthParam(t), HeightParam(t), QualityParam(t), FormatParam(t));
  }

  /** Where each one-element group of a concatenation starts. */
  lemma GroupsAt(w: seq<string>, h: seq<string>, q: seq<string>, f: seq<string>)
    ensures var p := w + h + q + f;
      && (|w| == 1 ==> p[0] == w[0])
      && (|h| == 1 ==> p[|w|] == h[0])
      && (|q| == 1 ==> p[|w| + |h|] == q[0])
      && (|f| == 1 ==> p[|w| + |h| + |q|] == f[0])
  {
  }

  /** A parameter is present only when its value is set. */
  lemma PresentParamsSet(t: Transformations, i: nat)
    requires i < |OptimizedParams(t)|
    ensures var c := OptimizedParams(t)[i][0];
      && (c == 'w' ==> Set(t.width)) && (c == 'h' ==> Set(t.height))
      && (c == 'q' ==> Set(t.quality)) && (c == 'f' ==> t.format.Some?)
  {
    Located(WidthParam(t), HeightParam(t), QualityParam(t), FormatParam(t), i);
  }

  /** Some parameter in `p` is of kind `c`. */
  predicate HasKind(p: seq<string>, c: char) {
    exists i :: 0 <= i < |p| && |p[i]| > 0 && p[i][0] == c
  }

  /** Whether the value behind a parameter kind is set. */
  predicate IsSet(t: Transformations, c: char) {
    if c == 'w' then Set(t.width)
    else if c == 'h' then Set(t.height)
    else if c == 'q' then Set(t.quality)
    else t.format.Some?
  }

  /** Each parameter is present exactly when its value is set (and non-zero). */
  lemma OptimizedParamsPresent(t: Transformations, c: char)
    requires IsKind(c)
    ensures HasKind(OptimizedParams(t), c) <==> IsSet(t, c)
  {
    if IsSet(t, c) {
      PresentWhenSet(t, c);
    }
    if HasKind(OptimizedParams(t), c) {
      var i :| 0 <= i < |OptimizedParams(t)| && |OptimizedParams(t)[i]| > 0 && OptimizedParams(t)[i][0] == c;
      PresentParamsSet(t, i);
    }
  }

  lemma PresentWhenSet(t: Transformations, c: char)
    requires IsKind(c) && IsSet(t, c)
    ensures HasKind(OptimizedParams(t), c)
  {
    var p := OptimizedParams(t);
    var w, h, q := |WidthParam(t)|, |HeightParam(t)|, |QualityParam(t)|;
    SetParamsPresent(t);
    var k := if c == 'w' then 0 else if c == 'h' then w else if c == 'q' then w + h else w + h + q;
    assert 0 <= k < |p| && |p[k]| > 0 && p[k][0] == c;
  }

  /** With all four values set, the optimized URL's parameters are exactly the
      first four tokens of the sharp thumbnail builder for the same size,
      quality and format. */
  lemma OptimizedAgreesWithSharp(w: int, h: int, q: int, f: SharpImageKit.Format, o: SharpImageKit.SharpThumbnailOptions)
    requires w != 0 && h != 0 && q != 0
    requires o.width == w && o.height == h && o.quality == Some(q) && o.format == Some(f)
    ensures OptimizedParams(Transformations(Some(w), Some(h), Some(q), Some(f))) == SharpImageKit.Transforms(o)[..4]
  {
  }
}
