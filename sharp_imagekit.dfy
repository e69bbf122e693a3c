/** utils/sharp-imagekit.ts: the ImageKit transformation string for a sharp,
    correctly cropped thumbnail, and the presets built on it. */
module SharpImageKit {
  import opened Values
  import opened Text

  datatype CropMode = FaceCrop | AutoCrop | Maintain | Pad | Force
  datatype Format = FormatAuto | Webp | Png | Jpg

  function FormatName(f: Format): string {
    match f
    case FormatAuto => "auto"
    case Webp => "webp"
    case Png => "png"
    case Jpg => "jpg"
  }

  /** The options object. Omitted fields are None. The zoom factor is a
      JavaScript number and is kept as the text JavaScript prints for it. */
  datatype SharpThumbnailOptions = SharpThumbnailOptions(
    width: int,
    height: int,
    quality: Option<int>,
    hasFace: Option<bool>,
    allowUpscale: Option<bool>,
    cropMode: Option<CropMode>,
    format: Option<Format>,
    zoom: Option<string>)

  const DEFAULT_QUALITY: int := 90

  /** `if (zoom)`: 0 and NaN are falsy. */
  predicate ZoomGiven(zoom: Option<string>) {
    zoom.Some? && zoom.value != "0" && zoom.value != "NaN"
  }

  predicate FaceBranch(o: SharpThumbnailOptions) {
    o.cropMode.GetOr(AutoCrop) == FaceCrop || o.hasFace.GetOr(false)
  }

  /** The size, quality and format tokens. */
  function SizeTokens(o: SharpThumbnailOptions): (r: seq<string>)
    ensures |r| == 4 && forall i :: 0 <= i < 4 ==> |r[i]| >= 2 && r[i][0] in "whqf"
  {
    ["w-" + IntToString(o.width), "h-" + IntToString(o.height),
     "q-" + IntToString(o.quality.GetOr(DEFAULT_QUALITY)), "f-" + FormatName(o.format.GetOr(FormatAuto))]
  }

  function SharpenTokens(o: SharpThumbnailOptions): seq<string> {
    if o.allowUpscale.GetOr(false) then ["e-upscale"] else ["e-usm-1-2-4-0.005"]
  }

  /** The cropping tokens. None of them starts with 'e', and a token starting
      with 'z' comes only from the face branch with a zoom. */
  function CropGroup(o: SharpThumbnailOptions): (r: seq<string>)
    ensures |r| >= 1 && forall i :: 0 <= i < |r| ==> |r[i]| >= 2 && r[i][0] in "fcz"
    ensures forall i :: 0 <= i < |r| && r[i][0] == 'z' ==> FaceBranch(o) && ZoomGiven(o.zoom)
  {
    if FaceBranch(o) then ["fo-face", "c-pad_resize"] + (if ZoomGiven(o.zoom) then ["z-" + o.zoom.value] else [])
    else match o.cropMode.GetOr(AutoCrop)
      case AutoCrop => ["fo-auto", "c-at_max"]
      case Pad => ["c-pad_resize"]
      case Force => ["c-force"]
      case _ => ["c-at_max"]
  }

  /** The tokens the builder pushes, in push order. */
  function Transforms(o: SharpThumbnailOptions): seq<string> {
    SizeTokens(o) + SharpenTokens(o) + CropGroup(o)
  }

  /** `generateSharpThumbnail`: pushes the tokens one group at a time and
      appends them, comma-joined, as the `tr` query parameter. */
  method GenerateSharpThumbnail(imageUrl: string, o: SharpThumbnailOptions) returns (r: string)
    ensures r == imageUrl + "?tr=" + Join(Transforms(o), ',')
  {
    var quality := o.quality.GetOr(DEFAULT_QUALITY);
    var hasFace := o.hasFace.GetOr(false);
    var allowUpscale := o.allowUpscale.GetOr(false);
    var cropMode := o.cropMode.GetOr(AutoCrop);
    var format := o.format.GetOr(FormatAuto);
    var transforms: seq<string> := [];
    transforms := transforms + ["w-" + IntToString(o.width), "h-" + IntToString(o.height)];
    transforms := transforms + ["q-" + IntToString(quality), "f-" + FormatName(format)];
    assert transforms == SizeTokens(o);
    if allowUpscale {
      transforms := transforms + ["e-upscale"];
    } else {
      transforms := transforms + ["e-usm-1-2-4-0.005"];
    }
    ghost var beforeCrop := transforms;
    assert beforeCrop == SizeTokens(o) + SharpenTokens(o);
    if cropMode == FaceCrop || hasFace {
      transforms := transforms + ["fo-face", "c-pad_resize"];
      if ZoomGiven(o.zoom) {
        transforms := transforms + ["z-" + o.zoom.value];
      }
    } else if cropMode == AutoCrop {
      transforms := transforms + ["fo-auto", "c-at_max"];
    } else if cropMode == Pad {
      transforms := transforms + ["c-pad_resize"];
    } else if cropMode == Force {
      transforms := transforms + ["c-force"];
    } else {
      transforms := transforms + ["c-at_max"];
    }
    assert transforms == beforeCrop + CropGroup(o);
    r := imageUrl + "?tr=" + Join(transforms, ',');
  }

  /** The first four tokens are size, quality and format, in that order, with
      quality 90 and format "auto" when none is given. */
  lemma TransformsLeadWithSizeQualityFormat(o: SharpThumbnailOptions)
    ensures var t := Transforms(o);
      |t| >= 6 && t[0] == "w-" + IntToString(o.width) && t[1] == "h-" + IntToString(o.height)
      && t[2] == "q-" + IntToString(o.quality.GetOr(90)) && t[3] == "f-" + FormatName(o.format.GetOr(FormatAuto))
  {
  }

  /** Exactly one sharpening token, in fifth place: `e-upscale` when upscaling
      is allowed and the unsharp mask otherwise. */
  lemma ExactlyOneSharpening(o: SharpThumbnailOptions)
    ensures var t := Transforms(o);
      && t[4] == (if o.allowUpscale == Some(true) then "e-upscale" else "e-usm-1-2-4-0.005")
      && (forall i :: 0 <= i < |t| && i != 4 ==> t[i] != "e-upscale" && t[i] != "e-usm-1-2-4-0.005")
  {
    var t := Transforms(o);
    forall i | 0 <= i < |t| && i != 4 ensures t[i] != "e-upscale" && t[i] != "e-usm-1-2-4-0.005" {
      assert i < 4 ==> t[i] == SizeTokens(o)[i];
      assert i > 4 ==> t[i] == CropGroup(o)[i - 5];
      assert t[i][0] != 'e';
    }
  }

  /** The crop tokens after the sharpening token: a face (by crop mode or by
      the hasFace flag, whatever the crop mode) gives `fo-face,c-pad_resize`
      and then `z-<zoom>` exactly when a zoom is given; otherwise auto gives
      `fo-auto,c-at_max`, pad `c-pad_resize`, force `c-force` and maintain
      `c-at_max`. */
  lemma CropTokens(o: SharpThumbnailOptions)
    ensures var crop := Transforms(o)[5..];
      && (FaceBranch(o) ==> crop == ["fo-face", "c-pad_resize"] + (if ZoomGiven(o.zoom) then ["z-" + o.zoom.value] else []))
      && (!FaceBranch(o) && o.cropMode.GetOr(AutoCrop) == AutoCrop ==> crop == ["fo-auto", "c-at_max"])
      && (!FaceBranch(o) && o.cropMode == Some(Pad) ==> crop == ["c-pad_resize"])
      && (!FaceBranch(o) && o.cropMode == Some(Force) ==> crop == ["c-force"])
      && (!FaceBranch(o) && o.cropMode == Some(Maintain) ==> crop == ["c-at_max"])
  {
  }

  /** A zoom token appears only in the face branch and only with a zoom. */
  lemma ZoomOnlyWithFace(o: SharpThumbnailOptions)
    ensures (exists i :: 0 <= i < |Transforms(o)| && StartsWith(Transforms(o)[i], "z-"))
        <==> FaceBranch(o) && ZoomGiven(o.zoom)
  {
    var t := Transforms(o);
    if FaceBranch(o) && ZoomGiven(o.zoom) {
      assert t[7] == "z-" + o.zoom.value;
      assert StartsWith(t[7], "z-");
    } else {
      forall i | 0 <= i < |t| ensures !StartsWith(t[i], "z-") {
        if i < 4 {
          assert t[i] == SizeTokens(o)[i];
        } else if i == 4 {
          assert t[i][0] == 'e';
        } else {
          assert t[i] == CropGroup(o)[i - 5];
        }
      }
    }
  }

  // ---- presets ---------------------------------------------------------

  /** The persona profile preset: 150x150 at quality 95, face crop, zoom 0.9. */
  method PersonaProfile(url: string) returns (r: string)
    ensures r == url + "?tr=" + Join(["w-150", "h-150", "q-95", "f-auto", "e-usm-1-2-4-0.005", "fo-face", "c-pad_resize", "z-0.9"], ',')
  {
    var o := SharpThumbnailOptions(150, 150, Some(95), Some(true), None, Some(FaceCrop), None, Some("0.9"));
    r := GenerateSharpThumbnail(url, o);
    PresetNumbers();
    assert SizeTokens(o)[0] == "w-150";
    assert SizeTokens(o)[1] == "h-150";
    assert SizeTokens(o)[2] == "q-95";
    assert SizeTokens(o)[3] == "f-auto";
    assert SizeTokens(o) == ["w-150", "h-150", "q-95", "f-auto"];
    assert SharpenTokens(o) == ["e-usm-1-2-4-0.005"];
    assert |CropGroup(o)| == 3;
    assert CropGroup(o)[0] == "fo-face";
    assert CropGroup(o)[1] == "c-pad_resize";
    assert CropGroup(o)[2] == "z-0.9";
    assert CropGroup(o) == ["fo-face", "c-pad_resize", "z-0.9"];
    assert Transforms(o) == ["w-150", "h-150", "q-95", "f-auto", "e-usm-1-2-4-0.005", "fo-face", "c-pad_resize", "z-0.9"];
  }

  /** The avatar preset: 40x40 at quality 85, face crop, no zoom. */
  method Avatar(url: string) returns (r: string)
    ensures r == url + "?tr=" + Join(["w-40", "h-40", "q-85", "f-auto", "e-usm-1-2-4-0.005", "fo-face", "c-pad_resize"], ',')
  {
    var o := SharpThumbnailOptions(40, 40, Some(85), Some(true), None, Some(FaceCrop), None, None);
    r := GenerateSharpThumbnail(url, o);
    PresetNumbers();
    assert SizeTokens(o)[0] == "w-40";
    assert SizeTokens(o)[1] == "h-40";
    assert SizeTokens(o)[2] == "q-85";
    assert SizeTokens(o)[3] == "f-auto";
    assert SizeTokens(o) == ["w-40", "h-40", "q-85", "f-auto"];
    assert SharpenTokens(o) == ["e-usm-1-2-4-0.005"];
    assert |CropGroup(o)| == 2;
    assert CropGroup(o)[0] == "fo-face";
    assert CropGroup(o)[1] == "c-pad_resize";
    assert CropGroup(o) == ["fo-face", "c-pad_resize"];
    assert Transforms(o) == ["w-40", "h-40", "q-85", "f-auto", "e-usm-1-2-4-0.005", "fo-face", "c-pad_resize"];
  }

  /** The dashboard card preset: 300x200 at quality 85, auto crop. */
  method DashboardCard(url: string) returns (r: string)
    ensures r == url + "?tr=" + Join(["w-300", "h-200", "q-85", "f-auto", "e-usm-1-2-4-0.005", "fo-auto", "c-at_max"], ',')
  {
    var o := SharpThumbnailOptions(300, 200, Some(85), None, None, Some(AutoCrop), None, None);
    r := GenerateSharpThumbnail(url, o);
    PresetNumbers();
    assert SizeTokens(o)[0] == "w-300";
    assert SizeTokens(o)[1] == "h-200";
    assert SizeTokens(o)[2] == "q-85";
    assert SizeTokens(o)[3] == "f-auto";
    assert SizeTokens(o) == ["w-300", "h-200", "q-85", "f-auto"];
    assert SharpenTokens(o) == ["e-usm-1-2-4-0.005"];
    assert |CropGroup(o)| == 2;
    assert CropGroup(o)[0] == "fo-auto";
    assert CropGroup(o)[1] == "c-at_max";
    assert CropGroup(o) == ["fo-auto", "c-at_max"];
    assert Transforms(o) == ["w-300", "h-200", "q-85", "f-auto", "e-usm-1-2-4-0.005", "fo-auto", "c-at_max"];
  }

  /** The gallery preset: 200x200 at quality 80, auto crop. */
  method Gallery(url: string) returns (r: string)
    ensures r == url + "?tr=" + Join(["w-200", "h-200", "q-80", "f-auto", "e-usm-1-2-4-0.005", "fo-auto", "c-at_max"], ',')
  {
    var o := SharpThumbnailOptions(200, 200, Some(80), None, None, Some(AutoCrop), None, None);
    r := GenerateSharpThumbnail(url, o);
    PresetNumbers();
    assert SizeTokens(o)[0] == "w-200";
    assert SizeTokens(o)[1] == "h-200";
    assert SizeTokens(o)[2] == "q-80";
    assert SizeTokens(o)[3] == "f-auto";
    assert SizeTokens(o) == ["w-200", "h-200", "q-80", "f-auto"];
    assert SharpenTokens(o) == ["e-usm-1-2-4-0.005"];
    assert |CropGroup(o)| == 2;
    assert CropGroup(o)[0] == "fo-auto";
    assert CropGroup(o)[1] == "c-at_max";
    assert CropGroup(o) == ["fo-auto", "c-at_max"];
    assert Transforms(o) == ["w-200", "h-200", "q-80", "f-auto", "e-usm-1-2-4-0.005", "fo-auto", "c-at_max"];
  }

  lemma PresetNumbers()
    ensures IntToString(150) == "150" && IntToString(95) == "95" && IntToString(40) == "40"
    ensures IntToString(85) == "85" && IntToString(300) == "300" && IntToString(200) == "200"
    ensures IntToString(80) == "80"
  {
    assert NatToString(1) == "1" && NatToString(2) == "2" && NatToString(3) == "3";
    assert NatToString(15) == "15" && NatToString(20) == "20" && NatToString(30) == "30";
  }
}
