/** The Cloudinary helpers of the web client: delivery-URL rewriting and the
    two stubs around the image host. */
module Cloudinary {
  import opened Js
  import opened JsString

  const CloudName := "donzu56gt"
  const DeleteUnsupported := "Delete operation requires backend API"

  /** `quality` option: "auto" or a number. */
  datatype Quality = QualityAuto | QualityLevel(level: int)

  /** `format` option. */
  datatype Format = FormatAuto | Webp | Jpg | Png

  /** The options object; every field may be undefined. */
  datatype ImageOptions = ImageOptions(width: Option<int>, height: Option<int>,
                                       quality: Option<Quality>, format: Option<Format>)

  /** The outcome of an operation that may throw. */
  datatype Outcome = Done | Threw(message: string)

  /** `deleteFromCloudinary`: always throws, whatever the id. */
  function DeleteFromCloudinary(publicId: string): (r: Outcome)
    ensures r.Threw? && r.message == "Delete operation requires backend API"
  {
    Threw(DeleteUnsupported)
  }

  /** `getCloudName`. */
  function GetCloudName(): (r: string)
    ensures r == "donzu56gt"
  {
    CloudName
  }

  /** The text of `quality`, "auto" when undefined. */
  function QualityText(q: Option<Quality>): (t: string)
    ensures '$' !in t
  {
    if q.None? || q.value.QualityAuto? then "auto" else IntToString(q.value.level)
  }

  /** The text of `format`, "auto" when undefined. */
  function FormatText(f: Option<Format>): (t: string)
    ensures '$' !in t && t != ""
  {
    if f.None? then "auto"
    else match f.value
      case FormatAuto => "auto"
      case Webp => "webp"
      case Jpg => "jpg"
      case Png => "png"
  }

  /** The transformation segments: `w_` and `h_` for a width and height
      that are present and not 0, then always `q_` and `f_`, in that order. */
  function Transforms(o: ImageOptions): (ts: seq<string>)
    ensures |ts| == 2 + (if NumFalsy(o.width) then 0 else 1) + (if NumFalsy(o.height) then 0 else 1)
    ensures !NumFalsy(o.width) ==> ts[0] == "w_" + IntToString(o.width.value)
    ensures !NumFalsy(o.height) ==> ts[|ts| - 3] == "h_" + IntToString(o.height.value)
    ensures ts[|ts| - 2] == "q_" + QualityText(o.quality)
    ensures ts[|ts| - 1] == "f_" + FormatText(o.format)
    ensures forall i :: 0 <= i < |ts| ==> '$' !in ts[i]
  {
    (if NumFalsy(o.width) then [] else ["w_" + IntToString(o.width.value)])
    + (if NumFalsy(o.height) then [] else ["h_" + IntToString(o.height.value)])
    + ["q_" + QualityText(o.quality), "f_" + FormatText(o.format)]
  }

  /** A join of '$'-free parts with a '$'-free separator has no '$'. */
  lemma {:induction false} JoinHasNoDollar(parts: seq<string>, sep: string)
    requires forall i :: 0 <= i < |parts| ==> '$' !in parts[i]
    requires '$' !in sep
    ensures '$' !in Join(parts, sep)
    decreases |parts|
  {
    if |parts| > 1 {
      JoinHasNoDollar(parts[1..], sep);
    }
  }

  /** `transforms.join(",")`. */
  function TransformString(o: ImageOptions): (t: string)
    ensures '$' !in t
  {
    JoinHasNoDollar(Transforms(o), ",");
    Join(Transforms(o), ",")
  }

  /** `getOptimizedImageUrl`: a Cloudinary URL gets the transformation
      inserted after its first "/upload/"; any other URL, and a Cloudinary
      URL without "/upload/", is returned unchanged. */
  function GetOptimizedImageUrl(url: string, o: ImageOptions): (r: string)
    ensures !Contains(url, "cloudinary.com") ==> r == url
    ensures !Contains(url, "/upload/") ==> r == url
  {
    if Contains(url, "cloudinary.com") then
      ReplaceFirst(url, "/upload/", "/upload/" + TransformString(o) + "/")
    else url
  }

  /** Inserting a '$'-free transformation `t` after the first "/upload/"
      of `p + "/upload/" + q`, where "/upload/" does not start inside `p`. */
  lemma InsertAfterUpload(p: string, q: string, t: string)
    requires '$' !in t
    requires forall j :: 0 <= j < |p| ==> !OccursAt(p + "/upload/" + q, "/upload/", j)
    ensures ReplaceFirst(p + "/upload/" + q, "/upload/", "/upload/" + t + "/") == p + "/upload/" + t + "/" + q
  {
    var rep := "/upload/" + t + "/";
    ReplaceFirstAt(p, "/upload/", q, rep);
    assert p + rep + q == p + "/upload/" + t + "/" + q;
  }

  /** The rewrite of a Cloudinary URL `p + "/upload/" + q`, where "/upload/"
      first occurs after `p`: the transformation lands right after that
      occurrence and the rest of the URL is kept. */
  lemma OptimizedUrlShape(p: string, q: string, o: ImageOptions)
    requires Contains(p + "/upload/" + q, "cloudinary.com")
    requires forall j :: 0 <= j < |p| ==> !OccursAt(p + "/upload/" + q, "/upload/", j)
    ensures GetOptimizedImageUrl(p + "/upload/" + q, o) == p + "/upload/" + TransformString(o) + "/" + q
  {
    InsertAfterUpload(p, q, TransformString(o));
  }

  /** With no options the transformation is "q_auto,f_auto". */
  lemma DefaultTransformation()
    ensures TransformString(ImageOptions(None, None, None, None)) == "q_auto,f_auto"
  {
    var ts := Transforms(ImageOptions(None, None, None, None));
    assert "q_" + QualityText(None) == "q_auto";
    assert "f_" + FormatText(None) == "f_auto";
    assert ts == ["q_auto", "f_auto"];
    assert ts[1..] == ["f_auto"];
  }
}
