/** The booking links of the public packages section: a WhatsApp message
    built from a translated template, opened through a `wa.me` deep link. */
module PackagesSection {
  import opened JsString

  const WhatsAppNumber := "6282196659515"
  const PackagePlaceholder := "{packageName}"
  const AddOnPlaceholder := "{addOnName}"

  /** Every link starts with this prefix. */
  const LinkPrefix := "https://wa.me/" + WhatsAppNumber + "?text="

  /** `handleBookNow`'s message: the first "{packageName}" of the template
      replaced by the package name; a template without it is kept. */
  function BookingMessage(template: string, packageName: string): (m: string)
    requires '$' !in packageName
    ensures !Contains(template, PackagePlaceholder) ==> m == template
    ensures Contains(template, PackagePlaceholder) ==>
              |m| == |template| - |PackagePlaceholder| + |packageName|
  {
    ReplaceFirst(template, PackagePlaceholder, packageName)
  }

  /** `handleAddOnInquiry`'s message, with "{addOnName}". */
  function AddOnMessage(template: string, addOnName: string): (m: string)
    requires '$' !in addOnName
    ensures !Contains(template, AddOnPlaceholder) ==> m == template
    ensures Contains(template, AddOnPlaceholder) ==>
              |m| == |template| - |AddOnPlaceholder| + |addOnName|
  {
    ReplaceFirst(template, AddOnPlaceholder, addOnName)
  }

  /** The deep link for a message; `encode` stands for `encodeURIComponent`. */
  function WhatsAppLink(message: string, encode: string -> string): (link: string)
    ensures |link| == |LinkPrefix| + |encode(message)|
    ensures StartsWith(link, LinkPrefix)
    ensures link[|LinkPrefix|..] == encode(message)
  {
    LinkPrefix + encode(message)
  }

  /** The link `handleBookNow` opens: the WhatsApp link of the filled
      message; a template without the placeholder is sent as it is. */
  function BookNowLink(template: string, packageName: string, encode: string -> string): (link: string)
    requires '$' !in packageName
    ensures StartsWith(link, LinkPrefix)
    ensures !Contains(template, PackagePlaceholder) ==> link == LinkPrefix + encode(template)
  {
    WhatsAppLink(BookingMessage(template, packageName), encode)
  }

  /** The link `handleAddOnInquiry` opens, with "{addOnName}". */
  function AddOnInquiryLink(template: string, addOnName: string, encode: string -> string): (link: string)
    requires '$' !in addOnName
    ensures StartsWith(link, LinkPrefix)
    ensures !Contains(template, AddOnPlaceholder) ==> link == LinkPrefix + encode(template)
  {
    WhatsAppLink(AddOnMessage(template, addOnName), encode)
  }

  /** When the text before the placeholder has no '{', the placeholder found
      is the one that follows it. */
  lemma NoEarlierPlaceholder(p: string, pat: string, q: string)
    requires |pat| > 0 && pat[0] !in p
    ensures forall j :: 0 <= j < |p| ==> !OccursAt(p + pat + q, pat, j)
  {
    forall j | 0 <= j < |p|
      ensures !OccursAt(p + pat + q, pat, j)
    {
      assert (p + pat + q)[j] == p[j];
    }
  }

  /** A template whose text before the first "{packageName}" has no '{'
      gets the name in place of that placeholder; the rest, later
      placeholders included, is kept verbatim. */
  lemma BookingMessageFills(p: string, q: string, packageName: string)
    requires '{' !in p && '$' !in packageName
    ensures BookingMessage(p + PackagePlaceholder + q, packageName) == p + packageName + q
  {
    NoEarlierPlaceholder(p, PackagePlaceholder, q);
    ReplaceFirstAt(p, PackagePlaceholder, q, packageName);
  }

  /** The same for the add-on template. */
  lemma AddOnMessageFills(p: string, q: string, addOnName: string)
    requires '{' !in p && '$' !in addOnName
    ensures AddOnMessage(p + AddOnPlaceholder + q, addOnName) == p + addOnName + q
  {
    NoEarlierPlaceholder(p, AddOnPlaceholder, q);
    ReplaceFirstAt(p, AddOnPlaceholder, q, addOnName);
  }

  /** Booking a package opens the WhatsApp chat with the template's first
      placeholder filled by the package name and the rest kept verbatim. */
  lemma BookNowLinkFills(p: string, q: string, packageName: string, encode: string -> string)
    requires '{' !in p && '$' !in packageName
    ensures BookNowLink(p + PackagePlaceholder + q, packageName, encode) == LinkPrefix + encode(p + packageName + q)
  {
    BookingMessageFills(p, q, packageName);
  }

  /** The same for an add-on inquiry. */
  lemma AddOnInquiryLinkFills(p: string, q: string, addOnName: string, encode: string -> string)
    requires '{' !in p && '$' !in addOnName
    ensures AddOnInquiryLink(p + AddOnPlaceholder + q, addOnName, encode) == LinkPrefix + encode(p + addOnName + q)
  {
    AddOnMessageFills(p, q, addOnName);
  }
}
