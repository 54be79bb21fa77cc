/** Files picked by the user, the MIME allow-list, and the data URL that displays a result. */
module Media {
  import opened Wrappers

  /** A picked file as the handler sees it: its name and its declared MIME type. */
  datatype File = File(name: string, mimeType: string)

  /** The MIME types the file-change handler accepts. */
  const AllowedTypes: seq<string> := ["image/png", "image/jpeg"]

  /** The MIME types the file input's `accept` filter offers in the picker. */
  const PickerAccept: seq<string> := ["image/png", "image/jpeg", "image/jpg"]

  /** Exact, case-sensitive membership in the allow-list. */
  predicate IsAllowedType(mime: string) {
    mime in AllowedTypes
  }

  /** A pick is accepted when a file is present and its type is allowed. */
  predicate Accepts(file: Option<File>) {
    file.Some? && IsAllowedType(file.value.mimeType)
  }

  /** Exactly two MIME types pass the handler. */
  lemma AllowedTypesExactly(mime: string)
    ensures IsAllowedType(mime) <==> mime == "image/png" || mime == "image/jpeg"
  {
  }

  /** The picker offers `image/jpg`, which the handler then rejects;
      every other type the picker offers is accepted. */
  lemma PickerOffersRejectedType()
    ensures "image/jpg" in PickerAccept && !IsAllowedType("image/jpg")
    ensures forall m :: m in PickerAccept && m != "image/jpg" ==> IsAllowedType(m)
    ensures !IsAllowedType("image/gif")
  {
  }

  /** The prefix that turns a base64 payload into a displayable PNG data URL. */
  const DataUrlPrefix: string := "data:image/png;base64,"

  /** The data URL that shows a base64-encoded PNG payload. */
  function DataUrl(payload: string): (url: string)
    ensures |url| == |DataUrlPrefix| + |payload|
    ensures url[..|DataUrlPrefix|] == DataUrlPrefix
    ensures url[|DataUrlPrefix|..] == payload
  {
    DataUrlPrefix + payload
  }

  /** Reads the payload back out of a data URL; None when the prefix is missing. */
  function PayloadOf(url: string): (p: Option<string>)
    ensures p.Some? <==> DataUrlPrefix <= url
    ensures p.Some? ==> DataUrl(p.value) == url
  {
    if DataUrlPrefix <= url then Some(url[|DataUrlPrefix|..]) else None
  }

  /** Building a data URL and reading it back returns the payload. */
  lemma DataUrlRoundTrip(payload: string)
    ensures PayloadOf(DataUrl(payload)) == Some(payload)
  {
  }

  /** Distinct payloads give distinct data URLs. */
  lemma DataUrlInjective(a: string, b: string)
    ensures DataUrl(a) == DataUrl(b) <==> a == b
  {
  }
}
