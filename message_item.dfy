/** How a message's file attachment is shown: its link, name, size and icon kind, and
    whether the download button opens anything. The configured server URL is a parameter. */
module MessageItem {
  import opened Wrappers
  import opened Domain
  import opened Text

  const DefaultBaseUrl := "http://localhost:3000"
  const NoLink := "#"
  const UnknownFileName := "Unknown file"

  datatype FileInfo = FileInfo(name: Option<string>, size: Option<int>)

  /** The attachment fields the item reads. */
  datatype Attachment = Attachment(
    title: Option<string>,
    imageUrl: Option<string>,
    titleLink: Option<string>,
    url: Option<string>,
    imageSize: Option<int>,
    file: Option<FileInfo>,
    name: Option<string>,
    size: Option<int>,
    mimeType: Option<string>,
    imageType: Option<string>)

  /** The icon kinds `getFileIcon` chooses between. */
  datatype IconKind = ImageIcon | VideoIcon | AudioIcon | DocumentIcon | GenericIcon

  /** JavaScript truthiness of an optional number: present and not zero. */
  predicate NumberTruthy(n: Option<int>) {
    n.Some? && n.value != 0
  }

  /** The link candidate: the first truthy of `image_url`, `title_link`, `url`. */
  function LinkCandidate(a: Attachment): (u: Option<string>)
    ensures Truthy(u) <==> Truthy(a.imageUrl) || Truthy(a.titleLink) || Truthy(a.url)
    ensures Truthy(a.imageUrl) ==> u == a.imageUrl
    ensures !Truthy(a.imageUrl) && Truthy(a.titleLink) ==> u == a.titleLink
    ensures !Truthy(a.imageUrl) && !Truthy(a.titleLink) ==> u == a.url
  {
    Either(Either(a.imageUrl, a.titleLink), a.url)
  }

  /** `getFileUrl`: `'#'` without a link; an `http…` link as it is; a rooted path after the
      server URL; any other path after the server URL and a slash. */
  function FileUrl(a: Attachment, configuredUrl: Option<string>): (link: string)
    ensures !Truthy(LinkCandidate(a)) ==> link == NoLink
    ensures Truthy(LinkCandidate(a)) && StartsWith(LinkCandidate(a).value, "http") ==> link == LinkCandidate(a).value
    ensures Truthy(LinkCandidate(a)) && !StartsWith(LinkCandidate(a).value, "http") && StartsWith(LinkCandidate(a).value, "/") ==>
      link == OrElse(configuredUrl, DefaultBaseUrl) + LinkCandidate(a).value
    ensures Truthy(LinkCandidate(a)) && !StartsWith(LinkCandidate(a).value, "http") && !StartsWith(LinkCandidate(a).value, "/") ==>
      link == OrElse(configuredUrl, DefaultBaseUrl) + "/" + LinkCandidate(a).value
  {
    var baseUrl := OrElse(configuredUrl, DefaultBaseUrl);
    var candidate := LinkCandidate(a);
    if !Truthy(candidate) then NoLink
    else if StartsWith(candidate.value, "http") then candidate.value
    else if StartsWith(candidate.value, "/") then baseUrl + candidate.value
    else baseUrl + "/" + candidate.value
  }

  /** The link is `'#'` exactly when the attachment has no link candidate: every built link is
      longer than `'#'`. */
  lemma NoLinkIffNoCandidate(a: Attachment, configuredUrl: Option<string>)
    ensures FileUrl(a, configuredUrl) == NoLink <==> !Truthy(LinkCandidate(a))
  {
    var baseUrl := OrElse(configuredUrl, DefaultBaseUrl);
    assert |baseUrl| >= 1;
    if Truthy(LinkCandidate(a)) && StartsWith(LinkCandidate(a).value, "http") {
      assert |FileUrl(a, configuredUrl)| >= 4;
    }
  }

  /** `handleFileDownload`: the link to open, if any. */
  function DownloadTarget(a: Attachment, configuredUrl: Option<string>): (target: Option<string>)
    ensures target.Some? ==> target.value == FileUrl(a, configuredUrl) && target.value != NoLink
  {
    var link := FileUrl(a, configuredUrl);
    if link != "" && link != NoLink then Some(link) else None
  }

  /** The download button opens a window exactly when the attachment has a link candidate. */
  lemma DownloadOpensIffLink(a: Attachment, configuredUrl: Option<string>)
    ensures DownloadTarget(a, configuredUrl).Some? <==> Truthy(LinkCandidate(a))
  {
    NoLinkIffNoCandidate(a, configuredUrl);
    if Truthy(LinkCandidate(a)) {
      var baseUrl := OrElse(configuredUrl, DefaultBaseUrl);
      assert |baseUrl| >= 1;
      assert FileUrl(a, configuredUrl) != "";
    }
  }

  /** `getFileName`: `title`, else `file.name`, else `name`, else "Unknown file". */
  function FileName(a: Attachment): (n: string)
    ensures Truthy(a.title) ==> n == a.title.value
    ensures !Truthy(a.title) && a.file.Some? && Truthy(a.file.value.name) ==> n == a.file.value.name.value
    ensures !Truthy(a.title) && (a.file.None? || !Truthy(a.file.value.name)) && Truthy(a.name) ==> n == a.name.value
    ensures !Truthy(a.title) && (a.file.None? || !Truthy(a.file.value.name)) && !Truthy(a.name) ==> n == UnknownFileName
    ensures n != ""
  {
    var fileName := if a.file.Some? then a.file.value.name else None;
    OrElse(Either(Either(a.title, fileName), a.name), UnknownFileName)
  }

  /** `getFileSize`: `image_size`, else `file.size`, else `size`, else 0 (zero counts as missing). */
  function FileSize(a: Attachment): (n: int)
    ensures NumberTruthy(a.imageSize) ==> n == a.imageSize.value
    ensures !NumberTruthy(a.imageSize) && a.file.Some? && NumberTruthy(a.file.value.size) ==> n == a.file.value.size.value
    ensures !NumberTruthy(a.imageSize) && (a.file.None? || !NumberTruthy(a.file.value.size)) ==>
      n == (if NumberTruthy(a.size) then a.size.value else 0)
  {
    var fileSize := if a.file.Some? then a.file.value.size else None;
    if NumberTruthy(a.imageSize) then a.imageSize.value
    else if NumberTruthy(fileSize) then fileSize.value
    else if NumberTruthy(a.size) then a.size.value
    else 0
  }

  /** `getFileIcon` as the kind of icon: by the `type` (else `image_type`) prefix, then by a
      `pdf` or `document` mention; no attachment or no type gives the generic icon. */
  function FileIcon(a: Option<Attachment>): (kind: IconKind)
    ensures a.None? ==> kind == GenericIcon
    ensures a.Some? && !Truthy(Either(a.value.mimeType, a.value.imageType)) ==> kind == GenericIcon
    ensures kind == ImageIcon ==> a.Some? && StartsWith(Either(a.value.mimeType, a.value.imageType).value, "image/")
    ensures kind == DocumentIcon ==> a.Some? && var t := Either(a.value.mimeType, a.value.imageType).value;
                                     Contains(t, "pdf") || Contains(t, "document")
    ensures a.Some? && Truthy(Either(a.value.mimeType, a.value.imageType)) ==>
      var t := Either(a.value.mimeType, a.value.imageType).value;
      kind == (if StartsWith(t, "image/") then ImageIcon
               else if StartsWith(t, "video/") then VideoIcon
               else if StartsWith(t, "audio/") then AudioIcon
               else if Contains(t, "pdf") || Contains(t, "document") then DocumentIcon
               else GenericIcon)
  {
    if a.None? then GenericIcon
    else
      var t := Either(a.value.mimeType, a.value.imageType);
      if t.None? then GenericIcon
      else if StartsWith(t.value, "image/") then ImageIcon
      else if StartsWith(t.value, "video/") then VideoIcon
      else if StartsWith(t.value, "audio/") then AudioIcon
      else if Contains(t.value, "pdf") || Contains(t.value, "document") then DocumentIcon
      else GenericIcon
  }

  /** The media kind a type's prefix names; the three prefixes exclude each other. */
  function MediaKind(t: string): (kind: Option<IconKind>)
    ensures kind == Some(ImageIcon) <==> StartsWith(t, "image/")
    ensures kind == Some(VideoIcon) <==> StartsWith(t, "video/")
    ensures kind == Some(AudioIcon) <==> StartsWith(t, "audio/")
    ensures kind.None? <==> !StartsWith(t, "image/") && !StartsWith(t, "video/") && !StartsWith(t, "audio/")
  {
    if |t| < 6 then None
    else if t[..6] == "image/" then Some(ImageIcon)
    else if t[..6] == "video/" then Some(VideoIcon)
    else if t[..6] == "audio/" then Some(AudioIcon)
    else None
  }

  /** The icon kinds partition the attachments with a type: each media icon is chosen exactly
      by its own prefix whatever else the type says, so an `image/` type is never shown as a
      document even when it mentions pdf; the document icon goes to the other types that
      mention pdf or document, and the generic icon to the rest. */
  lemma IconKindsPartition(a: Attachment)
    requires Truthy(Either(a.mimeType, a.imageType))
    ensures var t := Either(a.mimeType, a.imageType).value;
      && (MediaKind(t).Some? ==> FileIcon(Some(a)) == MediaKind(t).value)
      && (FileIcon(Some(a)) == DocumentIcon <==> MediaKind(t).None? && (Contains(t, "pdf") || Contains(t, "document")))
      && (FileIcon(Some(a)) == GenericIcon <==> MediaKind(t).None? && !Contains(t, "pdf") && !Contains(t, "document"))
  {
  }
}
