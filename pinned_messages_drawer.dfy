/** The pinned-messages drawer: message previews cut to a maximum length, and the drawer
    hidden when nothing is pinned. */
module PinnedMessagesDrawer {
  import opened Domain

  const DefaultMaxLength: nat := 100
  const Ellipsis := "..."

  /** `truncateMessage`: a text no longer than the limit is kept whole; a longer one is cut to
      its first `maxLength` characters followed by an ellipsis. */
  function Truncate(message: string, maxLength: nat): (preview: string)
    ensures |message| <= maxLength ==> preview == message
    ensures |message| > maxLength ==>
      |preview| == maxLength + |Ellipsis| && preview[..maxLength] == message[..maxLength] && preview[maxLength..] == Ellipsis
  {
    if |message| <= maxLength then message else message[..maxLength] + Ellipsis
  }

  /** A preview is never longer than the limit plus the ellipsis, always starts like the
      message, and is strictly shorter than any message longer than the limit plus the ellipsis. */
  lemma TruncateBounds(message: string, maxLength: nat)
    ensures |Truncate(message, maxLength)| <= maxLength + |Ellipsis|
    ensures var n := if |message| <= maxLength then |message| else maxLength;
            Truncate(message, maxLength)[..n] == message[..n]
    ensures |message| > maxLength + |Ellipsis| ==> |Truncate(message, maxLength)| < |message|
  {
  }

  /** The drawer renders only when there is at least one pinned message. */
  function Visible(pinned: seq<Message>): (shown: bool)
    ensures shown <==> |pinned| > 0
  {
    |pinned| != 0
  }
}
