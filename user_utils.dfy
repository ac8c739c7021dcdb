/** Helpers that read a user profile: display name, primary e-mail, roles, presence, avatar and
    the UTC offset label. A missing user is `None`. */
module UserUtils {
  import opened Wrappers
  import opened Domain
  import opened Text

  const UnknownUser := "Unknown User"
  const AdminRole := "admin"
  const Online := "online"
  const Offline := "offline"

  /** `getUserDisplayName`: the name, else the username, else "Unknown User". */
  function DisplayName(user: Option<UserData>): (shown: string)
    ensures user.None? ==> shown == UnknownUser
    ensures user.Some? && Truthy(user.value.name) ==> shown == user.value.name.value
    ensures user.Some? && !Truthy(user.value.name) && Truthy(user.value.username) ==> shown == user.value.username.value
    ensures user.Some? && !Truthy(user.value.name) && !Truthy(user.value.username) ==> shown == UnknownUser
    ensures shown != ""
  {
    if user.None? then UnknownUser else OrElse(Either(user.value.name, user.value.username), UnknownUser)
  }

  /** `getUserEmail`: the first e-mail's address when `emails` is an array whose first entry
      has a non-empty address; `null` otherwise, an empty array included. */
  function PrimaryEmail(user: Option<UserData>): (address: Option<string>)
    ensures address.Some? <==>
      user.Some? && user.value.emails.Items? && |user.value.emails.elems| > 0
      && Truthy(user.value.emails.elems[0].address)
    ensures address.Some? ==> address == user.value.emails.elems[0].address
  {
    if user.None? || !user.value.emails.Items? || |user.value.emails.elems| == 0 then None
    else if Truthy(user.value.emails.elems[0].address) then user.value.emails.elems[0].address
    else None
  }

  /** `hasRole`: the user's `roles` is an array that includes the role. */
  function HasRole(user: Option<UserData>, role: string): (has: bool)
    ensures has ==> user.Some? && user.value.roles.Items?
    ensures user.Some? && user.value.roles.Items? ==> (has <==> role in user.value.roles.elems)
  {
    user.Some? && user.value.roles.Items? && role in user.value.roles.elems
  }

  /** `isAdmin` is `hasRole` with the role "admin". */
  function IsAdmin(user: Option<UserData>): (admin: bool)
    ensures admin <==> user.Some? && user.value.roles.Items? && AdminRole in user.value.roles.elems
  {
    HasRole(user, AdminRole)
  }

  /** `isOnline`: both the chosen status and the connection status are "online". */
  function IsOnline(user: Option<UserData>): (online: bool)
    ensures online ==> user.Some?
    ensures user.Some? ==> (online <==> user.value.status == Some(Online) && user.value.statusConnection == Some(Online))
  {
    user.Some? && user.value.status == Some(Online) && user.value.statusConnection == Some(Online)
  }

  /** `getUserAvatar`: the avatar URL when the user has a non-empty one, `null` otherwise. */
  function Avatar(user: Option<UserData>): (url: Option<string>)
    ensures url.Some? <==> user.Some? && Truthy(user.value.avatarUrl)
    ensures url.Some? ==> url == user.value.avatarUrl
  {
    if user.Some? && Truthy(user.value.avatarUrl) then user.value.avatarUrl else None
  }

  /** `getUserStatus`: a connected user shows the chosen status (or "online" when it has none);
      anyone else shows "offline". */
  function UserStatus(user: Option<UserData>): (status: string)
    ensures user.Some? && user.value.statusConnection == Some(Online) ==> status == OrElse(user.value.status, Online)
    ensures !(user.Some? && user.value.statusConnection == Some(Online)) ==> status == Offline
    ensures status != ""
  {
    if user.Some? && user.value.statusConnection == Some(Online) then OrElse(user.value.status, Online) else Offline
  }

  /** Presence and status agree: an online user shows "online", and a status other than
      "offline" is only ever shown for a connected user. */
  lemma OnlineShowsOnline(user: Option<UserData>)
    ensures IsOnline(user) ==> UserStatus(user) == Online
    ensures UserStatus(user) != Offline ==> user.Some? && user.value.statusConnection == Some(Online)
  {
  }

  function Abs(n: int): nat { if n < 0 then -n else n }

  /** JavaScript's `a % b` for a positive divisor: the remainder takes the sign of `a`. */
  function JsRemainder(a: int, b: int): (r: int)
    requires b > 0
    ensures a >= 0 ==> 0 <= r < b
    ensures a < 0 ==> -b < r <= 0
    ensures Abs(r) == Abs(a) % b
  {
    if a >= 0 then a % b else -((-a) % b)
  }

  /** The label `UTC±HH:MM` built from a sign and the hour and minute parts. */
  function OffsetLabel(negative: bool, hours: nat, minutes: nat): string
  {
    "UTC" + [if negative then '-' else '+'] + PadTwo(Decimal(hours)) + ":" + PadTwo(Decimal(minutes))
  }

  /** `formatTimezoneOffset` as written, for an offset in minutes: the hours are the absolute
      value of the floored quotient, the minutes the absolute value of the remainder. */
  function TimezoneLabelAsWritten(user: Option<UserData>): (text: string)
    ensures user.None? || user.value.utcOffset.None? ==> text == "UTC"
    ensures user.Some? && user.value.utcOffset.Some? ==>
      var offset := user.value.utcOffset.value;
      text == OffsetLabel(offset < 0, Abs(offset / 60), Abs(JsRemainder(offset, 60)))
  {
    if user.None? || user.value.utcOffset.None? then "UTC"
    else
      var offset := user.value.utcOffset.value;
      OffsetLabel(offset < 0, Abs(offset / 60), Abs(JsRemainder(offset, 60)))
  }

  /** The hour part of the corrected label: whole hours of the offset's magnitude. */
  function OffsetHours(offset: int): nat { Abs(offset) / 60 }

  /** The minute part of the corrected label. */
  function OffsetMinutes(offset: int): (m: nat)
    ensures m < 60
  {
    Abs(offset) % 60
  }

  /** `formatTimezoneOffset` as evidently intended: hours and minutes split the offset's
      magnitude (see `TimezoneLabelRoundTrip`). */
  function TimezoneLabel(user: Option<UserData>): (text: string)
    ensures user.None? || user.value.utcOffset.None? ==> text == "UTC"
    ensures user.Some? && user.value.utcOffset.Some? ==> |text| >= 9 && text[..3] == "UTC"
  {
    if user.None? || user.value.utcOffset.None? then "UTC"
    else
      var offset := user.value.utcOffset.value;
      OffsetLabel(offset < 0, OffsetHours(offset), OffsetMinutes(offset))
  }

  /** Takes a `UTC±H…H:MM` label apart into its sign, hour digits and minute digits. */
  function SplitLabel(text: string): Option<(char, string, string)>
  {
    if |text| >= 9 && text[..3] == "UTC" && (text[3] == '+' || text[3] == '-') && text[|text| - 3] == ':' then
      Some((text[3], text[4..|text| - 3], text[|text| - 2..]))
    else None
  }

  /** Reads a `UTC±H…H:MM` label back into minutes. */
  function ParseOffset(text: string): (offset: Option<int>)
  {
    match SplitLabel(text)
    case None => None
    case Some((sign, hours, minutes)) =>
      var magnitude := 60 * Value(hours) + Value(minutes);
      Some(if sign == '-' then -magnitude else magnitude)
  }

  lemma {:induction false} SmallDecimal(n: nat)
    requires n < 100
    ensures |Decimal(n)| <= 2
  {
    if n >= 10 {
      assert Decimal(n) == Decimal(n / 10) + [DigitChar(n % 10)];
    }
  }

  /** Zero padding does not change the number a numeral denotes. */
  lemma PadTwoValue(s: string)
    requires |s| >= 1
    ensures Value(PadTwo(s)) == Value(s)
  {
    if |s| == 1 {
      var p := PadTwo(s);
      assert p[..|p| - 1] == "0";
      assert "0"[..0] == [];
      assert s[..0] == [];
    }
  }

  /** The corrected parts split the offset: sign times (60 hours + minutes) is the offset. */
  lemma PartsDenoteOffset(offset: int)
    ensures (if offset < 0 then -1 else 1) * (60 * OffsetHours(offset) + OffsetMinutes(offset)) == offset
    ensures 60 * OffsetHours(offset) + OffsetMinutes(offset) == Abs(offset)
  {
  }

  /** The parser takes a label apart where the label was put together. */
  lemma SplitComposed(c: char, hs: string, ms: string)
    requires c == '+' || c == '-'
    requires |hs| >= 2 && |ms| == 2
    ensures SplitLabel("UTC" + [c] + hs + ":" + ms) == Some((c, hs, ms))
  {
    var text := "UTC" + [c] + hs + ":" + ms;
    assert text[4..|text| - 3] == hs;
    assert text[|text| - 2..] == ms;
  }

  /** What the parser makes of a label it has split. */
  lemma ParseParts(text: string, c: char, hs: string, ms: string)
    requires SplitLabel(text) == Some((c, hs, ms))
    ensures var magnitude := 60 * Value(hs) + Value(ms);
            ParseOffset(text) == Some(if c == '-' then -magnitude else magnitude)
  {
  }

  /** A padded numeral denotes its number; below 100 it is exactly two digits long. */
  lemma PaddedNumeral(n: nat)
    ensures Value(PadTwo(Decimal(n))) == n && |PadTwo(Decimal(n))| >= 2
    ensures n < 100 ==> |PadTwo(Decimal(n))| == 2
  {
    DecimalValue(n);
    PadTwoValue(Decimal(n));
    if n < 100 {
      SmallDecimal(n);
    }
  }

  /** Any label with a minute part below 60 reads back as its sign times its minutes in all. */
  lemma LabelParts(negative: bool, h: nat, m: nat)
    requires m < 60
    ensures ParseOffset(OffsetLabel(negative, h, m)) == Some(if negative then -(60 * h + m) else 60 * h + m)
  {
    var c := if negative then '-' else '+';
    var hs, ms := PadTwo(Decimal(h)), PadTwo(Decimal(m));
    PaddedNumeral(h);
    PaddedNumeral(m);
    SplitComposed(c, hs, ms);
    ParseParts(OffsetLabel(negative, h, m), c, hs, ms);
  }

  /** A label whose parts split the offset's magnitude, signed as the offset, reads back as it. */
  lemma LabelOfParts(offset: int, h: nat, m: nat)
    requires m < 60 && 60 * h + m == Abs(offset)
    ensures ParseOffset(OffsetLabel(offset < 0, h, m)) == Some(offset)
  {
    LabelParts(offset < 0, h, m);
  }

  /** The corrected label reads back as the offset it was built from. */
  lemma LabelRoundTrip(offset: int)
    ensures ParseOffset(OffsetLabel(offset < 0, OffsetHours(offset), OffsetMinutes(offset))) == Some(offset)
  {
    PartsDenoteOffset(offset);
    LabelOfParts(offset, OffsetHours(offset), OffsetMinutes(offset));
  }

  /** The corrected label of a user with an offset reads back as that offset. */
  lemma TimezoneLabelRoundTrip(user: Option<UserData>)
    requires user.Some? && user.value.utcOffset.Some?
    ensures ParseOffset(TimezoneLabel(user)) == user.value.utcOffset
  {
    LabelRoundTrip(user.value.utcOffset.value);
  }

  /** Where the written hours go wrong: for a negative offset that is not a whole number of
      hours the floored quotient is one hour too far from zero; everywhere else the written
      parts are the corrected ones. */
  lemma AsWrittenHours(offset: int)
    ensures offset < 0 && offset % 60 != 0 ==> Abs(offset / 60) == OffsetHours(offset) + 1
    ensures offset >= 0 || offset % 60 == 0 ==> Abs(offset / 60) == OffsetHours(offset)
    ensures Abs(JsRemainder(offset, 60)) == OffsetMinutes(offset)
  {
  }

  /** The labels the example below needs. */
  lemma SmallLabels()
    ensures OffsetLabel(true, 6, 30) == "UTC-06:30" && OffsetLabel(true, 5, 30) == "UTC-05:30"
  {
    assert DigitChar(5) == '5' && DigitChar(6) == '6' && DigitChar(3) == '3' && DigitChar(0) == '0';
    assert Decimal(30) == Decimal(3) + [DigitChar(0)];
    assert Decimal(5) == "5" && Decimal(6) == "6" && Decimal(30) == "30";
  }

  /** The label of -330 minutes as written takes 6 hours and 30 minutes. */
  lemma AsWrittenParts()
    ensures TimezoneLabelAsWritten(Some(NoFields.(utcOffset := Some(-330)))) == OffsetLabel(true, 6, 30)
    ensures TimezoneLabel(Some(NoFields.(utcOffset := Some(-330)))) == OffsetLabel(true, 5, 30)
  {
    assert Abs(-330 / 60) == 6 && Abs(JsRemainder(-330, 60)) == 30;
    assert OffsetHours(-330) == 5 && OffsetMinutes(-330) == 30;
  }

  /** An offset of minus five and a half hours (-330 minutes) is labelled an hour off as
      written, and the label reads back as -390; the corrected label is right. */
  lemma AsWrittenMislabels()
    ensures TimezoneLabelAsWritten(Some(NoFields.(utcOffset := Some(-330)))) == "UTC-06:30"
    ensures ParseOffset(TimezoneLabelAsWritten(Some(NoFields.(utcOffset := Some(-330))))) == Some(-390)
    ensures TimezoneLabel(Some(NoFields.(utcOffset := Some(-330)))) == "UTC-05:30"
  {
    AsWrittenParts();
    SmallLabels();
    LabelParts(true, 6, 30);
  }
}
