/** A row of the matches list: the avatar picked from the matched user's
    photos, the time since the last message in minutes, hours or days, and
    the one-line preview. */
module MatchCard {
  import opened Types
  import opened Text

  const MinuteMs: int := 60000
  const HourMs: int := 60 * MinuteMs
  const DayMs: int := 24 * HourMs

  // ----- the last-message time -----

  /** Elapsed time rounded down to the largest unit below its next unit. */
  datatype Elapsed = Minutes(m: int) | Hours(h: int) | Days(d: int)
  {
    /** The number of whole units. */
    function Amount(): int
    {
      match this
      case Minutes(m) => m
      case Hours(h) => h
      case Days(d) => d
    }
  }

  /** Whole hours are whole minutes counted in sixties, and whole days
      whole hours counted in twenty-fours. */
  lemma FloorsCompose(a: int)
    ensures a / MinuteMs / 60 == a / HourMs
    ensures a / HourMs / 24 == a / DayMs
  {
  }

  /** Flooring by a positive unit lands on the last multiple of the unit
      at or below `a`. */
  lemma FloorBounds(a: int, u: int)
    requires u > 0
    ensures (a / u) * u <= a < (a / u + 1) * u
  {
  }

  /** The bucket the time column uses for `diffMs` milliseconds (negative
      when the timestamp lies in the future): minutes below an hour, hours
      below a day, days otherwise, each rounded down. */
  function Bucket(diffMs: int): (b: Elapsed)
    ensures b.Minutes? <==> diffMs < HourMs
    ensures b.Hours? <==> HourMs <= diffMs < DayMs
    ensures b.Days? <==> DayMs <= diffMs
    ensures b.Minutes? ==> b.m * MinuteMs <= diffMs < (b.m + 1) * MinuteMs
    ensures b.Hours? ==> 1 <= b.h < 24 && b.h * HourMs <= diffMs < (b.h + 1) * HourMs
    ensures b.Days? ==> 1 <= b.d && b.d * DayMs <= diffMs < (b.d + 1) * DayMs
  {
    var mins := diffMs / MinuteMs;
    var hours := mins / 60;
    var days := hours / 24;
    FloorsCompose(diffMs);
    FloorBounds(diffMs, MinuteMs);
    FloorBounds(diffMs, HourMs);
    FloorBounds(diffMs, DayMs);
    if mins < 60 then Minutes(mins)
    else if hours < 24 then Hours(hours)
    else Days(days)
  }

  /** The column text: the number of units, then the unit's letter. */
  function Render(b: Elapsed): (s: string)
    ensures |s| >= 2
    ensures s[|s| - 1] == 'm' <==> b.Minutes?
    ensures s[|s| - 1] == 'h' <==> b.Hours?
    ensures s[|s| - 1] == 'd' <==> b.Days?
    ensures s[..|s| - 1] == IntToString(b.Amount())
  {
    match b
    case Minutes(m) => IntToString(m) + "m"
    case Hours(h) => IntToString(h) + "h"
    case Days(d) => IntToString(d) + "d"
  }

  /** Different buckets read differently: the unit letter tells the unit and
      the number reads back. */
  lemma RenderInjective(a: Elapsed, b: Elapsed)
    ensures Render(a) == Render(b) ==> a == b
  {
    if Render(a) == Render(b) {
      var sa, sb := Render(a), Render(b);
      assert sa[|sa| - 1] == sb[|sb| - 1];
      IntToStringInjective(a.Amount(), b.Amount());
    }
  }

  /** The time column: empty without a last message, otherwise the bucket
      of the time since it. */
  function FormatLastActive(lastMessageAt: Option<Timestamp>, now: Timestamp): (s: string)
    ensures lastMessageAt.None? <==> s == []
    ensures lastMessageAt.Some? ==> s == Render(Bucket(now - lastMessageAt.value))
  {
    if lastMessageAt.None? then [] else Render(Bucket(now - lastMessageAt.value))
  }

  /** Ninety minutes after the last message the column reads "1h"; a message
      stamped one millisecond in the future reads "-1m". */
  lemma FormatExamples(t: Timestamp)
    ensures FormatLastActive(Some(t), t + 90 * MinuteMs) == "1h"
    ensures FormatLastActive(Some(t + 1), t) == "-1m"
  {
  }

  // ----- the avatar -----

  /** The position of the first profile photo. */
  function FirstProfile(photos: seq<Photo>): (r: Option<nat>)
    ensures r.Some? ==> r.value < |photos| && photos[r.value].isProfile
    ensures r.Some? ==> forall j :: 0 <= j < r.value ==> !photos[j].isProfile
    ensures r.None? <==> forall j :: 0 <= j < |photos| ==> !photos[j].isProfile
  {
    if photos == [] then None
    else if photos[0].isProfile then Some(0)
    else
      var rest := FirstProfile(photos[1..]);
      if rest.Some? then Some(rest.value + 1) else None
  }

  /** The avatar: the first profile photo, else the first photo; no photo
      at all only for a user without photos. */
  function ProfilePhoto(photos: seq<Photo>): (p: Option<Photo>)
    ensures p.Some? <==> |photos| > 0
    ensures p.Some? ==> p.value in photos
    ensures (exists j :: 0 <= j < |photos| && photos[j].isProfile) ==> p.Some? && p.value.isProfile
    ensures |photos| > 0 && (forall j :: 0 <= j < |photos| ==> !photos[j].isProfile) ==> p == Some(photos[0])
  {
    var i := FirstProfile(photos);
    if i.Some? then Some(photos[i.value])
    else if |photos| > 0 then Some(photos[0])
    else None
  }

  // ----- the preview -----

  const DatingPreview: string := "You matched on dating"
  const NetworkingPreview: string := "You connected for networking"

  /** The match opened with a non-empty comment. */
  predicate HasComment(m: Match)
  {
    m.interactionItem.Some? && m.interactionItem.value.comment.Some? && |m.interactionItem.value.comment.value| > 0
  }

  /** The preview line: the opening comment when there is a non-empty one,
      otherwise a line naming the kind of match. */
  function PreviewText(m: Match): (s: string)
    ensures |s| > 0
    ensures HasComment(m) ==> s == m.interactionItem.value.comment.value
    ensures !HasComment(m) ==> s == (if m.matchType == Dating then DatingPreview else NetworkingPreview)
  {
    if HasComment(m) then m.interactionItem.value.comment.value
    else if m.matchType == Dating then DatingPreview
    else NetworkingPreview
  }

  /** A like without a comment (the discover screen's plain like) previews
      as the kind of match; the fallback line depends on nothing else. */
  lemma UncommentedPreview(m: Match, item: Option<InteractionItem>)
    requires item.None? || item.value.comment.None?
    ensures PreviewText(m.(interactionItem := item)) == PreviewText(m.(interactionItem := None))
    ensures PreviewText(m.(interactionItem := item)) in {DatingPreview, NetworkingPreview}
  {
  }

  /** The matched user's verification badge shows on every rung above the
      bottom one. */
  predicate ShowsVerificationBadge(u: User)
    ensures ShowsVerificationBadge(u) <==> VerificationRank(u.verificationStatus) > 0
  {
    u.verificationStatus != Unverified
  }
}
