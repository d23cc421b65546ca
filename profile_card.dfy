/** The profile card of the discover screen: a cursor over the candidate's
    photos moved by the previous/next areas and the indicator dots, the
    details toggle, and the targets a comment refers to. */
module ProfileCard {
  import opened Types
  import opened Text
  import opened Matching
  import Mocks
  import AppStore

  // ----- the photo cursor -----

  /** The next area moves on one photo unless the cursor is on the last. */
  function NextIndex(i: nat, count: nat): (r: nat)
    ensures i < count ==> r < count
    ensures r == i || r == i + 1
    ensures r == i + 1 <==> i + 1 < count
  {
    if i + 1 < count then i + 1 else i
  }

  /** The previous area moves back one photo unless the cursor is on the
      first. */
  function PrevIndex(i: nat): (r: nat)
    ensures r <= i
    ensures r == i <==> i == 0
  {
    if i > 0 then i - 1 else i
  }

  /** Next then previous returns to the same photo when next moved; previous
      then next returns when previous moved. */
  lemma NextPrevInverse(i: nat, count: nat)
    ensures NextIndex(i, count) != i ==> PrevIndex(NextIndex(i, count)) == i
    ensures i < count && PrevIndex(i) != i ==> NextIndex(PrevIndex(i), count) == i
  {
  }

  /** `k` presses of the next area. */
  function NextTimes(i: nat, count: nat, k: nat): nat
  {
    if k == 0 then i else NextIndex(NextTimes(i, count, k - 1), count)
  }

  /** Pressing next `k` times from a valid photo advances `k` photos but
      stops on the last one. */
  lemma {:induction false} NextTimesStopsAtLast(i: nat, count: nat, k: nat)
    requires i < count
    ensures NextTimes(i, count, k) == if i + k < count then i + k else count - 1
  {
    if k > 0 {
      NextTimesStopsAtLast(i, count, k - 1);
    }
  }

  // ----- comment targets -----

  /** The item a comment on the photo under the cursor refers to. */
  function PhotoTarget(photos: seq<Photo>, i: nat): (item: InteractionItem)
    requires i < |photos|
    ensures item.kind == PhotoItem && item.comment == None
    ensures item.id == Some(photos[i].id)
  {
    InteractionItem(PhotoItem, Some(photos[i].id), None)
  }

  /** The item a comment on the prompt at `index` refers to: the index in
      decimal. */
  function PromptTarget(index: nat): (item: InteractionItem)
    ensures item.kind == PromptItem && item.comment == None && item.id.Some?
  {
    InteractionItem(PromptItem, Some(IntToString(index)), None)
  }

  /** A comment target names exactly one prompt (the index reads back from
      it) and is never mistaken for a photo target. */
  lemma TargetsIdentify(photos: seq<Photo>, i: nat, p: nat, q: nat)
    requires i < |photos|
    ensures ParseInt(PromptTarget(p).id.value) == p
    ensures PromptTarget(p) == PromptTarget(q) ==> p == q
    ensures PromptTarget(p) != PhotoTarget(photos, i)
  {
    IntRoundTrip(p);
    IntToStringInjective(p, q);
  }

  // ----- the card -----

  /** The card's state. `user` is the candidate it shows, which the discover
      screen replaces as the cursor of the store moves. */
  class Card {
    var user: User
    var currentPhotoIndex: nat
    var showDetails: bool

    /** The cursor is on a photo (or at 0 for a candidate without photos). */
    ghost predicate Valid()
      reads this
    {
      currentPhotoIndex == 0 || currentPhotoIndex < |user.photos|
    }

    constructor (u: User)
      ensures Valid() && user == u && currentPhotoIndex == 0 && !showDetails
    {
      user := u;
      currentPhotoIndex := 0;
      showDetails := false;
    }

    method NextPhoto()
      requires Valid()
      modifies this`currentPhotoIndex
      ensures Valid()
      ensures currentPhotoIndex == NextIndex(old(currentPhotoIndex), |user.photos|)
    {
      if currentPhotoIndex + 1 < |user.photos| {
        currentPhotoIndex := currentPhotoIndex + 1;
      }
    }

    method PrevPhoto()
      requires Valid()
      modifies this`currentPhotoIndex
      ensures Valid()
      ensures currentPhotoIndex == PrevIndex(old(currentPhotoIndex))
    {
      if currentPhotoIndex > 0 {
        currentPhotoIndex := currentPhotoIndex - 1;
      }
    }

    /** One dot is drawn per photo, so a dot press always names a photo. */
    method PressIndicator(index: nat)
      requires index < |user.photos|
      modifies this`currentPhotoIndex
      ensures Valid() && currentPhotoIndex == index
    {
      currentPhotoIndex := index;
    }

    /** Flips the details panel and returns the scroll offset requested:
        300 when it opens, 0 when it closes. */
    method ToggleDetails() returns (scrollY: int)
      modifies this`showDetails
      ensures showDetails == !old(showDetails)
      ensures scrollY == (if showDetails then 300 else 0)
    {
      showDetails := !showDetails;
      scrollY := if showDetails then 300 else 0;
    }

    /** The item the comment button sends for the photo under the cursor. */
    method CommentOnPhoto() returns (item: InteractionItem)
      requires Valid() && |user.photos| > 0
      ensures item == PhotoTarget(user.photos, currentPhotoIndex)
    {
      item := PhotoTarget(user.photos, currentPhotoIndex);
    }

    /** The discover screen as written hands the card a new candidate
        without remounting it, so the cursor carries over. */
    method ReceiveUserAsWritten(u: User)
      modifies this`user
      ensures user == u
      ensures currentPhotoIndex == old(currentPhotoIndex) && showDetails == old(showDetails)
    {
      user := u;
    }

    /** A new candidate starts at the first photo with the details closed,
        as a card keyed by the candidate's id would. */
    method ReceiveUser(u: User)
      modifies this
      ensures Valid()
      ensures user == u && currentPhotoIndex == 0 && !showDetails
    {
      user := u;
      currentPhotoIndex := 0;
      showDetails := false;
    }
  }

  /** With the default dating preferences, passing on Sophia while her
      third photo is shown moves the store to Olivia, who has two photos:
      the cursor carried over by `ReceiveUserAsWritten` points past her
      last photo, and drawing or commenting on it reads a missing photo. */
  lemma StaleCursorAfterPass()
    ensures ScanFrom(Mocks.Users, Dating, AppStore.DefaultDatingPreferences, (2 + 1) % |Mocks.Users|) == 4
    ensures 2 < |Mocks.Users[2].photos| && |Mocks.Users[4].photos| <= 2
  {
    assert !MeetsPreferences(Dating, AppStore.DefaultDatingPreferences, Mocks.Users[3]);
    assert MeetsPreferences(Dating, AppStore.DefaultDatingPreferences, Mocks.Users[4]);
    assert Scan(Mocks.Users, Dating, AppStore.DefaultDatingPreferences, 3, 0)
        == Scan(Mocks.Users, Dating, AppStore.DefaultDatingPreferences, 4, 1) == 4;
  }
}
