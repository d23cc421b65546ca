/** The application store: mode, candidate cursor, like quota, the two
    preference sets, and the match and message lists, with the actions the
    screens call. Every failure (no likes left, unknown match or message id)
    is a silent no-op. Ids and clock readings are parameters. */
module AppStore {
  import opened Types
  import opened Matching
  import Mocks

  /** The free tier's daily like quota. */
  const DailyLikes: int := 10

  const DefaultDatingPreferences: Preferences := Preferences(
    PreferFemale, (25, 35), 25,
    Some(["English", "Spanish"]), Some(["Bachelor's degree or higher"]), None, None,
    Some(["dating", "relationship"]), None, None)

  const DefaultNetworkingPreferences: Preferences := Preferences(
    PreferAll, (21, 65), 50,
    Some(["English", "Spanish", "Mandarin"]), None, Some(["Technology", "Design", "Marketing"]),
    Some(["Product Manager", "Designer", "Developer"]), None,
    Some(["Mid-level", "Senior"]), Some(["Mentorship", "Collaboration"]))

  // ----- preference merges -----

  /** A partial preference set: `None` is a key the caller did not supply. */
  datatype PreferencesPatch = PreferencesPatch(
    gender: Option<GenderPreference>,
    ageRange: Option<(int, int)>,
    distance: Option<int>,
    languages: Option<seq<string>>,
    education: Option<seq<string>>,
    industries: Option<seq<string>>,
    jobTitles: Option<seq<string>>,
    relationshipGoals: Option<seq<string>>,
    experienceLevels: Option<seq<string>>,
    connectionGoals: Option<seq<string>>)

  const NoChanges: PreferencesPatch := PreferencesPatch(None, None, None, None, None, None, None, None, None, None)

  /** The later of two optional values: the second when present. */
  function Later<T>(first: Option<T>, second: Option<T>): Option<T>
  {
    if second.Some? then second else first
  }

  /** `{ ...p, ...patch }`: every key the patch supplies takes the
      patch's value, every other key keeps its value. */
  function MergePreferences(p: Preferences, patch: PreferencesPatch): (r: Preferences)
    ensures Supplied(r.gender, p.gender, patch.gender)
    ensures Supplied(r.ageRange, p.ageRange, patch.ageRange)
    ensures Supplied(r.distance, p.distance, patch.distance)
    ensures SuppliedOpt(r.languages, p.languages, patch.languages)
    ensures SuppliedOpt(r.education, p.education, patch.education)
    ensures SuppliedOpt(r.industries, p.industries, patch.industries)
    ensures SuppliedOpt(r.jobTitles, p.jobTitles, patch.jobTitles)
    ensures SuppliedOpt(r.relationshipGoals, p.relationshipGoals, patch.relationshipGoals)
    ensures SuppliedOpt(r.experienceLevels, p.experienceLevels, patch.experienceLevels)
    ensures SuppliedOpt(r.connectionGoals, p.connectionGoals, patch.connectionGoals)
  {
    Preferences(
      Pick(p.gender, patch.gender),
      Pick(p.ageRange, patch.ageRange),
      Pick(p.distance, patch.distance),
      Later(p.languages, patch.languages),
      Later(p.education, patch.education),
      Later(p.industries, patch.industries),
      Later(p.jobTitles, patch.jobTitles),
      Later(p.relationshipGoals, patch.relationshipGoals),
      Later(p.experienceLevels, patch.experienceLevels),
      Later(p.connectionGoals, patch.connectionGoals))
  }

  /** A later patch wins over an earlier one, key by key. */
  function ThenPatch(first: PreferencesPatch, second: PreferencesPatch): PreferencesPatch
  {
    PreferencesPatch(
      Later(first.gender, second.gender),
      Later(first.ageRange, second.ageRange),
      Later(first.distance, second.distance),
      Later(first.languages, second.languages),
      Later(first.education, second.education),
      Later(first.industries, second.industries),
      Later(first.jobTitles, second.jobTitles),
      Later(first.relationshipGoals, second.relationshipGoals),
      Later(first.experienceLevels, second.experienceLevels),
      Later(first.connectionGoals, second.connectionGoals))
  }

  /** Merging nothing changes nothing; merging the same patch twice is merging
      it once; two merges in a row are one merge of the combined patch. */
  lemma MergeLaws(p: Preferences, a: PreferencesPatch, b: PreferencesPatch)
    ensures MergePreferences(p, NoChanges) == p
    ensures MergePreferences(MergePreferences(p, a), a) == MergePreferences(p, a)
    ensures MergePreferences(MergePreferences(p, a), b) == MergePreferences(p, ThenPatch(a, b))
  {
  }

  // ----- match and message lists -----

  /** `matches.find(m => m.id === id)`, as the position of the first match
      with that id. */
  function FindMatchIndex(matches: seq<Match>, id: string): (r: Option<nat>)
    ensures r.Some? ==> r.value < |matches| && matches[r.value].id == id
    ensures r.Some? ==> forall j :: 0 <= j < r.value ==> matches[j].id != id
    ensures r.None? <==> forall j :: 0 <= j < |matches| ==> matches[j].id != id
  {
    if |matches| == 0 then None
    else if matches[0].id == id then Some(0)
    else match FindMatchIndex(matches[1..], id)
      case None => None
      case Some(k) => Some(k + 1)
  }

  /** The map in `sendMessage`: every match with that id gets `lastMessageAt`
      set to `now`; nothing else changes. */
  function StampLastMessage(matches: seq<Match>, id: string, now: Timestamp): (r: seq<Match>)
    ensures |r| == |matches|
    ensures forall i :: 0 <= i < |r| ==> r[i] == matches[i].(lastMessageAt := r[i].lastMessageAt)
    ensures forall i :: 0 <= i < |r| ==>
      r[i].lastMessageAt == (if matches[i].id == id then Some(now) else matches[i].lastMessageAt)
  {
    if |matches| == 0 then []
    else
      var m := matches[0];
      [if m.id == id then m.(lastMessageAt := Some(now)) else m] + StampLastMessage(matches[1..], id, now)
  }

  /** The map in `markMessageAsRead`: every message with that id is marked
      read; nothing else changes. */
  function MarkRead(messages: seq<Message>, id: string): (r: seq<Message>)
    ensures |r| == |messages|
    ensures forall i :: 0 <= i < |r| ==> r[i] == messages[i].(isRead := r[i].isRead)
    ensures forall i :: 0 <= i < |r| ==> r[i].isRead == (messages[i].isRead || messages[i].id == id)
  {
    if |messages| == 0 then []
    else
      var m := messages[0];
      [if m.id == id then m.(isRead := true) else m] + MarkRead(messages[1..], id)
  }

  /** Marking read twice is marking read once, and an id no message has
      leaves the list as it was. */
  lemma MarkReadIdempotent(messages: seq<Message>, id: string)
    ensures MarkRead(MarkRead(messages, id), id) == MarkRead(messages, id)
    ensures (forall j :: 0 <= j < |messages| ==> messages[j].id != id) ==> MarkRead(messages, id) == messages
  {
    var once := MarkRead(messages, id);
    var twice := MarkRead(once, id);
    forall i | 0 <= i < |messages| ensures twice[i] == once[i] {
      assert once[i].id == messages[i].id;
    }
    if forall j :: 0 <= j < |messages| ==> messages[j].id != id {
      forall i | 0 <= i < |messages| ensures once[i] == messages[i] {
      }
    }
  }

  /** Stamping twice with the same id keeps only the later time. */
  lemma StampTwice(matches: seq<Match>, id: string, t1: Timestamp, t2: Timestamp)
    ensures StampLastMessage(StampLastMessage(matches, id, t1), id, t2) == StampLastMessage(matches, id, t2)
  {
    var once := StampLastMessage(matches, id, t1);
    var twice := StampLastMessage(once, id, t2);
    var direct := StampLastMessage(matches, id, t2);
    forall i | 0 <= i < |matches| ensures twice[i] == direct[i] {
      assert once[i].id == matches[i].id;
    }
  }

  /** The record `likeUser` appends. */
  function NewMatch(id: string, matchedUserId: string, mode: AppMode, item: Option<InteractionItem>, now: Timestamp): (m: Match)
    ensures m.status == Pending && m.userId == CurrentUserId
    ensures m.matchedUserId == matchedUserId && m.matchType == mode
  {
    Match(id, CurrentUserId, matchedUserId, mode, Pending, item, now, None)
  }

  /** The record `sendMessage` appends, addressed to the match's candidate. */
  function NewMessage(id: string, target: Match, content: string, contentType: ContentType, mediaUrl: Option<string>, now: Timestamp): (msg: Message)
    ensures msg.matchId == target.id && msg.senderId == CurrentUserId && msg.receiverId == target.matchedUserId
    ensures !msg.isRead && msg.content == content
  {
    Message(id, target.id, CurrentUserId, target.matchedUserId, content, contentType, mediaUrl, false, now)
  }

  // ----- the store -----

  class Store {
    var appMode: AppMode
    var theme: Theme
    const users: seq<User>
    var currentUserIndex: nat
    var remainingLikes: int
    var mostCompatibleUserId: Option<string>
    var datingPreferences: Preferences
    var networkingPreferences: Preferences
    var matches: seq<Match>
    var messages: seq<Message>

    /** The cursor always points at a candidate. */
    ghost predicate Valid()
      reads this
    {
      |users| > 0 && currentUserIndex < |users|
    }

    /** The preference set of the current mode. */
    function ActivePreferences(): (prefs: Preferences)
      reads this
      ensures appMode == Dating ==> prefs == datingPreferences
      ensures appMode == Networking ==> prefs == networkingPreferences
    {
      if appMode == Dating then datingPreferences else networkingPreferences
    }

    /** The initial state: dating mode, dark theme, the five candidates with
        the cursor on the first, a full like quota, the default preference
        sets and the fixture matches and messages. */
    constructor ()
      ensures Valid()
      ensures appMode == Dating && theme == Dark
      ensures users == Mocks.Users && currentUserIndex == 0
      ensures remainingLikes == DailyLikes && mostCompatibleUserId == Some("3")
      ensures datingPreferences == DefaultDatingPreferences
      ensures networkingPreferences == DefaultNetworkingPreferences
      ensures matches == Mocks.Matches && messages == Mocks.Messages
    {
      appMode := Dating;
      theme := Dark;
      users := Mocks.Users;
      currentUserIndex := 0;
      remainingLikes := DailyLikes;
      mostCompatibleUserId := Some("3");
      datingPreferences := DefaultDatingPreferences;
      networkingPreferences := DefaultNetworkingPreferences;
      matches := Mocks.Matches;
      messages := Mocks.Messages;
    }

    method SetTheme(t: Theme)
      modifies this`theme
      ensures theme == t
    {
      theme := t;
    }

    /** Moves the cursor to the next qualifying candidate after the current
        one, circularly; with none it lands one place on. */
    method NextUser()
      requires Valid()
      modifies this`currentUserIndex
      ensures Valid()
      ensures currentUserIndex == ScanFrom(users, appMode, ActivePreferences(), (old(currentUserIndex) + 1) % |users|)
      ensures || MeetsPreferences(appMode, ActivePreferences(), users[currentUserIndex])
              || (currentUserIndex == (old(currentUserIndex) + 1) % |users| && NoneQualifies(users, appMode, ActivePreferences()))
    {
      var start := (currentUserIndex + 1) % |users|;
      var index, attempts := FindNext(users, appMode, ActivePreferences(), start);
      currentUserIndex := index;
    }

    /** Passing is moving on: the candidate id plays no part. */
    method PassUser(userId: string)
      requires Valid()
      modifies this`currentUserIndex
      ensures Valid()
      ensures currentUserIndex == ScanFrom(users, appMode, ActivePreferences(), (old(currentUserIndex) + 1) % |users|)
    {
      NextUser();
    }

    /** Puts the cursor on the first qualifying candidate, or on the first
        candidate when none qualifies. */
    method RefreshProfiles()
      requires Valid()
      modifies this`currentUserIndex
      ensures Valid()
      ensures currentUserIndex == ScanFrom(users, appMode, ActivePreferences(), 0)
      ensures || (MeetsPreferences(appMode, ActivePreferences(), users[currentUserIndex])
                  && forall j :: 0 <= j < currentUserIndex ==> !MeetsPreferences(appMode, ActivePreferences(), users[j]))
              || (currentUserIndex == 0 && NoneQualifies(users, appMode, ActivePreferences()))
    {
      var index, attempts := FindNext(users, appMode, ActivePreferences(), 0);
      currentUserIndex := index;
      forall j | 0 <= j < index ensures !MeetsPreferences(appMode, ActivePreferences(), users[j]) {
        assert Wrap(0, j, |users|) == j;
      }
    }

    /** With likes left: appends one pending match for `userId`, spends a
        like and moves on. Without: nothing changes. */
    method LikeUser(userId: string, item: Option<InteractionItem>, matchId: string, now: Timestamp)
      requires Valid()
      modifies this`matches, this`remainingLikes, this`currentUserIndex
      ensures Valid()
      ensures old(remainingLikes) <= 0 ==>
        matches == old(matches) && remainingLikes == old(remainingLikes) && currentUserIndex == old(currentUserIndex)
      ensures old(remainingLikes) > 0 ==>
        && matches == old(matches) + [NewMatch(matchId, userId, appMode, item, now)]
        && remainingLikes == old(remainingLikes) - 1
        && currentUserIndex == ScanFrom(users, appMode, ActivePreferences(), (old(currentUserIndex) + 1) % |users|)
    {
      if remainingLikes <= 0 {
        return;
      }
      var m := NewMatch(matchId, userId, appMode, item, now);
      matches := matches + [m];
      remainingLikes := remainingLikes - 1;
      NextUser();
    }

    /** On a known match: appends one unread message from the session user to
        the match's candidate and stamps the match. On an unknown id:
        nothing changes. The message's creation time and the match's stamp
        are two separate clock readings, `now` and `stampedAt`. */
    method SendMessage(matchId: string, content: string, contentType: ContentType, mediaUrl: Option<string>,
                       messageId: string, now: Timestamp, stampedAt: Timestamp)
      modifies this`messages, this`matches
      ensures FindMatchIndex(old(matches), matchId).None? ==>
        messages == old(messages) && matches == old(matches)
      ensures FindMatchIndex(old(matches), matchId).Some? ==>
        var m := old(matches)[FindMatchIndex(old(matches), matchId).value];
        && messages == old(messages) + [NewMessage(messageId, m, content, contentType, mediaUrl, now)]
        && matches == StampLastMessage(old(matches), matchId, stampedAt)
    {
      var found := FindMatchIndex(matches, matchId);
      if found.None? {
        return;
      }
      var msg := NewMessage(messageId, matches[found.value], content, contentType, mediaUrl, now);
      var updated := StampLastMessage(matches, matchId, stampedAt);
      messages := messages + [msg];
      matches := updated;
    }

    method MarkMessageAsRead(messageId: string)
      modifies this`messages
      ensures messages == MarkRead(old(messages), messageId)
    {
      messages := MarkRead(messages, messageId);
    }

    /** Restores the daily quota (the cursor is not rescanned). */
    method ResetLikes()
      modifies this`remainingLikes
      ensures remainingLikes == DailyLikes
    {
      remainingLikes := DailyLikes;
    }

    /** Merges into the dating preferences, then rescans from the start under
        the current mode's preferences. */
    method UpdateDatingPreferences(patch: PreferencesPatch)
      requires Valid()
      modifies this`datingPreferences, this`currentUserIndex
      ensures Valid()
      ensures datingPreferences == MergePreferences(old(datingPreferences), patch)
      ensures currentUserIndex == ScanFrom(users, appMode, ActivePreferences(), 0)
    {
      datingPreferences := MergePreferences(datingPreferences, patch);
      RefreshProfiles();
    }

    /** Merges into the networking preferences, then rescans from the start
        under the current mode's preferences. */
    method UpdateNetworkingPreferences(patch: PreferencesPatch)
      requires Valid()
      modifies this`networkingPreferences, this`currentUserIndex
      ensures Valid()
      ensures networkingPreferences == MergePreferences(old(networkingPreferences), patch)
      ensures currentUserIndex == ScanFrom(users, appMode, ActivePreferences(), 0)
    {
      networkingPreferences := MergePreferences(networkingPreferences, patch);
      RefreshProfiles();
    }

    /** Switches mode, resets the cursor to 0 and rescans under the new
        mode's preferences. */
    method SetAppMode(mode: AppMode)
      requires Valid()
      modifies this`appMode, this`currentUserIndex
      ensures Valid()
      ensures appMode == mode
      ensures currentUserIndex == ScanFrom(users, mode, ActivePreferences(), 0)
    {
      appMode := mode;
      currentUserIndex := 0;
      RefreshProfiles();
    }
  }

  // ----- the fixture -----

  /** With the default dating preferences a refresh lands on Emma, and moving
      on from Emma skips James (male) and lands on Sophia. */
  lemma DefaultDatingScan()
    ensures ScanFrom(Mocks.Users, Dating, DefaultDatingPreferences, 0) == 0
    ensures ScanFrom(Mocks.Users, Dating, DefaultDatingPreferences, (0 + 1) % |Mocks.Users|) == 2
  {
    assert MeetsPreferences(Dating, DefaultDatingPreferences, Mocks.Users[0]);
    assert !MeetsPreferences(Dating, DefaultDatingPreferences, Mocks.Users[1]);
    assert MeetsPreferences(Dating, DefaultDatingPreferences, Mocks.Users[2]);
    assert Scan(Mocks.Users, Dating, DefaultDatingPreferences, 1, 0)
        == Scan(Mocks.Users, Dating, DefaultDatingPreferences, 2, 1) == 2;
  }

  /** Olivia (index 4) is unverified, so in networking mode no preference set
      ever selects her: the scan can stop on her only as the no-match
      fallback of a scan that started on her. */
  lemma OliviaNeverQualifiesForNetworking(prefs: Preferences, start: nat)
    requires start < |Mocks.Users|
    ensures !MeetsPreferences(Networking, prefs, Mocks.Users[4])
    ensures ScanFrom(Mocks.Users, Networking, prefs, start) == 4 ==>
      start == 4 && NoneQualifies(Mocks.Users, Networking, prefs)
  {
    FailingCandidateOnlyAsFallback(Mocks.Users, Networking, prefs, start, 4);
  }

  /** With the default networking preferences, moving on from Michael skips
      Olivia and wraps round to Emma. */
  lemma DefaultNetworkingSkipsOlivia()
    ensures ScanFrom(Mocks.Users, Networking, DefaultNetworkingPreferences, (3 + 1) % |Mocks.Users|) == 0
  {
    assert !MeetsPreferences(Networking, DefaultNetworkingPreferences, Mocks.Users[4]);
    assert MeetsPreferences(Networking, DefaultNetworkingPreferences, Mocks.Users[0]);
    assert Scan(Mocks.Users, Networking, DefaultNetworkingPreferences, 4, 0)
        == Scan(Mocks.Users, Networking, DefaultNetworkingPreferences, 0, 1) == 0;
  }
}
