/** The candidate filter of the application store: the mode-specific
    preference predicate and the bounded circular scan that both `nextUser`
    and `refreshProfiles` run over the candidate list. */
module Matching {
  import opened Types

  datatype GenderPreference = PreferMale | PreferFemale | PreferAll

  /** One mode's filter settings. Only gender, ageRange and distance take part
      in the predicate; the multi-select lists are stored and merged but
      never consulted. */
  datatype Preferences = Preferences(
    gender: GenderPreference,
    ageRange: (int, int),
    distance: int,
    languages: Option<seq<string>>,
    education: Option<seq<string>>,
    industries: Option<seq<string>>,
    jobTitles: Option<seq<string>>,
    relationshipGoals: Option<seq<string>>,
    experienceLevels: Option<seq<string>>,
    connectionGoals: Option<seq<string>>)

  /** JavaScript truthiness of an optional number: absent and 0 are falsy. */
  predicate Truthy(n: Option<int>)
  {
    n.Some? && n.value != 0
  }

  predicate GenderAccepted(pref: GenderPreference, g: Gender)
  {
    match pref
    case PreferAll => true
    case PreferMale => g == Male
    case PreferFemale => g == Female
  }

  /** The test both scans apply to a candidate under the current mode. */
  predicate MeetsPreferences(mode: AppMode, prefs: Preferences, u: User)
    ensures MeetsPreferences(mode, prefs, u) ==> GenderAccepted(prefs.gender, u.gender)
    ensures MeetsPreferences(mode, prefs, u) ==>
      u.location.distance.Some? && u.location.distance.value != 0 && u.location.distance.value <= prefs.distance
    ensures MeetsPreferences(mode, prefs, u) && mode == Dating ==>
      u.age.Some? && u.age.value != 0 && prefs.ageRange.0 <= u.age.value <= prefs.ageRange.1
    ensures MeetsPreferences(mode, prefs, u) && mode == Networking ==> u.networkingProfile.isVerified
  {
    match mode
    case Dating =>
      && GenderAccepted(prefs.gender, u.gender)
      && Truthy(u.age) && prefs.ageRange.0 <= u.age.value <= prefs.ageRange.1
      && Truthy(u.location.distance) && u.location.distance.value <= prefs.distance
    case Networking =>
      && GenderAccepted(prefs.gender, u.gender)
      && Truthy(u.location.distance) && u.location.distance.value <= prefs.distance
      && u.networkingProfile.isVerified
  }

  /** A candidate without a (non-zero) distance never qualifies, and in dating
      mode neither does one without a (non-zero) age. */
  lemma FalsyFieldsFail(mode: AppMode, prefs: Preferences, u: User)
    ensures !Truthy(u.location.distance) ==> !MeetsPreferences(mode, prefs, u)
    ensures !Truthy(u.age) ==> !MeetsPreferences(Dating, prefs, u)
  {
  }

  /** Networking mode ignores age and the age range; dating mode ignores the
      networking verification flag. */
  lemma ModeIndependence(prefs: Preferences, u: User, age: Option<int>, range: (int, int), verified: bool)
    ensures MeetsPreferences(Networking, prefs.(ageRange := range), u.(age := age))
        == MeetsPreferences(Networking, prefs, u)
    ensures MeetsPreferences(Dating, prefs, u.(networkingProfile := u.networkingProfile.(isVerified := verified)))
        == MeetsPreferences(Dating, prefs, u)
  {
  }

  /** `looser` accepts every gender `tighter` does, a range containing its
      range, and at least its distance. */
  predicate AtLeastAsPermissive(looser: Preferences, tighter: Preferences)
  {
    && (looser.gender == PreferAll || looser.gender == tighter.gender)
    && looser.ageRange.0 <= tighter.ageRange.0
    && tighter.ageRange.1 <= looser.ageRange.1
    && tighter.distance <= looser.distance
  }

  /** Loosening preferences never excludes a candidate that qualified. */
  lemma RelaxingKeepsCandidates(mode: AppMode, looser: Preferences, tighter: Preferences, u: User)
    requires AtLeastAsPermissive(looser, tighter)
    ensures MeetsPreferences(mode, tighter, u) ==> MeetsPreferences(mode, looser, u)
  {
  }

  // ----- the scan -----

  /** Adding the modulus once does not change the remainder. */
  lemma ModShift(y: int, n: int)
    requires 0 <= y < n
    ensures (y + n) % n == y
  {
    var q := (y + n) / n;
    var r := (y + n) % n;
    assert y + n == q * n + r && 0 <= r < n;
    if q <= 0 {
      assert false;
    } else if q >= 2 {
      assert false;
    }
  }

  /** The position `j` places after `start` in a circular list of `n`,
      that is `(start + j) % n`. */
  function Wrap(start: nat, j: nat, n: nat): (r: nat)
    requires start < n && j <= n
    ensures r < n && r == (start + j) % n
  {
    if start + j < n then start + j else ModShift(start + j - n, n); start + j - n
  }

  /** The circular distance from `from` forward to `to` in a list of `n`. */
  function CircularOffset(from: nat, to: nat, n: nat): (k: nat)
    requires from < n && to < n
    ensures k < n && Wrap(from, k, n) == to
  {
    if from <= to then to - from else to + n - from
  }

  /** The scan as the source's loop runs it: at `index` after `attempts`
      failed tests, stop when the attempts are used up or the candidate
      qualifies, and otherwise move one place on, wrapping. */
  function Scan(users: seq<User>, mode: AppMode, prefs: Preferences, index: nat, attempts: nat): (r: nat)
    requires index < |users| && attempts <= |users|
    ensures r < |users|
    decreases |users| - attempts
  {
    if attempts == |users| || MeetsPreferences(mode, prefs, users[index]) then index
    else Scan(users, mode, prefs, (index + 1) % |users|, attempts + 1)
  }

  /** The scan started at `start`: the first qualifying candidate in circular
      order from `start`, or `start` itself when none qualifies. */
  function ScanFrom(users: seq<User>, mode: AppMode, prefs: Preferences, start: nat): (r: nat)
    requires start < |users|
  {
    Scan(users, mode, prefs, start, 0)
  }

  /** No candidate qualifies. */
  predicate NoneQualifies(users: seq<User>, mode: AppMode, prefs: Preferences)
  {
    forall i :: 0 <= i < |users| ==> !MeetsPreferences(mode, prefs, users[i])
  }

  /** The first `count` candidates in circular order from `start` all fail. */
  predicate SkippedFrom(users: seq<User>, mode: AppMode, prefs: Preferences, start: nat, count: nat)
    requires start < |users| && count <= |users|
  {
    forall j :: 0 <= j < count ==> !MeetsPreferences(mode, prefs, users[Wrap(start, j, |users|)])
  }

  lemma StepWraps(i: nat, n: nat)
    requires i < n
    ensures (i + 1) % n == if i + 1 < n then i + 1 else 0
  {
  }

  lemma {:induction false} ScanFromOffset(users: seq<User>, mode: AppMode, prefs: Preferences, start: nat, a: nat)
    requires start < |users| && a <= |users|
    requires SkippedFrom(users, mode, prefs, start, a)
    ensures var r := Scan(users, mode, prefs, Wrap(start, a, |users|), a);
      || (MeetsPreferences(mode, prefs, users[r]) && SkippedFrom(users, mode, prefs, start, CircularOffset(start, r, |users|)))
      || (r == start && SkippedFrom(users, mode, prefs, start, |users|))
    decreases |users| - a
  {
    var n := |users|;
    var idx := Wrap(start, a, n);
    if a < n {
      assert CircularOffset(start, idx, n) == a;
      if !MeetsPreferences(mode, prefs, users[idx]) {
        StepWraps(idx, n);
        assert (idx + 1) % n == Wrap(start, a + 1, n);
        ScanFromOffset(users, mode, prefs, start, a + 1);
      }
    }
  }

  /** Every index is reached from `start` by some offset below the length. */
  lemma OffsetsCoverAll(users: seq<User>, mode: AppMode, prefs: Preferences, start: nat)
    requires start < |users|
    requires SkippedFrom(users, mode, prefs, start, |users|)
    ensures NoneQualifies(users, mode, prefs)
  {
    forall i | 0 <= i < |users| ensures !MeetsPreferences(mode, prefs, users[i]) {
      var k := CircularOffset(start, i, |users|);
      assert Wrap(start, k, |users|) == i;
    }
  }

  /** The scan stops at the first qualifying candidate in circular order from
      `start` (which may be the candidate just before `start`, on the last
      attempt); when no candidate qualifies it ends where it started. */
  lemma ScanFromSpec(users: seq<User>, mode: AppMode, prefs: Preferences, start: nat)
    requires start < |users|
    ensures var r := ScanFrom(users, mode, prefs, start);
      || (MeetsPreferences(mode, prefs, users[r]) && SkippedFrom(users, mode, prefs, start, CircularOffset(start, r, |users|)))
      || (r == start && NoneQualifies(users, mode, prefs))
  {
    assert Wrap(start, 0, |users|) == start;
    ScanFromOffset(users, mode, prefs, start, 0);
    var r := ScanFrom(users, mode, prefs, start);
    if !MeetsPreferences(mode, prefs, users[r]) {
      OffsetsCoverAll(users, mode, prefs, start);
    }
  }

  /** When any candidate qualifies, the scan lands on a qualifying one. */
  lemma ScanFindsQualifier(users: seq<User>, mode: AppMode, prefs: Preferences, start: nat)
    requires start < |users|
    requires !NoneQualifies(users, mode, prefs)
    ensures MeetsPreferences(mode, prefs, users[ScanFrom(users, mode, prefs, start)])
  {
    ScanFromSpec(users, mode, prefs, start);
  }

  /** A candidate that fails the predicate is the scan's result only when the
      scan started on it and nothing qualifies. */
  lemma FailingCandidateOnlyAsFallback(users: seq<User>, mode: AppMode, prefs: Preferences, start: nat, i: nat)
    requires start < |users| && i < |users|
    requires !MeetsPreferences(mode, prefs, users[i])
    ensures ScanFrom(users, mode, prefs, start) == i ==> i == start && NoneQualifies(users, mode, prefs)
  {
    ScanFromSpec(users, mode, prefs, start);
  }

  /** The loop of `nextUser` and `refreshProfiles` (they are the same loop,
      started at different places): returns the index it stops at and the
      number of failed tests, so the predicate is tested at most |users|
      times. */
  method FindNext(users: seq<User>, mode: AppMode, prefs: Preferences, start: nat) returns (index: nat, attempts: nat)
    requires start < |users|
    ensures index == ScanFrom(users, mode, prefs, start)
    ensures index < |users| && attempts <= |users|
    ensures index == Wrap(start, attempts, |users|)
    ensures attempts < |users| ==> MeetsPreferences(mode, prefs, users[index])
    ensures attempts == |users| ==> index == start && NoneQualifies(users, mode, prefs)
    ensures SkippedFrom(users, mode, prefs, start, attempts)
  {
    var n := |users|;
    index, attempts := start, 0;
    while attempts < n
      invariant attempts <= n && index == Wrap(start, attempts, n)
      invariant Scan(users, mode, prefs, index, attempts) == ScanFrom(users, mode, prefs, start)
      invariant SkippedFrom(users, mode, prefs, start, attempts)
      decreases n - attempts
    {
      if MeetsPreferences(mode, prefs, users[index]) {
        break;
      }
      StepWraps(index, n);
      index := (index + 1) % n;
      attempts := attempts + 1;
    }
    if attempts == n {
      OffsetsCoverAll(users, mode, prefs, start);
    }
  }
}
