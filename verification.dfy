/** The verification screen: two buttons that request the next rungs of the
    verification ladder, their completion markers, the status headline, and
    the simulated request that writes the new status into the session user
    after a delay. `status` below is `user?.verificationStatus`: `None` when
    there is no session user. */
module Verification {
  import opened Types
  import AuthStore

  /** A button can be pressed when it is neither disabled nor loading. */
  predicate Pressable(disabled: bool, loading: bool)
  {
    !(disabled || loading)
  }

  /** The identity button is disabled from the Verified rung up. */
  predicate IdentityButtonDisabled(status: Option<VerificationStatus>)
    ensures IdentityButtonDisabled(status) <==> status.Some? && VerificationRank(status.value) >= 2
  {
    status == Some(Verified) || status == Some(ProfessionallyVerified)
  }

  /** The professional button is enabled on the Verified rung only, and
      disabled without a user. */
  predicate ProfessionalButtonDisabled(status: Option<VerificationStatus>)
    ensures !ProfessionalButtonDisabled(status) <==> status.Some? && VerificationRank(status.value) == 2
  {
    status != Some(Verified)
  }

  /** The identity marker shows from the Verified rung up. */
  predicate IdentityComplete(status: Option<VerificationStatus>)
    ensures IdentityComplete(status) <==> status.Some? && VerificationRank(status.value) >= 2
  {
    status == Some(Verified) || status == Some(ProfessionallyVerified)
  }

  /** The professional marker shows on the top rung only. */
  predicate ProfessionalComplete(status: Option<VerificationStatus>)
    ensures ProfessionalComplete(status) <==> status.Some? && VerificationRank(status.value) == 3
  {
    status == Some(ProfessionallyVerified)
  }

  /** The status a press requests from `status`, if any button for it is
      pressable: the identity button asks for Verified, the professional
      button for ProfessionallyVerified. */
  function Requestable(status: Option<VerificationStatus>, loading: bool): (r: set<VerificationStatus>)
    ensures r <= {Verified, ProfessionallyVerified}
    ensures loading ==> r == {}
  {
    (if Pressable(IdentityButtonDisabled(status), loading) then {Verified} else {})
    + (if Pressable(ProfessionalButtonDisabled(status), loading) then {ProfessionallyVerified} else {})
  }

  /** The screen climbs the ladder one rung at a time: professional
      verification is requested only from Verified, identity verification
      only below it, never both at once, and nothing once at the top. */
  lemma LadderSteps(status: Option<VerificationStatus>, loading: bool)
    ensures ProfessionallyVerified in Requestable(status, loading) <==> !loading && status == Some(Verified)
    ensures Verified in Requestable(status, loading) <==>
      !loading && (status.None? || status.value == Unverified || status.value == Basic)
    ensures |Requestable(status, loading)| <= 1
    ensures status == Some(ProfessionallyVerified) ==> Requestable(status, loading) == {}
  {
  }

  /** The identity marker shows exactly when its button is disabled, and the
      professional marker only alongside the identity marker. */
  lemma MarkersMatchButtons(status: Option<VerificationStatus>)
    ensures IdentityComplete(status) <==> IdentityButtonDisabled(status)
    ensures ProfessionalComplete(status) ==> IdentityComplete(status) && ProfessionalButtonDisabled(status)
  {
  }

  /** The headline `renderVerificationStatus` shows for each status: only
      the top two rungs are called verified in full. */
  function Headline(status: VerificationStatus): (title: string)
    ensures |title| > 0
    ensures VerificationRank(status) >= 2 <==> title in {"Fully Verified", "Professionally Verified"}
  {
    match status
    case Unverified => "Not Verified"
    case Basic => "Basic Verification"
    case Verified => "Fully Verified"
    case ProfessionallyVerified => "Professionally Verified"
  }

  /** Every status has its own headline. */
  lemma HeadlinesDistinct(a: VerificationStatus, b: VerificationStatus)
    ensures Headline(a) == Headline(b) ==> a == b
  {
  }

  /** The screen's local state: the loading flag, and the request the timer
      will complete together with whether a user was present when the
      button was pressed (the callback tests the user it captured then). */
  class Screen {
    var loading: bool
    var pending: Option<VerificationStatus>
    var userWasPresent: bool

    ghost predicate Valid()
      reads this
    {
      pending.Some? ==> loading
    }

    constructor ()
      ensures Valid() && !loading && pending == None
    {
      loading := false;
      pending := None;
      userWasPresent := false;
    }

    /** A press: sets loading and starts the timer. */
    method HandleVerify(auth: AuthStore.Store, status: VerificationStatus)
      requires Valid() && !loading
      modifies this
      ensures Valid() && loading && pending == Some(status)
      ensures userWasPresent == auth.user.Some?
    {
      loading := true;
      pending := Some(status);
      userWasPresent := auth.user.Some?;
    }

    /** The timer fires: with a user captured, writes the status and clears
        loading; without one, nothing happens and loading stays set. */
    method TimerFires(auth: AuthStore.Store)
      requires Valid() && pending.Some?
      modifies this`loading, this`pending, auth`user
      ensures Valid() && pending == None
      ensures old(userWasPresent) ==> !loading
      ensures old(userWasPresent) && old(auth.user).Some? ==>
        auth.user == Some(old(auth.user).value.(verificationStatus := old(pending).value))
      ensures old(auth.user).None? ==> auth.user == None
      ensures !old(userWasPresent) ==> loading && auth.user == old(auth.user)
    {
      var status := pending.value;
      pending := None;
      if userWasPresent {
        auth.UpdateUser(AuthStore.StatusPatch(status));
        AuthStore.MergeUserLaws(if old(auth.user).Some? then old(auth.user).value else AuthStore.DemoUser,
          AuthStore.DemoUser, AuthStore.StatusPatch(status), status, AuthStore.DemoUser.premium);
        loading := false;
      }
    }
  }

  /** A press made with no session user leaves the screen loading for
      good: the timer writes nothing and does not clear loading, so
      neither button can be pressed again, whatever the status becomes. */
  method StuckWithoutUser(auth: AuthStore.Store, requested: VerificationStatus, later: Option<VerificationStatus>)
    returns (s: Screen)
    requires auth.user.None?
    modifies auth
    ensures fresh(s) && s.loading && s.pending == None
    ensures auth.user == None
    ensures Requestable(later, s.loading) == {}
  {
    s := new Screen();
    s.HandleVerify(auth, requested);
    s.TimerFires(auth);
  }
}
