/** The subscription screen: one card per plan, the plan the user has
    selected, the label of the subscribe button, and the subscription itself,
    which writes an active premium record expiring thirty days on. */
module Subscription {
  import opened Types
  import AuthStore

  /** The plans in the order the screen lists them. */
  const Plans: seq<PremiumTier> := [Free, DatingTier, NetworkingTier]

  /** Thirty days in milliseconds. */
  const ThirtyDaysMs: int := 30 * 24 * 60 * 60 * 1000

  const ContinueLabel: string := "Continue with Current Plan"
  const SubscribeLabel: string := "Subscribe Now"

  /** The plan selected when the screen opens: the user's own tier, or the
      free plan without a user (a tier name is never empty, so the
      fallback applies only to a missing user). */
  function InitialTier(user: Option<User>): (t: PremiumTier)
    ensures user.Some? ==> t == user.value.premium.tier
    ensures user.None? ==> t == Free
  {
    if user.Some? then user.value.premium.tier else Free
  }

  /** The title of a plan card: the paid plans carry the brand name. */
  function PlanTitle(t: PremiumTier): (title: string)
    ensures |title| >= 4
    ensures t != Free <==> title[..4] == "Link"
  {
    match t
    case Free => assert "Free"[..4][0] != "Link"[0]; "Free"
    case DatingTier => "Link+"
    case NetworkingTier => "Link Pro"
  }

  /** What a plan card shows besides its price and features. */
  datatype PlanCard = PlanCard(tier: PremiumTier, title: string, isPopular: bool, isSelected: bool)

  /** The cards for the current selection: one per plan, in order, with
      exactly the selected plan marked and only the dating plan flagged
      popular. */
  function Cards(selected: PremiumTier): (cards: seq<PlanCard>)
    ensures |cards| == |Plans|
    ensures forall i :: 0 <= i < |cards| ==> cards[i].tier == Plans[i] && cards[i].title == PlanTitle(Plans[i])
    ensures forall i :: 0 <= i < |cards| ==> (cards[i].isSelected <==> Plans[i] == selected)
    ensures forall i :: 0 <= i < |cards| ==> (cards[i].isPopular <==> Plans[i] == DatingTier)
  {
    seq(|Plans|, i requires 0 <= i < |Plans| =>
      PlanCard(Plans[i], PlanTitle(Plans[i]), Plans[i] == DatingTier, Plans[i] == selected))
  }

  /** Every plan appears exactly once, so exactly one card is selected and
      one is flagged popular; no two cards share a title. */
  lemma CardsWellFormed(selected: PremiumTier)
    ensures exists i :: 0 <= i < |Cards(selected)| && Cards(selected)[i].isSelected
    ensures forall i, j :: 0 <= i < j < |Cards(selected)| ==>
      !(Cards(selected)[i].isSelected && Cards(selected)[j].isSelected)
    ensures forall i, j :: 0 <= i < j < |Cards(selected)| ==>
      !(Cards(selected)[i].isPopular && Cards(selected)[j].isPopular)
    ensures forall i, j :: 0 <= i < j < |Cards(selected)| ==> Cards(selected)[i].title != Cards(selected)[j].title
  {
    var cards := Cards(selected);
    var k := if selected == Free then 0 else if selected == DatingTier then 1 else 2;
    assert cards[k].isSelected;
  }

  /** The label of the subscribe button. */
  function ButtonLabel(selected: PremiumTier, user: Option<User>): (text: string)
    ensures text == ContinueLabel <==> user.Some? && user.value.premium.tier == selected
    ensures text == ContinueLabel || text == SubscribeLabel
  {
    if user.Some? && selected == user.value.premium.tier then ContinueLabel else SubscribeLabel
  }

  /** The button reads "Continue with Current Plan" when the screen opens
      exactly when there is a user. */
  lemma LabelOnOpen(user: Option<User>)
    ensures ButtonLabel(InitialTier(user), user) == ContinueLabel <==> user.Some?
  {
  }

  /** The premium record a subscription at `now` writes. */
  function SubscribedPremium(t: PremiumTier, now: Timestamp): (p: Premium)
    ensures p.isActive && p.tier == t
    ensures p.expiresAt.Some? && p.expiresAt.value - now == ThirtyDaysMs
  {
    Premium(true, t, Some(now + ThirtyDaysMs))
  }

  /** After subscribing to a plan, the same selection reads "Continue with
      Current Plan", every other plan reads "Subscribe Now", and subscribing
      again later only pushes the expiry on. */
  lemma SubscribeThenLabel(u: User, t: PremiumTier, other: PremiumTier, now: Timestamp, later: Timestamp)
    ensures var v := AuthStore.MergeUser(u, AuthStore.PremiumPatch(SubscribedPremium(t, now)));
      && ButtonLabel(t, Some(v)) == ContinueLabel
      && (other != t ==> ButtonLabel(other, Some(v)) == SubscribeLabel)
      && AuthStore.MergeUser(v, AuthStore.PremiumPatch(SubscribedPremium(t, later)))
         == u.(premium := SubscribedPremium(t, later))
  {
  }

  class Screen {
    var selectedTier: PremiumTier

    constructor (user: Option<User>)
      ensures selectedTier == InitialTier(user)
    {
      selectedTier := InitialTier(user);
    }

    /** A card press selects its plan. */
    method Select(t: PremiumTier)
      modifies this
      ensures selectedTier == t
    {
      selectedTier := t;
    }

    /** With a user, writes an active premium record for the selected plan
        expiring thirty days after `now`, keeps every other field, and
        navigates back; without one, does nothing. The free plan and the
        user's current plan are written like any other. */
    method HandleSubscribe(auth: AuthStore.Store, now: Timestamp) returns (navigatedBack: bool)
      modifies auth`user
      ensures navigatedBack <==> old(auth.user).Some?
      ensures old(auth.user).None? ==> auth.user == None
      ensures old(auth.user).Some? ==>
        auth.user == Some(old(auth.user).value.(premium := SubscribedPremium(selectedTier, now)))
    {
      navigatedBack := false;
      if auth.user.Some? {
        var premium := SubscribedPremium(selectedTier, now);
        AuthStore.MergeUserLaws(auth.user.value, auth.user.value, AuthStore.PremiumPatch(premium),
          auth.user.value.verificationStatus, premium);
        auth.UpdateUser(AuthStore.PremiumPatch(premium));
        navigatedBack := true;
      }
    }
  }
}
