/** `checkOnboardingStatus` (lib/onboarding.ts): whether the signed-in user
    still has to create a business profile. */
module OnboardingStatus {
  import opened Wrappers
  import opened Store

  /** The `profile` key: absent when signed out, `null` when there is no
      profile, the profile otherwise. */
  datatype ProfileKey = Absent | NullProfile | Found(fields: ProfileFields)

  datatype OnboardingState = OnboardingState(isAuthenticated: bool, needsOnboarding: bool, profile: ProfileKey)

  /** `None` when the profile lookup throws: the function does not catch it. */
  function CheckOnboardingStatus(profiles: map<string, ProfileFields>, userId: Option<string>, storeFails: bool)
    : (r: Option<OnboardingState>)
    ensures !SignedIn(userId) ==> r == Some(OnboardingState(false, false, Absent))
    ensures r.None? <==> SignedIn(userId) && storeFails
    ensures r.Some? ==> (r.value.isAuthenticated <==> SignedIn(userId))
    ensures r.Some? && r.value.isAuthenticated ==>
      && (r.value.needsOnboarding <==> userId.value !in profiles)
      && (userId.value in profiles ==> r.value.profile == Found(profiles[userId.value]))
      && (userId.value !in profiles ==> r.value.profile == NullProfile)
  {
    if !SignedIn(userId) then Some(OnboardingState(false, false, Absent))
    else if storeFails then None
    else if userId.value in profiles then Some(OnboardingState(true, false, Found(profiles[userId.value])))
    else Some(OnboardingState(true, true, NullProfile))
  }

  /** Only a signed-in user is ever sent to onboarding, and such a user has
      no profile to show. */
  lemma NeedsOnboardingImpliesAuthenticated(profiles: map<string, ProfileFields>, userId: Option<string>, storeFails: bool)
    ensures var r := CheckOnboardingStatus(profiles, userId, storeFails);
      r.Some? && r.value.needsOnboarding ==> r.value.isAuthenticated && r.value.profile == NullProfile
  {
  }

  /** Saving a profile for the user ends onboarding for that user and for
      no one else. */
  lemma SavingEndsOnboarding(profiles: map<string, ProfileFields>, uid: string, fields: ProfileFields, other: Option<string>)
    requires uid != "" && other != Some(uid)
    ensures var r := CheckOnboardingStatus(profiles[uid := fields], Some(uid), false);
      r.Some? && !r.value.needsOnboarding
    ensures CheckOnboardingStatus(profiles[uid := fields], other, false).Some?
    ensures SignedIn(other) ==>
      CheckOnboardingStatus(profiles[uid := fields], other, false).value.needsOnboarding
      == CheckOnboardingStatus(profiles, other, false).value.needsOnboarding
  {
  }
}
