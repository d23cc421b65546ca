/** The authentication store: the session user, whether the session is
    authenticated, a loading flag and an error message. Login and signup
    wait on a timer in the application; here each is split into the
    transition that starts it and the one that completes it. */
module AuthStore {
  import opened Types

  /** The demo account every login yields. */
  const DemoUser: User := User(
    CurrentUserId, "Alex", Some(29), NonBinary, None,
    Location("San Francisco", Some("CA"), "USA", None),
    [Photo("cu-1", "", true), Photo("cu-2", "", false)], [],
    Verified,
    DatingProfile([], "", Relationship, [], None, Some("UC Berkeley")),
    NetworkingProfile("Senior Product Manager", "Spotify", "Technology", [], "", [], true),
    Premium(true, NetworkingTier, Some(1703980800000)),
    1668470400000, 1685750400000)

  /** A partial user record: `None` is a field the caller did not supply. */
  datatype UserPatch = UserPatch(
    id: Option<string>,
    name: Option<string>,
    age: Option<Option<int>>,
    gender: Option<Gender>,
    email: Option<Option<string>>,
    location: Option<Location>,
    photos: Option<seq<Photo>>,
    videos: Option<seq<Video>>,
    verificationStatus: Option<VerificationStatus>,
    datingProfile: Option<DatingProfile>,
    networkingProfile: Option<NetworkingProfile>,
    premium: Option<Premium>,
    createdAt: Option<Timestamp>,
    lastActive: Option<Timestamp>)

  const EmptyPatch: UserPatch := UserPatch(None, None, None, None, None, None, None, None, None, None, None, None, None, None)

  /** `{ ...u, ...patch }`: a shallow merge. Every field the patch supplies
      takes the patch's value; every other field keeps its value. */
  function MergeUser(u: User, patch: UserPatch): (r: User)
    ensures Supplied(r.id, u.id, patch.id)
    ensures Supplied(r.name, u.name, patch.name)
    ensures Supplied(r.age, u.age, patch.age)
    ensures Supplied(r.gender, u.gender, patch.gender)
    ensures Supplied(r.email, u.email, patch.email)
    ensures Supplied(r.location, u.location, patch.location)
    ensures Supplied(r.photos, u.photos, patch.photos)
    ensures Supplied(r.videos, u.videos, patch.videos)
    ensures Supplied(r.verificationStatus, u.verificationStatus, patch.verificationStatus)
    ensures Supplied(r.datingProfile, u.datingProfile, patch.datingProfile)
    ensures Supplied(r.networkingProfile, u.networkingProfile, patch.networkingProfile)
    ensures Supplied(r.premium, u.premium, patch.premium)
    ensures Supplied(r.createdAt, u.createdAt, patch.createdAt)
    ensures Supplied(r.lastActive, u.lastActive, patch.lastActive)
  {
    User(
      Pick(u.id, patch.id),
      Pick(u.name, patch.name),
      Pick(u.age, patch.age),
      Pick(u.gender, patch.gender),
      Pick(u.email, patch.email),
      Pick(u.location, patch.location),
      Pick(u.photos, patch.photos),
      Pick(u.videos, patch.videos),
      Pick(u.verificationStatus, patch.verificationStatus),
      Pick(u.datingProfile, patch.datingProfile),
      Pick(u.networkingProfile, patch.networkingProfile),
      Pick(u.premium, patch.premium),
      Pick(u.createdAt, patch.createdAt),
      Pick(u.lastActive, patch.lastActive))
  }

  /** The patch that supplies every field of `v`. */
  function FullPatch(v: User): UserPatch
  {
    UserPatch(Some(v.id), Some(v.name), Some(v.age), Some(v.gender), Some(v.email), Some(v.location),
      Some(v.photos), Some(v.videos), Some(v.verificationStatus), Some(v.datingProfile),
      Some(v.networkingProfile), Some(v.premium), Some(v.createdAt), Some(v.lastActive))
  }

  /** The patch that supplies only the verification status. */
  function StatusPatch(s: VerificationStatus): UserPatch
  {
    EmptyPatch.(verificationStatus := Some(s))
  }

  /** The patch that supplies only the premium record. */
  function PremiumPatch(p: Premium): UserPatch
  {
    EmptyPatch.(premium := Some(p))
  }

  /** An empty patch keeps the user; a patch supplying every field replaces
      it; merging the same patch again changes nothing more; a one-field
      patch changes that field and keeps every other. */
  lemma MergeUserLaws(u: User, v: User, patch: UserPatch, s: VerificationStatus, p: Premium)
    ensures MergeUser(u, EmptyPatch) == u
    ensures MergeUser(u, FullPatch(v)) == v
    ensures MergeUser(MergeUser(u, patch), patch) == MergeUser(u, patch)
    ensures MergeUser(u, StatusPatch(s)) == u.(verificationStatus := s)
    ensures MergeUser(u, PremiumPatch(p)) == u.(premium := p)
  {
  }

  class Store {
    var user: Option<User>
    var isAuthenticated: bool
    var isLoading: bool
    var error: Option<string>

    /** The demo session is signed in from the start. */
    constructor ()
      ensures user == Some(DemoUser) && isAuthenticated && !isLoading && error == None
    {
      user := Some(DemoUser);
      isAuthenticated := true;
      isLoading := false;
      error := None;
    }

    /** What `login` does before its delay. */
    method BeginLogin(email: string, password: string)
      modifies this`isLoading, this`error
      ensures isLoading && error == None
    {
      isLoading := true;
      error := None;
    }

    /** What `login` does after its delay: the demo user, whatever the
        credentials were. */
    method CompleteLogin()
      modifies this`user, this`isAuthenticated, this`isLoading
      ensures user == Some(DemoUser) && isAuthenticated && !isLoading
    {
      user := Some(DemoUser);
      isAuthenticated := true;
      isLoading := false;
    }

    /** What `signup` does before its delay. */
    method BeginSignup(userData: UserPatch, password: string)
      modifies this`isLoading, this`error
      ensures isLoading && error == None
    {
      isLoading := true;
      error := None;
    }

    /** What `signup` does after its delay: the demo user with the supplied
        fields laid over it. */
    method CompleteSignup(userData: UserPatch)
      modifies this`user, this`isAuthenticated, this`isLoading
      ensures user == Some(MergeUser(DemoUser, userData)) && isAuthenticated && !isLoading
    {
      user := Some(MergeUser(DemoUser, userData));
      isAuthenticated := true;
      isLoading := false;
    }

    /** Clears the user and the authenticated flag; loading and error stay. */
    method Logout()
      modifies this`user, this`isAuthenticated
      ensures user == None && !isAuthenticated
    {
      user := None;
      isAuthenticated := false;
    }

    /** A shallow merge into a present user; no user stays no user. */
    method UpdateUser(userData: UserPatch)
      modifies this`user
      ensures old(user).None? ==> user == None
      ensures old(user).Some? ==> user == Some(MergeUser(old(user).value, userData))
    {
      if user.Some? {
        user := Some(MergeUser(user.value, userData));
      }
    }
  }
}
