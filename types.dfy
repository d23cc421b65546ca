/** The records the application shares between its stores and screens:
    candidates (User), their photos and two profile variants, the match and
    message records, and the small enumerations they use.

    Timestamps are carried as integer milliseconds since the epoch; the
    application writes them as ISO-8601 strings, a formatting step this model
    does not carry. Numbers that JavaScript treats as optional (age,
    distance) are `Option<int>`. */
module Types {

  datatype Option<+T> = None | Some(value: T)

  /** The two modes of the application, each with its own preference set. */
  datatype AppMode = Dating | Networking

  datatype Theme = Light | Dark

  datatype Gender = Male | Female | NonBinary | OtherGender

  /** The verification ladder, in the order the verification screen climbs it. */
  datatype VerificationStatus = Unverified | Basic | Verified | ProfessionallyVerified

  datatype RelationshipGoal = Casual | DatingGoal | Relationship | Marriage

  datatype PremiumTier = Free | DatingTier | NetworkingTier

  type Timestamp = int

  datatype Photo = Photo(id: string, url: string, isProfile: bool)

  datatype Video = Video(id: string, url: string, thumbnail: string)

  datatype Prompt = Prompt(question: string, answer: string)

  datatype Location = Location(
    city: string,
    state: Option<string>,
    country: string,
    distance: Option<int>)  // kilometres; absent for the session user

  datatype DatingProfile = DatingProfile(
    interests: seq<string>,
    bio: string,
    relationshipGoals: RelationshipGoal,
    prompts: seq<Prompt>,
    height: Option<int>,
    education: Option<string>)

  datatype NetworkingProfile = NetworkingProfile(
    jobTitle: string,
    company: string,
    industry: string,
    skills: seq<string>,
    professionalSummary: string,
    contactPreferences: seq<string>,
    isVerified: bool)

  datatype Premium = Premium(isActive: bool, tier: PremiumTier, expiresAt: Option<Timestamp>)

  datatype User = User(
    id: string,
    name: string,
    age: Option<int>,
    gender: Gender,
    email: Option<string>,
    location: Location,
    photos: seq<Photo>,
    videos: seq<Video>,
    verificationStatus: VerificationStatus,
    datingProfile: DatingProfile,
    networkingProfile: NetworkingProfile,
    premium: Premium,
    createdAt: Timestamp,
    lastActive: Timestamp)

  datatype MatchStatus = Pending | Matched | Rejected

  datatype InteractionKind = PhotoItem | PromptItem | ProfileItem

  /** Which photo or prompt a like was attached to, with an optional comment. */
  datatype InteractionItem = InteractionItem(kind: InteractionKind, id: Option<string>, comment: Option<string>)

  datatype Match = Match(
    id: string,
    userId: string,
    matchedUserId: string,
    matchType: AppMode,
    status: MatchStatus,
    interactionItem: Option<InteractionItem>,
    createdAt: Timestamp,
    lastMessageAt: Option<Timestamp>)

  datatype ContentType = Text | Image | Gif | Voice | VideoContent

  datatype Message = Message(
    id: string,
    matchId: string,
    senderId: string,
    receiverId: string,
    content: string,
    contentType: ContentType,
    mediaUrl: Option<string>,
    isRead: bool,
    createdAt: Timestamp)

  /** The id under which the session user appears in matches and messages. */
  const CurrentUserId: string := "current-user"

  /** The rung of the verification ladder a status stands on. */
  function VerificationRank(s: VerificationStatus): (rank: nat)
    ensures rank <= 3
    ensures rank == 0 <==> s == Unverified
    ensures rank == 3 <==> s == ProfessionallyVerified
  {
    match s
    case Unverified => 0
    case Basic => 1
    case Verified => 2
    case ProfessionallyVerified => 3
  }

  // ----- shallow merges -----

  /** One key of `{ ...current, ...patch }`: the supplied value, or the
      current one when the key was not supplied. */
  function Pick<T>(current: T, supplied: Option<T>): T
  {
    if supplied.Some? then supplied.value else current
  }

  /** `merged` is what a shallow merge must leave under one key: the patch's
      value when it supplies the key, the current value otherwise. */
  predicate Supplied<T(==)>(merged: T, current: T, patch: Option<T>)
  {
    (patch.Some? ==> merged == patch.value) && (patch.None? ==> merged == current)
  }

  /** The same for a key whose value is itself optional and whose patch
      supplies it as a value. */
  predicate SuppliedOpt<T(==)>(merged: Option<T>, current: Option<T>, patch: Option<T>)
  {
    (patch.Some? ==> merged == patch) && (patch.None? ==> merged == current)
  }
}
