/** The fixed records the application starts from: five candidates, three
    matches and six messages. Free text the model never reads (bios, prompts,
    photo URLs, job descriptions) is left empty; dates are epoch
    milliseconds (UTC). */
module Mocks {
  import opened Types

  function Candidate(
    id: string, name: string, age: int, gender: Gender, distance: int,
    photos: seq<Photo>, status: VerificationStatus, goal: RelationshipGoal,
    professionallyVerified: bool, premium: Premium, createdAt: Timestamp, lastActive: Timestamp): User
  {
    User(id, name, Some(age), gender, None,
      Location("San Francisco", Some("CA"), "USA", Some(distance)),
      photos, [], status,
      DatingProfile([], "", goal, [], None, None),
      NetworkingProfile("", "", "", [], "", [], professionallyVerified),
      premium, createdAt, lastActive)
  }

  const Emma: User := Candidate("1", "Emma", 28, Female, 5,
    [Photo("1-1", "", true), Photo("1-2", "", false), Photo("1-3", "", false)],
    Verified, Relationship, true, Premium(true, DatingTier, Some(1703980800000)),
    1673740800000, 1685577600000)

  const James: User := Candidate("2", "James", 32, Male, 8,
    [Photo("2-1", "", true), Photo("2-2", "", false)],
    Verified, Relationship, true, Premium(false, Free, None),
    1675987200000, 1685664000000)

  const Sophia: User := Candidate("3", "Sophia", 30, Female, 3,
    [Photo("3-1", "", true), Photo("3-2", "", false), Photo("3-3", "", false)],
    ProfessionallyVerified, DatingGoal, true, Premium(true, NetworkingTier, Some(1702598400000)),
    1672876800000, 1685750400000)

  const Michael: User := Candidate("4", "Michael", 34, Male, 10,
    [Photo("4-1", "", true), Photo("4-2", "", false)],
    Verified, Relationship, true, Premium(true, NetworkingTier, Some(1701302400000)),
    1676851200000, 1685577600000)

  const Olivia: User := Candidate("5", "Olivia", 27, Female, 7,
    [Photo("5-1", "", true), Photo("5-2", "", false)],
    Basic, DatingGoal, false, Premium(false, Free, None),
    1678406400000, 1685664000000)

  const Users: seq<User> := [Emma, James, Sophia, Michael, Olivia]

  const Matches: seq<Match> := [
    Match("m1", CurrentUserId, "1", Dating, Matched,
      Some(InteractionItem(PromptItem, Some("1"), Some("I've also climbed Kilimanjaro! When did you go?"))),
      1685232000000, Some(1685577600000)),
    Match("m2", CurrentUserId, "3", Networking, Matched,
      Some(InteractionItem(ProfileItem, None, Some("I'd love to connect about art curation opportunities."))),
      1685404800000, Some(1685491200000)),
    Match("m3", CurrentUserId, "2", Dating, Pending,
      Some(InteractionItem(PhotoItem, Some("2-1"), Some("Great photo! Where was this taken?"))),
      1685577600000, None)
  ]

  const Messages: seq<Message> := [
    Message("msg1", "m1", CurrentUserId, "1", "", Text, None, true, 1685284200000),
    Message("msg2", "m1", "1", CurrentUserId, "", Text, None, true, 1685288700000),
    Message("msg3", "m1", CurrentUserId, "1", "", Text, None, true, 1685351700000),
    Message("msg4", "m1", "1", CurrentUserId, "", Text, None, false, 1685618400000),
    Message("msg5", "m2", CurrentUserId, "3", "", Text, None, true, 1685440800000),
    Message("msg6", "m2", "3", CurrentUserId, "", Text, None, true, 1685525400000)
  ]
}
