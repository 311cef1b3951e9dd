/**
 * The community agent's tools: local environmental groups looked up by zip
 * code from a fixed sample, community challenges filtered by interest with a
 * fallback to the full list, a shareable success story and a participation
 * record. Group and challenge data are the fixed samples the agent ships.
 */
module Community {
  import opened Prelude

  // ---------------------------------------------------------------------------
  // Local groups

  datatype Group = Group(name: string, interest: string, contact: string)

  const NewYorkGroups: seq<Group> := [
    Group("NYC Green Community", "general", "nyc-green@example.com"),
    Group("Manhattan Community Gardens", "garden", "garden-mht@example.com"),
    Group("NYC Recycling Initiative", "recycling", "recycle-nyc@example.com")
  ]
  const BeverlyHillsGroups: seq<Group> := [
    Group("Beverly Hills Environmental Group", "general", "bh-eco@example.com"),
    Group("LA Solar Advocates", "solar", "solar-la@example.com")
  ]
  const SeattleGroups: seq<Group> := [
    Group("Seattle Sustainability Collective", "general", "seattle-sust@example.com"),
    Group("Puget Sound Cleanup Crew", "water", "cleanup-ps@example.com")
  ]

  /** The zip codes with a fixed sample of groups. */
  predicate KnownZip(zipCode: string) {
    zipCode in ["10001", "90210", "98101"]
  }

  /** The two groups offered for any other zip code, named after it. */
  function GeneratedGroups(zipCode: string, interest: string): seq<Group> {
    [Group(zipCode + " Environmental Community", "general", "local-eco@example.com"),
     Group(zipCode + " Green Living Group", interest, "green-living@example.com")]
  }

  /**
   * `find_local_environmental_groups`: a known zip code's fixed groups
   * (whatever the interest), otherwise two groups named after the zip code,
   * the second carrying the requested interest.
   */
  function FindLocalEnvironmentalGroups(zipCode: string, interest: string): (r: seq<Group>)
    ensures zipCode == "10001" ==> r == NewYorkGroups
    ensures zipCode == "90210" ==> r == BeverlyHillsGroups
    ensures zipCode == "98101" ==> r == SeattleGroups
    ensures !KnownZip(zipCode) ==>
      |r| == 2 && r[0].interest == "general" && r[1].interest == interest &&
      r[0].name == zipCode + " Environmental Community" && r[1].name == zipCode + " Green Living Group"
    ensures r != []
  {
    if zipCode == "10001" then NewYorkGroups
    else if zipCode == "90210" then BeverlyHillsGroups
    else if zipCode == "98101" then SeattleGroups
    else GeneratedGroups(zipCode, interest)
  }

  /** The interest only matters for a zip code without a fixed sample. */
  lemma KnownZipIgnoresInterest(zipCode: string, a: string, b: string)
    requires KnownZip(zipCode)
    ensures FindLocalEnvironmentalGroups(zipCode, a) == FindLocalEnvironmentalGroups(zipCode, b)
  {
  }

  // ---------------------------------------------------------------------------
  // Challenges

  datatype Challenge = Challenge(name: string, description: string)

  const CarbonReduction := Challenge("Carbon Reduction Challenge", "Reduce personal carbon footprint by 10% in 3 months")

  const Challenges: seq<Challenge> := [
    Challenge("Plastic-Free July", "Avoid single-use plastics for a month"),
    CarbonReduction,
    Challenge("Local Food Month", "Eat only locally sourced food for a month"),
    Challenge("Zero Waste Week", "Generate zero waste for one week"),
    Challenge("Energy Conservation Challenge", "Reduce home energy usage by 15% for a month"),
    Challenge("Green Commute Month", "Use sustainable transportation methods for all commutes"),
    Challenge("Water Conservation Challenge", "Reduce water usage by 20% for a month")
  ]

  /** The interest occurs in the challenge's name or description, ignoring case. */
  predicate Matches(c: Challenge, interest: string) {
    Contains(Lower(c.name), Lower(interest)) || Contains(Lower(c.description), Lower(interest))
  }

  /** The challenges that match the interest, in their original order. */
  function Matching(cs: seq<Challenge>, interest: string): (r: seq<Challenge>)
    ensures forall c :: c in r <==> c in cs && Matches(c, interest)
    ensures |r| <= |cs|
    decreases |cs|
  {
    if cs == [] then []
    else
      var last := cs[|cs| - 1];
      Matching(cs[..|cs| - 1], interest) + (if Matches(last, interest) then [last] else [])
  }

  /**
   * What `suggest_community_challenges` returns: every challenge without an
   * interest (None or empty), otherwise the matching ones, or every
   * challenge again when none matches.
   */
  function ChallengesFor(interest: Option<string>): (r: seq<Challenge>)
    ensures r != []
    ensures forall c :: c in r ==> c in Challenges
    ensures interest.None? || interest == Some("") ==> r == Challenges
    ensures interest.Some? && interest.value != "" && Matching(Challenges, interest.value) != [] ==>
      forall c :: c in Challenges ==> (c in r <==> Matches(c, interest.value))
    ensures interest.Some? && Matching(Challenges, interest.value) == [] ==> r == Challenges
  {
    if interest.None? || interest.value == "" then Challenges
    else
      var filtered := Matching(Challenges, interest.value);
      if filtered != [] then filtered else Challenges
  }

  /** `suggest_community_challenges`: the filtering loop over the fixed challenges. */
  method SuggestCommunityChallenges(interest: Option<string>) returns (r: seq<Challenge>)
    ensures r == ChallengesFor(interest)
  {
    if interest.None? || interest.value == "" {
      return Challenges;
    }
    var needle := Lower(interest.value);
    var filtered: seq<Challenge> := [];
    var i := 0;
    while i < |Challenges|
      invariant 0 <= i <= |Challenges|
      invariant filtered == Matching(Challenges[..i], interest.value)
    {
      var challenge := Challenges[i];
      if Contains(Lower(challenge.name), needle) || Contains(Lower(challenge.description), needle) {
        filtered := filtered + [challenge];
      }
      assert Challenges[..i + 1][..i] == Challenges[..i];
      i := i + 1;
    }
    assert Challenges[..i] == Challenges;
    r := if filtered != [] then filtered else Challenges;
  }

  /** Asking for "Carbon" finds the carbon reduction challenge, whatever the case. */
  lemma CarbonInterestFindsCarbonChallenge()
    ensures CarbonReduction in ChallengesFor(Some("Carbon"))
  {
    var name := Lower(CarbonReduction.name);
    assert Lower("Carbon") == "carbon";
    assert name[..6] == "carbon";
    assert Matches(CarbonReduction, "Carbon");
    assert CarbonReduction in Challenges;
  }

  // ---------------------------------------------------------------------------
  // Stories and participation

  datatype SuccessStory = SuccessStory(title: string, story: string, timestamp: string, likes: nat,
                                       comments: seq<string>)

  /** `share_success_story`: a new story stamped `now`, with no likes and no comments yet. */
  function ShareSuccessStory(userName: string, achievement: string, impact: string, now: string): (r: SuccessStory)
    ensures r.likes == 0 && r.comments == []
    ensures r.title == userName + " achieves " + achievement
    ensures userName <= r.story && r.timestamp == now
  {
    SuccessStory(userName + " achieves " + achievement,
                 userName + " recently achieved " + achievement + ", which resulted in " + impact +
                 ". This is an inspiring example of how individual actions can make a difference!",
                 now, 0, [])
  }

  datatype Participation = Participation(userId: string, activity: string, date: string, pointsEarned: nat,
                                         streakDays: nat)

  /** Points awarded for any community activity. */
  const ParticipationPoints: nat := 10
  /** The fixed streak the record reports. */
  const ReportedStreakDays: nat := 5

  /** `track_community_participation`: every activity earns the same points. */
  function TrackCommunityParticipation(userId: string, activity: string, now: string): (r: Participation)
    ensures r.pointsEarned == ParticipationPoints && r.streakDays == ReportedStreakDays
    ensures r.userId == userId && r.activity == activity && r.date == now
  {
    Participation(userId, activity, now, ParticipationPoints, ReportedStreakDays)
  }
}
