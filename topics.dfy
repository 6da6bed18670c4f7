/** e7/topic.go: a hero's camping topic, its wire tokens and its codec. */
module Topics {
  import W = Wrappers
  import opened Json
  import opened Enum

  /** Go's `type Topic int` (a 64-bit int). */
  newtype Topic = x: int | -0x8000_0000_0000_0000 <= x < 0x8000_0000_0000_0000

  // `Criticism Topic = iota`: the topics are numbered 0 to 21.
  const Criticism: Topic := 0
  const RealityCheck: Topic := 1
  const HeroicTale: Topic := 2
  const ComfortingCheer: Topic := 3
  const CuteCheer: Topic := 4
  const HeroicCheer: Topic := 5
  const SadMemory: Topic := 6
  const JoyfulMemory: Topic := 7
  const HappyMemory: Topic := 8
  const UniqueComment: Topic := 9
  const SelfIndulgent: Topic := 10
  const Occult: Topic := 11
  const Myth: Topic := 12
  const BizarreStory: Topic := 13
  const FoodStory: Topic := 14
  const HorrorStory: Topic := 15
  const Gossip: Topic := 16
  const Dream: Topic := 17
  const Advice: Topic := 18
  const Complain: Topic := 19
  const Belief: Topic := 20
  const InterestingStory: Topic := 21

  /** topicStrings: variant to wire token. */
  const TopicStrings: map<Topic, string> := map[
      Criticism := "Criticism",
      RealityCheck := "Reality Check",
      HeroicTale := "Heroic Tale",
      ComfortingCheer := "Comforting Cheer",
      CuteCheer := "Cute Cheer",
      HeroicCheer := "Heroic Cheer",
      SadMemory := "Sad Memory",
      JoyfulMemory := "Joyful Memory",
      HappyMemory := "Happy Memory",
      UniqueComment := "Unique Comment",
      SelfIndulgent := "Self-Indulgent",
      Occult := "Occult",
      Myth := "Myth",
      BizarreStory := "Bizarre Story",
      FoodStory := "Food Story",
      HorrorStory := "Horror Story",
      Gossip := "Gossip",
      Dream := "Dream",
      Advice := "Advice",
      Complain := "Complain",
      Belief := "Belief",
      InterestingStory := "Interesting Story"]

  /** topics: wire token to variant. */
  const TopicsByString: map<string, Topic> := map[
      "Criticism" := Criticism,
      "Reality Check" := RealityCheck,
      "Heroic Tale" := HeroicTale,
      "Comforting Cheer" := ComfortingCheer,
      "Cute Cheer" := CuteCheer,
      "Heroic Cheer" := HeroicCheer,
      "Sad Memory" := SadMemory,
      "Joyful Memory" := JoyfulMemory,
      "Happy Memory" := HappyMemory,
      "Unique Comment" := UniqueComment,
      "Self-Indulgent" := SelfIndulgent,
      "Occult" := Occult,
      "Myth" := Myth,
      "Bizarre Story" := BizarreStory,
      "Food Story" := FoodStory,
      "Horror Story" := HorrorStory,
      "Gossip" := Gossip,
      "Dream" := Dream,
      "Advice" := Advice,
      "Complain" := Complain,
      "Belief" := Belief,
      "Interesting Story" := InterestingStory]

  const ErrUnknownTopic: CodecError := Unknown(TopicKind)

  const TopicCodec: Codec<Topic> := Codec(TopicStrings, TopicsByString, ErrUnknownTopic)

  // Table facts, one lookup at a time, and the characters of each token.
  // Each lemma states a single lookup in a literal map, and the tokens are
  // checked a few at a time: one proof per fact keeps the solver's work
  // small and the same on every run.
  lemma CriticismToken()
    ensures TopicStrings[Criticism] == "Criticism"
  {
  }

  lemma CriticismFromToken()
    ensures TopicsByString["Criticism"] == Criticism
  {
  }

  lemma RealityCheckToken()
    ensures TopicStrings[RealityCheck] == "Reality Check"
  {
  }

  lemma RealityCheckFromToken()
    ensures TopicsByString["Reality Check"] == RealityCheck
  {
  }

  lemma HeroicTaleToken()
    ensures TopicStrings[HeroicTale] == "Heroic Tale"
  {
  }

  lemma HeroicTaleFromToken()
    ensures TopicsByString["Heroic Tale"] == HeroicTale
  {
  }

  lemma ComfortingCheerToken()
    ensures TopicStrings[ComfortingCheer] == "Comforting Cheer"
  {
  }

  lemma ComfortingCheerFromToken()
    ensures TopicsByString["Comforting Cheer"] == ComfortingCheer
  {
  }

  lemma CuteCheerToken()
    ensures TopicStrings[CuteCheer] == "Cute Cheer"
  {
  }

  lemma CuteCheerFromToken()
    ensures TopicsByString["Cute Cheer"] == CuteCheer
  {
  }

  lemma HeroicCheerToken()
    ensures TopicStrings[HeroicCheer] == "Heroic Cheer"
  {
  }

  lemma HeroicCheerFromToken()
    ensures TopicsByString["Heroic Cheer"] == HeroicCheer
  {
  }

  lemma SadMemoryToken()
    ensures TopicStrings[SadMemory] == "Sad Memory"
  {
  }

  lemma SadMemoryFromToken()
    ensures TopicsByString["Sad Memory"] == SadMemory
  {
  }

  lemma JoyfulMemoryToken()
    ensures TopicStrings[JoyfulMemory] == "Joyful Memory"
  {
  }

  lemma JoyfulMemoryFromToken()
    ensures TopicsByString["Joyful Memory"] == JoyfulMemory
  {
  }

  lemma HappyMemoryToken()
    ensures TopicStrings[HappyMemory] == "Happy Memory"
  {
  }

  lemma HappyMemoryFromToken()
    ensures TopicsByString["Happy Memory"] == HappyMemory
  {
  }

  lemma UniqueCommentToken()
    ensures TopicStrings[UniqueComment] == "Unique Comment"
  {
  }

  lemma UniqueCommentFromToken()
    ensures TopicsByString["Unique Comment"] == UniqueComment
  {
  }

  lemma SelfIndulgentToken()
    ensures TopicStrings[SelfIndulgent] == "Self-Indulgent"
  {
  }

  lemma SelfIndulgentFromToken()
    ensures TopicsByString["Self-Indulgent"] == SelfIndulgent
  {
  }

  lemma OccultToken()
    ensures TopicStrings[Occult] == "Occult"
  {
  }

  lemma OccultFromToken()
    ensures TopicsByString["Occult"] == Occult
  {
  }

  lemma MythToken()
    ensures TopicStrings[Myth] == "Myth"
  {
  }

  lemma MythFromToken()
    ensures TopicsByString["Myth"] == Myth
  {
  }

  lemma BizarreStoryToken()
    ensures TopicStrings[BizarreStory] == "Bizarre Story"
  {
  }

  lemma BizarreStoryFromToken()
    ensures TopicsByString["Bizarre Story"] == BizarreStory
  {
  }

  lemma FoodStoryToken()
    ensures TopicStrings[FoodStory] == "Food Story"
  {
  }

  lemma FoodStoryFromToken()
    ensures TopicsByString["Food Story"] == FoodStory
  {
  }

  lemma HorrorStoryToken()
    ensures TopicStrings[HorrorStory] == "Horror Story"
  {
  }

  lemma HorrorStoryFromToken()
    ensures TopicsByString["Horror Story"] == HorrorStory
  {
  }

  lemma GossipToken()
    ensures TopicStrings[Gossip] == "Gossip"
  {
  }

  lemma GossipFromToken()
    ensures TopicsByString["Gossip"] == Gossip
  {
  }

  lemma DreamToken()
    ensures TopicStrings[Dream] == "Dream"
  {
  }

  lemma DreamFromToken()
    ensures TopicsByString["Dream"] == Dream
  {
  }

  lemma AdviceToken()
    ensures TopicStrings[Advice] == "Advice"
  {
  }

  lemma AdviceFromToken()
    ensures TopicsByString["Advice"] == Advice
  {
  }

  lemma ComplainToken()
    ensures TopicStrings[Complain] == "Complain"
  {
  }

  lemma ComplainFromToken()
    ensures TopicsByString["Complain"] == Complain
  {
  }

  lemma BeliefToken()
    ensures TopicStrings[Belief] == "Belief"
  {
  }

  lemma BeliefFromToken()
    ensures TopicsByString["Belief"] == Belief
  {
  }

  lemma InterestingStoryToken()
    ensures TopicStrings[InterestingStory] == "Interesting Story"
  {
  }

  lemma InterestingStoryFromToken()
    ensures TopicsByString["Interesting Story"] == InterestingStory
  {
  }

  lemma TopicTokensSafe1()
    ensures JsonSafe("Criticism")
    ensures JsonSafe("Reality Check")
    ensures JsonSafe("Heroic Tale")
  {
  }

  lemma TopicTokensSafe2()
    ensures JsonSafe("Comforting Cheer")
    ensures JsonSafe("Cute Cheer")
    ensures JsonSafe("Heroic Cheer")
  {
  }

  lemma TopicTokensSafe3()
    ensures JsonSafe("Sad Memory")
    ensures JsonSafe("Joyful Memory")
    ensures JsonSafe("Happy Memory")
  {
  }

  lemma TopicTokensSafe4()
    ensures JsonSafe("Unique Comment")
    ensures JsonSafe("Self-Indulgent")
    ensures JsonSafe("Occult")
  {
  }

  lemma TopicTokensSafe5()
    ensures JsonSafe("Myth")
    ensures JsonSafe("Bizarre Story")
    ensures JsonSafe("Food Story")
  {
  }

  lemma TopicTokensSafe6()
    ensures JsonSafe("Horror Story")
    ensures JsonSafe("Gossip")
    ensures JsonSafe("Dream")
  {
  }

  lemma TopicTokensSafe7()
    ensures JsonSafe("Advice")
    ensures JsonSafe("Complain")
    ensures JsonSafe("Belief")
  {
  }

  lemma TopicTokensSafe8()
    ensures JsonSafe("Interesting Story")
  {
  }

  lemma TopicTokenDomain()
    ensures forall s | s in TopicsByString ::
      s == "Criticism" || s == "Reality Check" || s == "Heroic Tale" || s == "Comforting Cheer"
      || s == "Cute Cheer"|| s == "Heroic Cheer" || s == "Sad Memory" || s == "Joyful Memory"
      || s == "Happy Memory"|| s == "Unique Comment" || s == "Self-Indulgent" || s == "Occult"
      || s == "Myth"|| s == "Bizarre Story" || s == "Food Story" || s == "Horror Story"
      || s == "Gossip"|| s == "Dream" || s == "Advice" || s == "Complain" || s == "Belief"
      || s == "Interesting Story"
  {
  }

  lemma TopicValueDomain()
    ensures forall v | v in TopicStrings :: v == Criticism || v == RealityCheck || v == HeroicTale || v == ComfortingCheer || v == CuteCheer || v == HeroicCheer || v == SadMemory || v == JoyfulMemory || v == HappyMemory || v == UniqueComment || v == SelfIndulgent || v == Occult || v == Myth || v == BizarreStory || v == FoodStory || v == HorrorStory || v == Gossip || v == Dream || v == Advice || v == Complain || v == Belief || v == InterestingStory
  {
  }

  lemma TopicForward()
    ensures forall v | v in TopicStrings :: TopicStrings[v] in TopicsByString && TopicsByString[TopicStrings[v]] == v
  {
    TopicValueDomain();
    CriticismToken();
    CriticismFromToken();
    RealityCheckToken();
    RealityCheckFromToken();
    HeroicTaleToken();
    HeroicTaleFromToken();
    ComfortingCheerToken();
    ComfortingCheerFromToken();
    CuteCheerToken();
    CuteCheerFromToken();
    HeroicCheerToken();
    HeroicCheerFromToken();
    SadMemoryToken();
    SadMemoryFromToken();
    JoyfulMemoryToken();
    JoyfulMemoryFromToken();
    HappyMemoryToken();
    HappyMemoryFromToken();
    UniqueCommentToken();
    UniqueCommentFromToken();
    SelfIndulgentToken();
    SelfIndulgentFromToken();
    OccultToken();
    OccultFromToken();
    MythToken();
    MythFromToken();
    BizarreStoryToken();
    BizarreStoryFromToken();
    FoodStoryToken();
    FoodStoryFromToken();
    HorrorStoryToken();
    HorrorStoryFromToken();
    GossipToken();
    GossipFromToken();
    DreamToken();
    DreamFromToken();
    AdviceToken();
    AdviceFromToken();
    ComplainToken();
    ComplainFromToken();
    BeliefToken();
    BeliefFromToken();
    InterestingStoryToken();
    InterestingStoryFromToken();
  }

  lemma TopicBackward()
    ensures forall s | s in TopicsByString :: TopicsByString[s] in TopicStrings && TopicStrings[TopicsByString[s]] == s
  {
    TopicTokenDomain();
    CriticismToken();
    CriticismFromToken();
    RealityCheckToken();
    RealityCheckFromToken();
    HeroicTaleToken();
    HeroicTaleFromToken();
    ComfortingCheerToken();
    ComfortingCheerFromToken();
    CuteCheerToken();
    CuteCheerFromToken();
    HeroicCheerToken();
    HeroicCheerFromToken();
    SadMemoryToken();
    SadMemoryFromToken();
    JoyfulMemoryToken();
    JoyfulMemoryFromToken();
    HappyMemoryToken();
    HappyMemoryFromToken();
    UniqueCommentToken();
    UniqueCommentFromToken();
    SelfIndulgentToken();
    SelfIndulgentFromToken();
    OccultToken();
    OccultFromToken();
    MythToken();
    MythFromToken();
    BizarreStoryToken();
    BizarreStoryFromToken();
    FoodStoryToken();
    FoodStoryFromToken();
    HorrorStoryToken();
    HorrorStoryFromToken();
    GossipToken();
    GossipFromToken();
    DreamToken();
    DreamFromToken();
    AdviceToken();
    AdviceFromToken();
    ComplainToken();
    ComplainFromToken();
    BeliefToken();
    BeliefFromToken();
    InterestingStoryToken();
    InterestingStoryFromToken();
  }

  /** The two tables are mutual inverses over 22 distinct tokens, each of
      which can be quoted without escaping. */
  lemma TopicTables()
    ensures WellFormed(TopicCodec)
    ensures TopicStrings.Keys == {Criticism, RealityCheck, HeroicTale, ComfortingCheer, CuteCheer, HeroicCheer, SadMemory, JoyfulMemory, HappyMemory, UniqueComment, SelfIndulgent, Occult, Myth, BizarreStory, FoodStory, HorrorStory, Gossip, Dream, Advice, Complain, Belief, InterestingStory}
  {
    TopicForward();
    TopicBackward();
    TopicTokensSafe1();
    TopicTokensSafe2();
    TopicTokensSafe3();
    TopicTokensSafe4();
    TopicTokensSafe5();
    TopicTokensSafe6();
    TopicTokensSafe7();
    TopicTokensSafe8();
  }

  /** A value is a defined topic exactly when it lies in 0..21. */
  lemma DefinedTopics(t: Topic)
    ensures t in TopicStrings <==> 0 <= t <= 21
  {
  }

  /** For every defined topic, UnmarshalJSON of MarshalJSON's bytes succeeds
      with that topic. */
  lemma TopicRoundTrip(t: Topic)
    requires t in TopicStrings
    ensures Parse(TopicCodec, Quoted(String(TopicCodec, t))) == W.Success(t)
  {
    TopicTables();
    ParseMarshal(TopicCodec, t);
  }

  /** Multi-word and hyphenated tokens are matched as written, spaces and
      hyphens included. */
  lemma TopicWireNames()
    ensures String(TopicCodec, RealityCheck) == "Reality Check"
    ensures Parse(TopicCodec, Quoted("Reality Check")) == W.Success(RealityCheck)
    ensures String(TopicCodec, SelfIndulgent) == "Self-Indulgent"
    ensures Parse(TopicCodec, Quoted("Self-Indulgent")) == W.Success(SelfIndulgent)
  {
    RealityCheckToken();
    SelfIndulgentToken();
    TopicRoundTrip(RealityCheck);
    TopicRoundTrip(SelfIndulgent);
  }

  /** A quoted string that is not a topic token gives ErrUnknownTopic. */
  lemma UnknownTopic(s: string)
    requires JsonSafe(s)
    requires s !in TopicsByString
    ensures Parse(TopicCodec, Quoted(s)) == W.Failure(ErrUnknownTopic)
  {
    ParseRejectsUnknown(TopicCodec, s);
  }

  /** The quoted string "test" is rejected with ErrUnknownTopic. */
  lemma TestIsUnknownTopic()
    ensures Parse(TopicCodec, Quoted("test")) == W.Failure(ErrUnknownTopic)
  {
    UnknownTopic("test");
  }
}
