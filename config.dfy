/**
 * The processor's configuration: the six sub-command keywords, the set of
 * supported commands, and the limits that guard karma swings and `top`.
 */
module KarmaConfig {
  import opened Results

  const HelpWord: string := "help"
  const MeWord: string := "me"
  const StatusWord: string := "status"
  const AddWord: string := "++"
  const SubWord: string := "--"
  const TopWord: string := "top"

  /** The supported sub-commands, as an enumeration. */
  datatype Command = HelpCmd | MeCmd | StatusCmd | AddCmd | SubCmd | TopCmd

  /** The keyword that selects each sub-command. */
  function Keyword(c: Command): (w: string)
    ensures w in Commands
  {
    match c
    case HelpCmd => HelpWord
    case MeCmd => MeWord
    case StatusCmd => StatusWord
    case AddCmd => AddWord
    case SubCmd => SubWord
    case TopCmd => TopWord
  }

  /** `Commands`: the keywords the processor dispatches on. */
  const Commands: set<string> := {HelpWord, MeWord, StatusWord, AddWord, SubWord, TopWord}

  /** The command a word selects, if it is one of the keywords. */
  function ParseCommand(w: string): (r: Option<Command>)
    ensures r.Some? <==> w in Commands
    ensures r.Some? ==> Keyword(r.value) == w
  {
    if w == HelpWord then Some(HelpCmd)
    else if w == MeWord then Some(MeCmd)
    else if w == StatusWord then Some(StatusCmd)
    else if w == AddWord then Some(AddCmd)
    else if w == SubWord then Some(SubCmd)
    else if w == TopWord then Some(TopCmd)
    else None
  }

  /** Each keyword selects its own command, so the six keywords are pairwise distinct. */
  lemma KeywordRoundTrip(c: Command)
    ensures ParseCommand(Keyword(c)) == Some(c)
  {
  }

  lemma KeywordInjective(c: Command, d: Command)
    requires Keyword(c) == Keyword(d)
    ensures c == d
  {
    KeywordRoundTrip(c);
    KeywordRoundTrip(d);
  }

  /** `Commands` holds exactly the six keywords: every member is some command's keyword. */
  lemma CommandsAreTheKeywords(w: string)
    ensures w in Commands <==> exists c :: Keyword(c) == w
  {
    if w in Commands {
      assert Keyword(ParseCommand(w).value) == w;
    }
  }

  lemma SixCommands()
    ensures |Commands| == 6
  {
    var s2 := {HelpWord} + {MeWord};
    var s3 := s2 + {StatusWord};
    var s4 := s3 + {AddWord};
    var s5 := s4 + {SubWord};
    assert |s5 + {TopWord}| == 6;
    assert Commands == s5 + {TopWord};
  }

  /** `ProcConfig`: the customisable limits. */
  datatype ProcConfig = ProcConfig(singleLimit: int, dailyLimit: int, topUserDefault: int, topUserMax: int)

  /** `DefaultConfig`. */
  const DefaultConfig: ProcConfig := ProcConfig(5, 25, 3, 10)

  /** The default limits are positive, and each guard rail sits inside the other. */
  predicate Coherent(cfg: ProcConfig) {
    && 0 < cfg.singleLimit <= cfg.dailyLimit
    && 0 < cfg.topUserDefault <= cfg.topUserMax
  }

  lemma DefaultConfigCoherent()
    ensures Coherent(DefaultConfig)
    ensures DefaultConfig.singleLimit == 5 && DefaultConfig.dailyLimit == 25
    ensures DefaultConfig.topUserDefault == 3 && DefaultConfig.topUserMax == 10
  {
  }

  /** The limits the processor itself declares, which agree with `DefaultConfig`. */
  const SingleLimit: int := 5
  const DailyLimit: int := 25
  const TopUserDefault: int := 3
  const TopUserMax: int := 10

  lemma ProcessorLimitsAreDefaults()
    ensures DefaultConfig == ProcConfig(SingleLimit, DailyLimit, TopUserDefault, TopUserMax)
  {
  }
}
