/** What the filters and the dispenser yield on the built-in catalog. */
module SeedFacts {
  import opened Activities
  import opened Filters
  import opened PriorityHeap
  import opened ActivityGenerator

  /** The names of a sequence of activities, in order. */
  function Names(s: seq<Activity>): seq<string> {
    seq(|s|, i requires 0 <= i < |s| => s[i].name)
  }

  /** Construction loads eighteen activities, in this order. */
  lemma SeedOrder()
    ensures |Seed()| == 18
    ensures Names(Seed()) ==
      ["Watch a movie", "Read a book", "Listen to music", "Meditate", "Online shopping",
       "Cook a new recipe", "Organize your room", "Learn a new skill online",
       "Video call a friend", "Write in a journal",
       "Go for a run", "Dance to music", "Clean the entire house", "Start a DIY project",
       "Go hiking",
       "Plan a hangout with friends", "Join an online community", "Volunteer for a cause"]
  {
  }

  /** Filtering a five-record group, one record at a time. */
  lemma FilterFive(s: seq<Activity>, c: Criterion)
    requires |s| == 5
    ensures Filter(s, c) == Keep(c, s[0]) + Keep(c, s[1]) + Keep(c, s[2]) + Keep(c, s[3]) + Keep(c, s[4])
  {
    assert Filter(s[..0], c) == [] by { assert s[..0] == []; }
    assert Filter(s[..1], c) == Keep(c, s[0]) by { FilterPrefixStep(s, 0, c); }
    assert Filter(s[..2], c) == Keep(c, s[0]) + Keep(c, s[1]) by { FilterPrefixStep(s, 1, c); }
    assert Filter(s[..3], c) == Keep(c, s[0]) + Keep(c, s[1]) + Keep(c, s[2]) by { FilterPrefixStep(s, 2, c); }
    assert Filter(s[..4], c) == Keep(c, s[0]) + Keep(c, s[1]) + Keep(c, s[2]) + Keep(c, s[3]) by { FilterPrefixStep(s, 3, c); }
    assert Filter(s[..5], c) == Keep(c, s[0]) + Keep(c, s[1]) + Keep(c, s[2]) + Keep(c, s[3]) + Keep(c, s[4]) by { FilterPrefixStep(s, 4, c); }
    assert s[..|s|] == s;
  }

  /** Filtering a three-record group, one record at a time. */
  lemma FilterThree(s: seq<Activity>, c: Criterion)
    requires |s| == 3
    ensures Filter(s, c) == Keep(c, s[0]) + Keep(c, s[1]) + Keep(c, s[2])
  {
    assert Filter(s[..0], c) == [] by { assert s[..0] == []; }
    assert Filter(s[..1], c) == Keep(c, s[0]) by { FilterPrefixStep(s, 0, c); }
    assert Filter(s[..2], c) == Keep(c, s[0]) + Keep(c, s[1]) by { FilterPrefixStep(s, 1, c); }
    assert Filter(s[..3], c) == Keep(c, s[0]) + Keep(c, s[1]) + Keep(c, s[2]) by { FilterPrefixStep(s, 2, c); }
    assert s[..|s|] == s;
  }

  /** Filtering the seed data is filtering its four groups in turn. */
  lemma SeedFilterByGroup(c: Criterion)
    ensures Filter(Seed(), c) ==
      Filter(LowEnergySeed(), c) + Filter(MediumEnergySeed(), c) +
      Filter(HighEnergySeed(), c) + Filter(SocialSeed(), c)
  {
    var low, medium, high, social := LowEnergySeed(), MediumEnergySeed(), HighEnergySeed(), SocialSeed();
    FilterConcat(low, medium, c);
    FilterConcat(low + medium, high, c);
    FilterConcat(low + medium + high, social, c);
  }

  /** Names distribute over concatenation. */
  lemma NamesConcat(a: seq<Activity>, b: seq<Activity>)
    ensures Names(a + b) == Names(a) + Names(b)
  {
  }

  /** The names of what a criterion keeps from the seed data are the names
      of what it keeps from each group, in group order. */
  lemma SeedNamesByGroup(c: Criterion)
    ensures Names(Filter(Seed(), c)) ==
      Names(Filter(LowEnergySeed(), c)) + Names(Filter(MediumEnergySeed(), c)) +
      Names(Filter(HighEnergySeed(), c)) + Names(Filter(SocialSeed(), c))
  {
    var fl, fm, fh, fs := Filter(LowEnergySeed(), c), Filter(MediumEnergySeed(), c),
      Filter(HighEnergySeed(), c), Filter(SocialSeed(), c);
    SeedFilterByGroup(c);
    NamesConcat(fl + fm + fh, fs);
    NamesConcat(fl + fm, fh);
    NamesConcat(fl, fm);
  }

  // The names mood "tired" keeps from each seed group.

  lemma TiredLow()
    ensures Names(Filter(LowEnergySeed(), Mood("tired"))) == ["Watch a movie", "Read a book", "Listen to music", "Meditate", "Online shopping"]
  {
    var g := LowEnergySeed();
    FilterFive(g, Mood("tired"));
    assert Filter(g, Mood("tired")) == g;
  }

  lemma TiredMedium()
    ensures Names(Filter(MediumEnergySeed(), Mood("tired"))) == ["Video call a friend", "Write in a journal"]
  {
    var g := MediumEnergySeed();
    FilterFive(g, Mood("tired"));
    assert Filter(g, Mood("tired")) == [g[3], g[4]];
  }

  lemma TiredHigh()
    ensures Names(Filter(HighEnergySeed(), Mood("tired"))) == []
  {
    var g := HighEnergySeed();
    FilterFive(g, Mood("tired"));
    assert Filter(g, Mood("tired")) == [];
  }

  lemma TiredSocial()
    ensures Names(Filter(SocialSeed(), Mood("tired"))) == ["Join an online community"]
  {
    var g := SocialSeed();
    FilterThree(g, Mood("tired"));
    assert Filter(g, Mood("tired")) == [g[1]];
  }

  // The names mood "energetic" keeps from each seed group.

  lemma EnergeticLow()
    ensures Names(Filter(LowEnergySeed(), Mood("energetic"))) == []
  {
    var g := LowEnergySeed();
    FilterFive(g, Mood("energetic"));
    assert Filter(g, Mood("energetic")) == [];
  }

  lemma EnergeticMedium()
    ensures Names(Filter(MediumEnergySeed(), Mood("energetic"))) == []
  {
    var g := MediumEnergySeed();
    FilterFive(g, Mood("energetic"));
    assert Filter(g, Mood("energetic")) == [];
  }

  lemma EnergeticHigh()
    ensures Names(Filter(HighEnergySeed(), Mood("energetic"))) == ["Go for a run", "Dance to music", "Clean the entire house", "Start a DIY project", "Go hiking"]
  {
    var g := HighEnergySeed();
    FilterFive(g, Mood("energetic"));
    assert Filter(g, Mood("energetic")) == g;
  }

  lemma EnergeticSocial()
    ensures Names(Filter(SocialSeed(), Mood("energetic"))) == []
  {
    var g := SocialSeed();
    FilterThree(g, Mood("energetic"));
    assert Filter(g, Mood("energetic")) == [];
  }

  // The names a 30-minute budget keeps from each seed group.

  lemma Within30Low()
    ensures Names(Filter(LowEnergySeed(), WithinTime(30))) == ["Listen to music", "Meditate"]
  {
    var g := LowEnergySeed();
    FilterFive(g, WithinTime(30));
    assert Filter(g, WithinTime(30)) == [g[2], g[3]];
  }

  lemma Within30Medium()
    ensures Names(Filter(MediumEnergySeed(), WithinTime(30))) == ["Write in a journal"]
  {
    var g := MediumEnergySeed();
    FilterFive(g, WithinTime(30));
    assert Filter(g, WithinTime(30)) == [g[4]];
  }

  lemma Within30High()
    ensures Names(Filter(HighEnergySeed(), WithinTime(30))) == ["Dance to music"]
  {
    var g := HighEnergySeed();
    FilterFive(g, WithinTime(30));
    assert Filter(g, WithinTime(30)) == [g[1]];
  }

  lemma Within30Social()
    ensures Names(Filter(SocialSeed(), WithinTime(30))) == ["Plan a hangout with friends"]
  {
    var g := SocialSeed();
    FilterThree(g, WithinTime(30));
    assert Filter(g, WithinTime(30)) == [g[0]];
  }

  /** Before shuffling, mood "tired" keeps the eight seeded activities of energy at most 2, group by group. */
  lemma SeedTired()
    ensures Names(Filter(Seed(), Mood("tired"))) ==
      ["Watch a movie", "Read a book", "Listen to music", "Meditate", "Online shopping",
       "Video call a friend", "Write in a journal", "Join an online community"]
  {
    assert ["Watch a movie", "Read a book", "Listen to music", "Meditate", "Online shopping"] +
      ["Video call a friend", "Write in a journal"] + [] + ["Join an online community"] ==
      ["Watch a movie", "Read a book", "Listen to music", "Meditate", "Online shopping",
       "Video call a friend", "Write in a journal", "Join an online community"];
    SeedNamesByGroup(Mood("tired"));
    TiredLow();
    TiredMedium();
    TiredHigh();
    TiredSocial();
  }

  /** Before shuffling, mood "energetic" keeps the five seeded activities of energy at least 4, group by group. */
  lemma SeedEnergetic()
    ensures Names(Filter(Seed(), Mood("energetic"))) ==
      ["Go for a run", "Dance to music", "Clean the entire house", "Start a DIY project", "Go hiking"]
  {
    assert [] + [] + ["Go for a run", "Dance to music", "Clean the entire house", "Start a DIY project", "Go hiking"] + [] ==
      ["Go for a run", "Dance to music", "Clean the entire house", "Start a DIY project", "Go hiking"];
    SeedNamesByGroup(Mood("energetic"));
    EnergeticLow();
    EnergeticMedium();
    EnergeticHigh();
    EnergeticSocial();
  }

  /** Before shuffling, a 30-minute budget keeps the five seeded activities of 30 minutes or less, group by group. */
  lemma SeedWithin30()
    ensures Names(Filter(Seed(), WithinTime(30))) ==
      ["Listen to music", "Meditate", "Write in a journal", "Dance to music", "Plan a hangout with friends"]
  {
    assert ["Listen to music", "Meditate"] + ["Write in a journal"] + ["Dance to music"] + ["Plan a hangout with friends"] ==
      ["Listen to music", "Meditate", "Write in a journal", "Dance to music", "Plan a hangout with friends"];
    SeedNamesByGroup(WithinTime(30));
    Within30Low();
    Within30Medium();
    Within30High();
    Within30Social();
  }

  /** No seeded activity has a priority above 5. */
  lemma SeedPrioritiesAtMostFive(a: Activity)
    requires a in Seed()
    ensures a.priority <= 5
  {
    var low, medium, high, social := LowEnergySeed(), MediumEnergySeed(), HighEnergySeed(), SocialSeed();
    assert a in low || a in medium || a in high || a in social;
  }

  /** The top of a heap filled from a catalog is in the catalog and ranks at
      least as high as every catalog record. */
  lemma MaxOfCatalog(s: seq<Activity>, top: Activity, b: Activity)
    requires IsMaxOf(top, multiset(s)) && b in s
    ensures top in s && b.priority <= top.priority
  {
    assert b in multiset(s);
  }

  /** "Learn a new skill online", of priority 5, is seeded. */
  lemma SeedHasPriorityFive()
    ensures MediumEnergySeed()[2] in Seed() && MediumEnergySeed()[2].priority == 5
  {
    var low, medium, high := LowEnergySeed(), MediumEnergySeed(), HighEnergySeed();
    assert medium[2] in medium;
    assert medium[2] in low + medium;
    assert medium[2] in low + medium + high;
  }

  /** The first top-priority pick after construction has priority 5. */
  lemma SeedTopHasPriorityFive()
    ensures forall top :: IsMaxOf(top, multiset(Seed())) ==> top.priority == 5
  {
    SeedHasPriorityFive();
    forall top | IsMaxOf(top, multiset(Seed()))
      ensures top.priority == 5
    {
      MaxOfCatalog(Seed(), top, MediumEnergySeed()[2]);
      SeedPrioritiesAtMostFive(top);
    }
  }
}
