/** The activity generator: the catalog of every activity in insertion
    order, and the priority dispenser over a snapshot of it. The random
    source is not part of the state: a random pick takes its index as a
    parameter and the shuffles choose their swaps nondeterministically.
    Operations that only read the catalog take the state as a value and
    hand back no new state, so they leave the catalog and the heap as
    they were. */
module ActivityGenerator {
  import opened Activities
  import opened Filters
  import opened PriorityHeap

  datatype State = State(all: seq<Activity>, heap: multiset<Activity>)

  /** The class invariant: the catalog is never empty (it is seeded and only
      ever grows), and the heap holds nothing the catalog does not. */
  predicate Valid(g: State) {
    |g.all| > 0 && g.heap <= multiset(g.all)
  }

  /** The eighteen built-in activities, in the order they are loaded:
      low-energy, medium-energy, high-energy, then social ones. */
  function Seed(): seq<Activity> {
    LowEnergySeed() + MediumEnergySeed() + HighEnergySeed() + SocialSeed()
  }

  function LowEnergySeed(): seq<Activity> {
    [ Activity("Watch a movie", "Entertainment", 1, 120, 2),
      Activity("Read a book", "Learning", 2, 60, 3),
      Activity("Listen to music", "Relaxation", 1, 30, 1),
      Activity("Meditate", "Wellness", 1, 15, 4),
      Activity("Online shopping", "Entertainment", 1, 45, 1) ]
  }

  function MediumEnergySeed(): seq<Activity> {
    [ Activity("Cook a new recipe", "Creative", 3, 90, 3),
      Activity("Organize your room", "Productive", 3, 60, 4),
      Activity("Learn a new skill online", "Learning", 3, 120, 5),
      Activity("Video call a friend", "Social", 2, 45, 3),
      Activity("Write in a journal", "Creative", 2, 30, 4) ]
  }

  function HighEnergySeed(): seq<Activity> {
    [ Activity("Go for a run", "Exercise", 5, 45, 5),
      Activity("Dance to music", "Exercise", 4, 30, 3),
      Activity("Clean the entire house", "Productive", 4, 180, 4),
      Activity("Start a DIY project", "Creative", 4, 120, 3),
      Activity("Go hiking", "Outdoor", 5, 240, 5) ]
  }

  function SocialSeed(): seq<Activity> {
    [ Activity("Plan a hangout with friends", "Social", 3, 30, 4),
      Activity("Join an online community", "Social", 2, 60, 3),
      Activity("Volunteer for a cause", "Social", 3, 120, 5) ]
  }

  /** The state right after construction: the seed data, all of it in the heap. */
  predicate Initial(g: State) {
    g.all == Seed() && g.heap == multiset(g.all)
  }

  /** Construction: load the seed data, then fill the heap from it. */
  method New() returns (g: State)
    ensures Initial(g)
    ensures Valid(g)
  {
    var all := Seed();
    var heap := Populate(all);
    g := State(all, heap);
  }

  /** A uniformly random pick. `i` stands for the draw from the range
      0 .. |all| - 1; no draw is made on an empty catalog, which yields the
      sentinel record instead. */
  function RandomActivity(g: State, i: nat): (r: Activity)
    requires |g.all| == 0 || i < |g.all|
    ensures |g.all| > 0 ==> r in g.all
    ensures |g.all| == 0 ==> r == NoActivity
  {
    if |g.all| == 0 then NoActivity else g.all[i]
  }

  /** Every activity of the catalog is the outcome of some draw. */
  lemma RandomPickReachesEveryActivity(g: State, a: Activity)
    requires a in g.all
    ensures exists i: nat :: i < |g.all| && RandomActivity(g, i) == a
  {
    var i :| 0 <= i < |g.all| && g.all[i] == a;
    assert RandomActivity(g, i) == a;
  }

  /** What the heap holds once the top-priority pick has made sure it is not
      empty: the whole catalog when it had run dry, itself otherwise. */
  function Refilled(g: State): multiset<Activity> {
    if |g.heap| == 0 then multiset(g.all) else g.heap
  }

  /** One top-priority pick: the catalog is untouched, `top` is a maximum of
      the (refilled) heap, and exactly one copy of it leaves the heap. */
  predicate TopStep(g: State, top: Activity, g': State) {
    g'.all == g.all && PopStep(Refilled(g), top, g'.heap)
  }

  /** Pops a highest-priority activity, refilling the heap from the whole
      catalog first when it is empty. The invariant guarantees the heap is
      non-empty when its top is read. */
  method TopPriorityActivity(g: State) returns (top: Activity, g': State)
    requires Valid(g)
    ensures TopStep(g, top, g')
    ensures Valid(g')
  {
    var heap := g.heap;
    if |heap| == 0 {
      heap := Populate(g.all);
    }
    var rest;
    top, rest := PopMax(heap);
    g' := g.(heap := rest);
  }

  /** Calls the top-priority pick until the heap (refilled on the first call
      if it was empty) runs dry. The picks are exactly the heap's contents,
      each once, in non-increasing priority order; the next call after that
      refills the heap from the catalog. */
  method DrainRound(g: State) returns (picks: seq<Activity>, g': State)
    requires Valid(g)
    ensures g'.all == g.all
    ensures g'.heap == multiset{}
    ensures Valid(g')
    ensures multiset(picks) == Refilled(g)
    ensures g.heap == multiset{} ==> multiset(picks) == multiset(g.all)
    ensures NonIncreasing(picks)
  {
    var start := Refilled(g);
    var n := |start|;
    picks := [];
    g' := g;
    ghost var heaps := [start];
    while |picks| < n
      invariant Valid(g') && g'.all == g.all
      invariant PopChain(heaps, picks) && heaps[0] == start
      invariant |picks| == 0 ==> Refilled(g') == start
      invariant |picks| > 0 ==> g'.heap == heaps[|picks|]
      decreases n - |picks|
    {
      PopChainSize(heaps, picks);
      var top, next := TopPriorityActivity(g');
      PopChainExtend(heaps, picks, top, next.heap);
      picks := picks + [top];
      heaps := heaps + [next.heap];
      g' := next;
      assert heaps[|picks|] == g'.heap;
    }
    PopChainSize(heaps, picks);
    PopsAreOrdered(heaps, picks);
  }

  /** The pick after a drained round comes from the whole catalog again:
      the heap is refilled with every catalog record before one is popped. */
  lemma NextRoundStartsFull(g: State, top: Activity, g': State)
    requires Valid(g) && g.heap == multiset{}
    requires TopStep(g, top, g')
    ensures top in g.all
    ensures g'.heap == multiset(g.all) - multiset{top}
    ensures |g'.heap| == |g.all| - 1
  {
  }

  /** Both filters scan the catalog, then shuffle what they found. */
  method Suggestions(g: State, c: Criterion) returns (r: seq<Activity>)
    ensures multiset(r) == multiset(Filter(g.all, c))
  {
    var found := Scan(g.all, c);
    r := Shuffle(found);
  }

  /** The catalog activities suiting `mood`, in shuffled order. */
  method ActivitiesByMood(g: State, mood: string) returns (r: seq<Activity>)
    ensures multiset(r) == multiset(Filter(g.all, Mood(mood)))
    ensures forall a :: a in r <==> a in g.all && Matches(Mood(mood), a)
  {
    r := Suggestions(g, Mood(mood));
    forall a
      ensures a in r <==> a in g.all && Matches(Mood(mood), a)
    {
      FilterMember(g.all, Mood(mood), a);
      assert a in r <==> a in multiset(r);
    }
  }

  /** The catalog activities that fit in `maxTime` minutes, in shuffled order. */
  method ActivitiesByTime(g: State, maxTime: int) returns (r: seq<Activity>)
    ensures multiset(r) == multiset(Filter(g.all, WithinTime(maxTime)))
    ensures forall a :: a in r <==> a in g.all && a.timeRequired <= maxTime
  {
    r := Suggestions(g, WithinTime(maxTime));
    forall a
      ensures a in r <==> a in g.all && a.timeRequired <= maxTime
    {
      FilterMember(g.all, WithinTime(maxTime), a);
      assert a in r <==> a in multiset(r);
    }
  }

  /** The effect of adding a custom activity: it is appended to the catalog
      and the heap is reset to the whole new catalog. */
  predicate Appended(g: State, a: Activity, g': State) {
    g'.all == g.all + [a] && g'.heap == multiset(g'.all)
  }

  /** Adds `a` (the fields read from the user) to the catalog. The heap is
      refilled at once, so the current round restarts and `a` can come out
      of the very next top-priority pick. */
  method AddCustomActivity(g: State, a: Activity) returns (g': State)
    ensures Appended(g, a, g')
    ensures g'.all[..|g.all|] == g.all && g'.all[|g.all|] == a
    ensures a in g'.heap
    ensures Valid(g')
  {
    var all := g.all + [a];
    var heap := Populate(all);
    g' := State(all, heap);
    assert all[|g.all|] == a;
  }

  /** The transitions the generator's operations allow. Random picks and
      the filters leave the state as it was; the public refill resets the
      heap to the whole catalog. */
  ghost predicate Next(g: State, g': State) {
    || g' == g
    || g' == State(g.all, multiset(g.all))
    || (exists top :: TopStep(g, top, g'))
    || (exists a :: Appended(g, a, g'))
  }

  /** Every transition keeps the invariant, and the catalog only grows. */
  lemma NextKeepsValid(g: State, g': State)
    requires Valid(g)
    requires Next(g, g')
    ensures Valid(g') && g.all <= g'.all
  {
    if g' == g || g' == State(g.all, multiset(g.all)) {
    } else if exists top :: TopStep(g, top, g') {
      var top :| TopStep(g, top, g');
      assert g'.heap <= Refilled(g);
    } else {
      var a :| Appended(g, a, g');
      assert g.all <= g'.all;
    }
  }

  /** Whatever sequence of operations runs from a valid state (such as the
      one construction yields), the invariant keeps holding and the starting
      catalog stays a prefix of the catalog. */
  lemma {:induction false} ReachableStatesAreValid(trace: seq<State>)
    requires |trace| > 0 && Valid(trace[0])
    requires forall k :: 0 <= k < |trace| - 1 ==> Next(trace[k], trace[k + 1])
    ensures forall k :: 0 <= k < |trace| ==> Valid(trace[k]) && trace[0].all <= trace[k].all
  {
    var n := |trace| - 1;
    if n > 0 {
      var prefix := trace[..n];
      ReachableStatesAreValid(prefix);
      NextKeepsValid(trace[n - 1], trace[n]);
      forall k | 0 <= k < |trace|
        ensures Valid(trace[k]) && trace[0].all <= trace[k].all
      {
        if k < n {
          assert trace[k] == prefix[k];
        }
      }
    }
  }
}
