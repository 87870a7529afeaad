# Boredom Buster activity generator in Dafny

Boredom Buster is a terminal tool that suggests leisure activities. Its only
logic is the `ActivityGenerator` class of `main.cpp`. This project models
that class and proves properties of it.

The class holds two things:

- The catalog (`allActivities`). It lists every activity in insertion
  order: the eighteen built-in records first, then the ones the user
  adds. Nothing is ever removed.
- A max-priority dispenser (`activityHeap`). It holds a snapshot of the
  catalog and hands out the highest-priority activity left. When it runs
  dry, it refills from the whole catalog.

Its operations are:

- a uniformly random pick;
- a top-priority pick;
- two filters, one by mood and one by time budget, that return the
  matching activities in shuffled order;
- adding a custom activity.

The model has five modules:

- `Activities` (`activity.dfy`): the `Activity` record, the sentinel the
  random pick returns on an empty catalog, and the heap's ordering `Less`
  (the source's `operator<`, which compares priorities only).
- `Filters` (`filters.dfy`):
  - the mood and time criteria (`Matches` is the source's `if`/`else if`
    chain);
  - the reference `Filter` and the facts about it;
  - the front-to-back scan loop `Scan`;
  - a Fisher-Yates `Shuffle`.
- `PriorityHeap` (`heap.dfy`): the dispenser as a `multiset<Activity>`.
  It covers refilling from a catalog (`Populate`), popping a maximum
  (`PopMax`), and what a chain of pops hands out (`PopsAreOrdered`).
- `ActivityGenerator` (`generator.dfy`):
  - the state `State(all, heap)` and its class invariant `Valid`: the
    catalog is non-empty and the heap holds nothing the catalog lacks;
  - the seed data, the constructor and the five operations;
  - a whole round of top-priority picks (`DrainRound`);
  - the transition relation `Next` and the proof that every reachable
    state keeps the invariant.
- `SeedFacts` (`seed_facts.dfy`): what the filters and the dispenser give
  on the built-in catalog.

The random source is not part of the state:

- The random pick takes the drawn index as a parameter.
- The shuffle picks each swap partner nondeterministically (`:|`).

So the random pick and both filters take the state as a value and return
no new state. This is how the model shows that they leave the catalog and
the heap unchanged.

## Model

| member | source | states |
|---|---|---|
| `Activities.LessIsStrictWeakOrder` | main.cpp:22-24 | The heap's comparison looks at priority only. It is irreflexive and transitive, and ties are transitive. Two records tie exactly when their priorities are equal. |
| `Filters.Filter` | main.cpp:100-118 | The scan's result is no longer than the catalog. Every record in it satisfies the criterion. |
| `Filters.FilterCount` | main.cpp:102-118 | Each matching record appears in the filtered result as many times as in the catalog. A non-matching record does not appear at all. |
| `Filters.FilterMember` | main.cpp:102-118 | A record is in the filtered result if and only if it is in the catalog and matches. |
| `Filters.Scan` | main.cpp:102-132 | The front-to-back push loop of either filter (mood at lines 102-118, time at 128-132) builds exactly the reference filter, in catalog order. |
| `Filters.Shuffle` | main.cpp:121 | The shuffle returns a permutation of its input: same length, same multiset. |
| `Filters.MoodFilterTable` | main.cpp:103-117 | Each mood keeps exactly the records that pass its rule. "tired" means energy ≤ 2. "energetic" means energy ≥ 4. "productive", "creative" and "social" mean category "Productive", "Creative" and "Social". Any other string keeps nothing. |
| `Filters.TimeFilterMonotone` | main.cpp:129 | A larger time budget keeps a multiset superset of what a smaller one keeps. |
| `PriorityHeap.Populate` | main.cpp:75-80 | Clearing the heap and pushing every catalog record leaves exactly the catalog's multiset. |
| `PriorityHeap.PopMax` | main.cpp:94-95 | The top of a non-empty heap is in the heap. No record of the heap outranks it. Popping removes exactly one copy of it. |
| `PriorityHeap.PopsAreOrdered` | main.cpp:89-97 | In any chain of pops, the picks plus what is left equal the starting heap. The picks come out in non-increasing priority. No pick ranks below what is left. |
| `ActivityGenerator.New` | main.cpp:41-73 | Construction leaves the catalog equal to the seed data. The heap then holds exactly the catalog's multiset, and the class invariant holds. |
| `ActivityGenerator.RandomActivity` | main.cpp:82-87 | On a non-empty catalog, the pick is a catalog member. On an empty catalog, it is the sentinel ("No activities available", "None", 0, 0, 0). |
| `ActivityGenerator.RandomPickReachesEveryActivity` | main.cpp:85-86 | Every catalog activity is the outcome of some draw in the range 0 .. size - 1. |
| `ActivityGenerator.TopPriorityActivity` | main.cpp:89-97 | An empty heap is first refilled from the whole catalog. The pick is a maximum of the heap. The new heap is that heap minus one copy of the pick. The catalog does not change and the invariant holds. |
| `ActivityGenerator.DrainRound` | main.cpp:89-97 | Consecutive top-priority picks until the heap runs dry return each record of the (refilled) heap exactly once, in non-increasing priority. If the heap started empty, they return a permutation of the whole catalog. The heap ends empty, so the next pick refills. |
| `ActivityGenerator.NextRoundStartsFull` | main.cpp:90-95 | The first pick after a drained round comes from the whole catalog. The refilled heap loses exactly that one copy, so it holds one record less than the catalog. |
| `ActivityGenerator.Suggestions` | main.cpp:125-135 | Scan followed by shuffle returns a permutation of the filtered catalog. |
| `ActivityGenerator.ActivitiesByMood` | main.cpp:99-123 | The result is a permutation of the catalog records that match the mood. A record is in it if and only if it is in the catalog and matches. |
| `ActivityGenerator.ActivitiesByTime` | main.cpp:125-136 | The result is a permutation of the catalog records with `timeRequired ≤ maxTime`. A record is in it if and only if it is in the catalog and fits the budget. |
| `ActivityGenerator.AddCustomActivity` | main.cpp:158-159 | The catalog becomes the old catalog plus the new record at the end, so the old prefix is unchanged. The heap is reset to the whole new catalog, so the new record can come out of the very next pick. The invariant holds afterwards, whatever state came before. |
| `ActivityGenerator.NextKeepsValid` | main.cpp:75-159 | Each transition (a read-only operation, a direct refill, a top-priority pick, an append) keeps the invariant and never shrinks the catalog. |
| `ActivityGenerator.ReachableStatesAreValid` | main.cpp:41-73 | Along any run from a valid state, such as the constructed one, every state keeps the invariant. The starting catalog stays a prefix of the catalog, so it is never empty and the heap's top is never read on an empty heap. |
| `SeedFacts.SeedOrder` | main.cpp:41-67 | The seed data is eighteen activities, listed here in source order. |
| `SeedFacts.SeedTired` | main.cpp:103-104 | Before shuffling, mood "tired" on the seed data keeps eight activities, listed here in catalog order. |
| `SeedFacts.SeedEnergetic` | main.cpp:106-107 | Before shuffling, mood "energetic" on the seed data keeps five activities, listed here in catalog order. |
| `SeedFacts.SeedWithin30` | main.cpp:129-130 | Before shuffling, a 30-minute budget on the seed data keeps five activities, listed here in catalog order. |
| `SeedFacts.SeedPrioritiesAtMostFive` | main.cpp:43-66 | No seeded activity has a priority above 5. |
| `SeedFacts.SeedTopHasPriorityFive` | main.cpp:94 | Any maximum of the heap filled from the seed data, and so the first top-priority pick after construction, has priority 5. |

Three behaviours of the code are worth stating plainly:

- **Mood "tired".** On the seed data, mood "tired" keeps eight
  activities. Among them are "Read a book" and "Join an online
  community", both of energy 2 (`SeedTired`).
- **Budget of 30 minutes.** On the seed data, a 30-minute budget keeps
  five activities. Among them is "Write in a journal", which takes exactly
  30 minutes (`SeedWithin30`).
- **Appending mid-round.** An append refills the heap at once
  (main.cpp:159). So the current round restarts with the whole catalog,
  new activity included (`AddCustomActivity`).

## Left out

- Console output is not modelled: `Activity::display`,
  `displayAllActivities`, the menu, the `main` loop, and the shell's
  "show at most three" truncation. Listing all activities is just reading
  the catalog.
- Console input is not modelled: the prompts in `addCustomActivity`. The
  new record's fields are a parameter of `AddCustomActivity` instead.
- The random engine is not modelled: `std::random_device`,
  `std::mt19937` and `std::uniform_int_distribution`. The drawn index is a
  parameter, and the shuffle picks swap partners nondeterministically.
- The distribution of random results is not modelled.
  `ActivityGenerator.RandomActivity` states membership only, not
  uniformity, because the engine is not modelled.
  `RandomPickReachesEveryActivity` proves that every index can be drawn.
- `Filters.Shuffle` promises a permutation only, not which one. The swap
  sequence of the library's `std::shuffle` is not modelled.
- The layout of `std::priority_queue` is not modelled. Neither is which of
  several equal-priority records comes out first: the model leaves that
  choice open.
- The default priority argument of the `Activity` constructor (1) is not
  modelled, because every call in the source passes a priority.
- Integer width is not modelled: fields are unbounded `int`s. The code
  only compares them, so 32-bit wrap-around cannot arise. The conversion
  of `allActivities.size() - 1` to `int` for the index range (main.cpp:85)
  would only matter beyond 2^31 activities.
- Reading the top of an empty heap is undefined in the source
  (main.cpp:94). `ActivityGenerator.TopPriorityActivity` therefore
  requires the class invariant, which construction establishes and every
  operation keeps.
