/** The activity record and the ordering the priority heap uses. */
module Activities {

  /** One leisure suggestion. Energy level and priority are conventionally
      1..5 and time is in minutes, but none of these ranges is enforced. */
  datatype Activity = Activity(
    name: string,
    category: string,
    energyLevel: int,
    timeRequired: int,
    priority: int
  )

  /** The record returned by a random pick on an empty catalog. */
  const NoActivity: Activity := Activity("No activities available", "None", 0, 0, 0)

  /** The heap's comparison: `a` ranks below `b` when its priority is lower.
      Every other field is ignored, so records of equal priority are tied. */
  predicate Less(a: Activity, b: Activity) {
    a.priority < b.priority
  }

  /** Ties under `Less`: neither record ranks below the other. */
  predicate Tied(a: Activity, b: Activity) {
    !Less(a, b) && !Less(b, a)
  }

  /** `Less` is a strict weak ordering, the requirement a standard max-heap
      places on the `operator<` it is given: irreflexive, transitive, and
      ties are transitive, so the tied records form classes (one per
      priority value). The lemma documents that the source's comparison
      meets that requirement; the heap proofs use `Less` directly. */
  lemma LessIsStrictWeakOrder(a: Activity, b: Activity, c: Activity)
    ensures !Less(a, a)
    ensures Less(a, b) && Less(b, c) ==> Less(a, c)
    ensures Tied(a, b) && Tied(b, c) ==> Tied(a, c)
    ensures Tied(a, b) <==> a.priority == b.priority
  {
  }
}
