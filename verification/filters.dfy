/** The two catalog filters: by mood and by time budget. Each scans the
    catalog front to back, keeps the records that match, then shuffles. */
module Filters {
  import opened Activities

  /** What a filter selects on: a mood token, or a time budget in minutes. */
  datatype Criterion = Mood(mood: string) | WithinTime(maxTime: int)

  /** The mood tokens the mood filter recognises. */
  predicate KnownMood(mood: string) {
    mood in ["tired", "energetic", "productive", "creative", "social"]
  }

  /** Whether `a` is kept. The mood test is the source's if/else-if chain:
      each branch pairs one mood token with one field test, and a record is
      kept when any branch fires. */
  predicate Matches(c: Criterion, a: Activity) {
    match c
    case Mood(mood) =>
      || (mood == "tired" && a.energyLevel <= 2)
      || (mood == "energetic" && a.energyLevel >= 4)
      || (mood == "productive" && a.category == "Productive")
      || (mood == "creative" && a.category == "Creative")
      || (mood == "social" && a.category == "Social")
    case WithinTime(maxTime) =>
      a.timeRequired <= maxTime
  }

  /** What the scan pushes for one record: the record itself when it
      matches, nothing otherwise. */
  function Keep(c: Criterion, a: Activity): seq<Activity> {
    if Matches(c, a) then [a] else []
  }

  /** The records of `s` that match `c`, in catalog order. */
  function Filter(s: seq<Activity>, c: Criterion): (r: seq<Activity>)
    ensures |r| <= |s|
    ensures forall i :: 0 <= i < |r| ==> Matches(c, r[i])
  {
    if |s| == 0 then [] else Filter(s[..|s| - 1], c) + Keep(c, s[|s| - 1])
  }

  /** Every matching record keeps its full multiplicity in the filter's
      result; every other record is dropped. */
  lemma {:induction false} FilterCount(s: seq<Activity>, c: Criterion, a: Activity)
    ensures multiset(Filter(s, c))[a] == if Matches(c, a) then multiset(s)[a] else 0
  {
    if |s| > 0 {
      var init, last := s[..|s| - 1], s[|s| - 1];
      assert s == init + [last];
      FilterCount(init, c, a);
      KeepCount(c, last, a);
      assert Filter(s, c) == Filter(init, c) + Keep(c, last);
      assert multiset(s) == multiset(init) + multiset{last};
    }
  }

  /** The count of one record in what the scan pushes for another. */
  lemma KeepCount(c: Criterion, b: Activity, a: Activity)
    ensures multiset(Keep(c, b))[a] == if Matches(c, a) then multiset{b}[a] else 0
  {
  }

  /** A record is in the filter's result exactly when it is in the catalog
      and matches. */
  lemma FilterMember(s: seq<Activity>, c: Criterion, a: Activity)
    ensures a in Filter(s, c) <==> a in s && Matches(c, a)
  {
    FilterCount(s, c, a);
    assert a in Filter(s, c) <==> multiset(Filter(s, c))[a] > 0;
    assert a in s <==> multiset(s)[a] > 0;
  }

  /** The linear scan both filters share: push every matching record, in
      catalog order. */
  method Scan(all: seq<Activity>, c: Criterion) returns (found: seq<Activity>)
    ensures found == Filter(all, c)
  {
    found := [];
    var i := 0;
    while i < |all|
      invariant 0 <= i <= |all|
      invariant found == Filter(all[..i], c)
    {
      FilterPrefixStep(all, i, c);
      if Matches(c, all[i]) {
        found := found + [all[i]];
      }
      i := i + 1;
    }
    assert all[..i] == all;
  }

  /** Appending one record to the catalog appends it to the filter's
      result when it matches and changes nothing otherwise. */
  lemma FilterSnoc(s: seq<Activity>, a: Activity, c: Criterion)
    ensures Filter(s + [a], c) == Filter(s, c) + Keep(c, a)
  {
    var s' := s + [a];
    assert s'[..|s'| - 1] == s;
    assert s'[|s'| - 1] == a;
  }

  /** The scan's step: one more record of the catalog. */
  lemma FilterPrefixStep(s: seq<Activity>, i: nat, c: Criterion)
    requires i < |s|
    ensures Filter(s[..i + 1], c) == Filter(s[..i], c) + Keep(c, s[i])
  {
    assert s[..i + 1] == s[..i] + [s[i]];
    FilterSnoc(s[..i], s[i], c);
  }

  /** Filtering distributes over concatenation. */
  lemma {:induction false} FilterConcat(s: seq<Activity>, t: seq<Activity>, c: Criterion)
    ensures Filter(s + t, c) == Filter(s, c) + Filter(t, c)
  {
    if |t| == 0 {
      assert s + t == s;
    } else {
      var n := |t| - 1;
      var init, last := t[..n], t[n];
      assert t == init + [last];
      assert s + t == (s + init) + [last];
      calc {
        Filter(s + t, c);
        { FilterSnoc(s + init, last, c); }
        Filter(s + init, c) + Keep(c, last);
        { FilterConcat(s, init, c); }
        (Filter(s, c) + Filter(init, c)) + Keep(c, last);
        Filter(s, c) + (Filter(init, c) + Keep(c, last));
        { FilterSnoc(init, last, c); }
        Filter(s, c) + Filter(t, c);
      }
    }
  }

  /** A Fisher-Yates shuffle. The random source is abstracted: at each step
      the swap partner is any index not above the current one. */
  method Shuffle(s: seq<Activity>) returns (r: seq<Activity>)
    ensures |r| == |s|
    ensures multiset(r) == multiset(s)
  {
    r := s;
    var i := 1;
    while i < |r|
      invariant |r| == |s|
      invariant multiset(r) == multiset(s)
    {
      var j :| 0 <= j <= i;
      r := r[i := r[j]][j := r[i]];
      i := i + 1;
    }
  }

  /** The filter behind a mood, one mood at a time: each known mood keeps
      exactly the records passing its own field test, and any other string
      keeps nothing. */
  lemma MoodFilterTable(s: seq<Activity>, mood: string, a: Activity)
    ensures mood == "tired" ==> (a in Filter(s, Mood(mood)) <==> a in s && a.energyLevel <= 2)
    ensures mood == "energetic" ==> (a in Filter(s, Mood(mood)) <==> a in s && a.energyLevel >= 4)
    ensures mood == "productive" ==> (a in Filter(s, Mood(mood)) <==> a in s && a.category == "Productive")
    ensures mood == "creative" ==> (a in Filter(s, Mood(mood)) <==> a in s && a.category == "Creative")
    ensures mood == "social" ==> (a in Filter(s, Mood(mood)) <==> a in s && a.category == "Social")
    ensures !KnownMood(mood) ==> Filter(s, Mood(mood)) == []
  {
    FilterMember(s, Mood(mood), a);
  }

  /** A larger time budget keeps every record a smaller one keeps, with at
      least the same multiplicity. */
  lemma {:induction false} TimeFilterMonotone(s: seq<Activity>, t1: int, t2: int)
    requires t1 <= t2
    ensures multiset(Filter(s, WithinTime(t1))) <= multiset(Filter(s, WithinTime(t2)))
  {
    var small := Filter(s, WithinTime(t1));
    var large := Filter(s, WithinTime(t2));
    forall a
      ensures multiset(small)[a] <= multiset(large)[a]
    {
      FilterCount(s, WithinTime(t1), a);
      FilterCount(s, WithinTime(t2), a);
    }
  }
}
