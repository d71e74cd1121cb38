/** The grouping loop of `processDetectedObject`: observations are grouped
    by label in a map, and a running maximum remembers the label whose
    group first became the largest. */
module Grouping {

  /** One `(position, areaSize)` pair of a label's list. */
  datatype Entry = Entry(position: string, area: real)

  /** A recognition after bucketing: its label and its pair. */
  datatype Observation = Observation(title: string, entry: Entry)

  /** The loop's three variables: `objectCounter`, `maxTitle`, `maxCount`. */
  datatype Tally = Tally(groups: map<string, seq<Entry>>, maxTitle: string, maxCount: nat)

  const Empty: Tally := Tally(map[], "", 0)

  /** One iteration: fetch the label's list (or a fresh one), append the
      pair, take over the maximum on a strictly larger count, store the list. */
  function Push(t: Tally, o: Observation): Tally
  {
    var list := (if o.title in t.groups then t.groups[o.title] else []) + [o.entry];
    if |list| > t.maxCount then Tally(t.groups[o.title := list], o.title, |list|)
    else Tally(t.groups[o.title := list], t.maxTitle, t.maxCount)
  }

  /** The loop run over a whole batch, left to right. */
  function TallyOf(obs: seq<Observation>): Tally
    decreases |obs|
  {
    if obs == [] then Empty else Push(TallyOf(obs[..|obs| - 1]), obs[|obs| - 1])
  }

  /** The labels present in a batch. */
  function Titles(obs: seq<Observation>): set<string> {
    set i | 0 <= i < |obs| :: obs[i].title
  }

  /** Reference definition of a label's group: the pairs of its occurrences, in input order. */
  function GroupOf(obs: seq<Observation>, title: string): (g: seq<Entry>)
    ensures |g| <= |obs|
    ensures g == [] <==> title !in Titles(obs)
    decreases |obs|
  {
    if obs == [] then []
    else
      TitlesSnoc(obs);
      GroupOf(obs[..|obs| - 1], title) + (if obs[|obs| - 1].title == title then [obs[|obs| - 1].entry] else [])
  }

  /** The size of its label's group right after observation `j` was added. */
  function ReachCount(obs: seq<Observation>, j: int): nat
    requires 0 <= j < |obs|
  {
    |GroupOf(obs[..j + 1], obs[j].title)|
  }

  /** Observation `k` is where some label's group first grows to size `c`:
      no earlier observation brought its own group to `c`. */
  predicate FirstToReach(obs: seq<Observation>, k: int, c: nat) {
    && 0 <= k < |obs|
    && ReachCount(obs, k) == c
    && forall j :: 0 <= j < k ==> ReachCount(obs, j) < c
  }

  lemma TitlesSnoc(obs: seq<Observation>)
    requires obs != []
    ensures Titles(obs) == Titles(obs[..|obs| - 1]) + {obs[|obs| - 1].title}
  {
    var p := obs[..|obs| - 1];
    forall t | t in Titles(obs) ensures t in Titles(p) + {obs[|obs| - 1].title} {
      var i :| 0 <= i < |obs| && obs[i].title == t;
      if i < |obs| - 1 {
        assert p[i] == obs[i];
      }
    }
    forall t | t in Titles(p) ensures t in Titles(obs) {
      var i :| 0 <= i < |p| && p[i].title == t;
      assert obs[i] == p[i];
    }
  }

  /** Reach counts of observations already present do not change when the batch grows. */
  lemma ReachCountPrefix(obs: seq<Observation>, j: int)
    requires 0 <= j < |obs| - 1
    ensures ReachCount(obs[..|obs| - 1], j) == ReachCount(obs, j)
  {
    assert obs[..|obs| - 1][..j + 1] == obs[..j + 1];
  }

  /** The map of the loop holds exactly the labels seen, each with its group. */
  lemma {:induction false} TallyGroups(obs: seq<Observation>)
    ensures TallyOf(obs).groups.Keys == Titles(obs)
    ensures forall t :: t in TallyOf(obs).groups ==> TallyOf(obs).groups[t] == GroupOf(obs, t)
  {
    if obs != [] {
      var p := obs[..|obs| - 1];
      TallyGroups(p);
      TitlesSnoc(obs);
    }
  }

  /** One iteration touches only the observed label's list, which grows by
      that observation's pair, and the maximum never decreases. */
  lemma PushFrame(t: Tally, o: Observation)
    ensures Push(t, o).groups.Keys == t.groups.Keys + {o.title}
    ensures forall k :: k in t.groups && k != o.title ==> Push(t, o).groups[k] == t.groups[k]
    ensures Push(t, o).groups[o.title] == (if o.title in t.groups then t.groups[o.title] else []) + [o.entry]
    ensures t.maxCount <= Push(t, o).maxCount
    ensures |Push(t, o).groups[o.title]| <= Push(t, o).maxCount
    ensures Push(t, o).maxTitle != t.maxTitle ==> Push(t, o).maxTitle == o.title
  {
  }

  /** After a batch, the map has at most one key per observation, no list is
      empty or longer than the batch, and the maximum is positive exactly
      when the batch is non-empty. */
  lemma {:induction false} TallyBounds(obs: seq<Observation>)
    ensures |TallyOf(obs).groups.Keys| <= |obs|
    ensures forall k :: k in TallyOf(obs).groups ==> 1 <= |TallyOf(obs).groups[k]| <= |obs|
    ensures TallyOf(obs).maxCount <= |obs|
    ensures obs != [] <==> TallyOf(obs).maxCount >= 1
  {
    if obs != [] {
      var p := obs[..|obs| - 1];
      TallyBounds(p);
      var t := TallyOf(p);
      var o := obs[|obs| - 1];
      PushFrame(t, o);
      assert TallyOf(obs).groups.Keys <= t.groups.Keys + {o.title};
      assert |t.groups.Keys + {o.title}| <= |t.groups.Keys| + 1;
    }
  }

  /** One step of the running maximum, stated with the reach count of the new observation. */
  lemma StepMax(obs: seq<Observation>)
    requires obs != []
    ensures var p := obs[..|obs| - 1];
            var x := obs[|obs| - 1];
            var c := ReachCount(obs, |obs| - 1);
            && c == |GroupOf(obs, x.title)| == |GroupOf(p, x.title)| + 1
            && TallyOf(obs).maxCount == (if c > TallyOf(p).maxCount then c else TallyOf(p).maxCount)
            && TallyOf(obs).maxTitle == (if c > TallyOf(p).maxCount then x.title else TallyOf(p).maxTitle)
  {
    var p := obs[..|obs| - 1];
    assert obs[..|obs|] == obs;
    TallyGroups(p);
  }

  /** `maxCount` is the size of the largest group, and `maxTitle` names a
      label whose group has that size. */
  lemma {:induction false} MaxIsLargestGroup(obs: seq<Observation>)
    ensures forall t :: |GroupOf(obs, t)| <= TallyOf(obs).maxCount
    ensures obs == [] ==> TallyOf(obs).maxCount == 0 && TallyOf(obs).maxTitle == ""
    ensures obs != [] ==>
      TallyOf(obs).maxTitle in Titles(obs) && |GroupOf(obs, TallyOf(obs).maxTitle)| == TallyOf(obs).maxCount
  {
    if obs != [] {
      var p := obs[..|obs| - 1];
      var x := obs[|obs| - 1];
      MaxIsLargestGroup(p);
      StepMax(obs);
      TitlesSnoc(obs);
      forall t ensures |GroupOf(obs, t)| <= TallyOf(obs).maxCount {
        if t != x.title {
          assert GroupOf(obs, t) == GroupOf(p, t) + [];
        }
      }
      var mt := TallyOf(obs).maxTitle;
      if mt != x.title {
        assert GroupOf(obs, mt) == GroupOf(p, mt) + [];
      }
    }
  }

  /** No observation ever pushes its group beyond the final maximum. */
  lemma {:induction false} ReachBounded(obs: seq<Observation>)
    ensures forall j :: 0 <= j < |obs| ==> ReachCount(obs, j) <= TallyOf(obs).maxCount
  {
    if obs != [] {
      var p := obs[..|obs| - 1];
      ReachBounded(p);
      StepMax(obs);
      forall j | 0 <= j < |obs| - 1 ensures ReachCount(obs, j) <= TallyOf(obs).maxCount {
        ReachCountPrefix(obs, j);
      }
    }
  }

  /** Some observation brings its group to the final maximum. */
  lemma {:induction false} MaxAttained(obs: seq<Observation>) returns (j: int)
    requires obs != []
    ensures 0 <= j < |obs| && ReachCount(obs, j) == TallyOf(obs).maxCount
  {
    var p := obs[..|obs| - 1];
    StepMax(obs);
    if ReachCount(obs, |obs| - 1) > TallyOf(p).maxCount {
      j := |obs| - 1;
    } else {
      if p == [] {
        assert false;
      }
      j := MaxAttained(p);
      ReachCountPrefix(obs, j);
    }
  }

  /** Ties go to the earlier label: `maxTitle` is the label of the first
      observation whose group reaches the maximum. */
  lemma {:induction false} MaxTitleFirstToReach(obs: seq<Observation>, k: int)
    requires FirstToReach(obs, k, TallyOf(obs).maxCount)
    ensures TallyOf(obs).maxTitle == obs[k].title
  {
    var n := |obs|;
    var p := obs[..n - 1];
    var m := TallyOf(obs).maxCount;
    StepMax(obs);
    if k == n - 1 {
      if ReachCount(obs, n - 1) <= TallyOf(p).maxCount {
        assert p != [];
        var j := MaxAttained(p);
        ReachCountPrefix(obs, j);
        assert false;
      }
    } else {
      ReachCountPrefix(obs, k);
      ReachBounded(p);
      forall j | 0 <= j < k ensures ReachCount(p, j) < TallyOf(p).maxCount {
        ReachCountPrefix(obs, j);
      }
      MaxTitleFirstToReach(p, k);
    }
  }

  /** With a single label present, its group is the whole batch's pairs. */
  lemma {:induction false} SingleLabelGroup(obs: seq<Observation>, title: string)
    requires Titles(obs) <= {title}
    ensures |GroupOf(obs, title)| == |obs|
    ensures forall i :: 0 <= i < |obs| ==> GroupOf(obs, title)[i] == obs[i].entry
  {
    if obs != [] {
      var p := obs[..|obs| - 1];
      TitlesSnoc(obs);
      SingleLabelGroup(p, title);
    }
  }

  /** The loop of `processDetectedObject` as written, over observations that
      have already been bucketed. */
  method CountObjects(obs: seq<Observation>)
    returns (objectCounter: map<string, seq<Entry>>, maxTitle: string, maxCount: nat)
    ensures objectCounter.Keys == Titles(obs)
    ensures forall t :: t in objectCounter ==> objectCounter[t] == GroupOf(obs, t)
    ensures forall t :: |GroupOf(obs, t)| <= maxCount
    ensures obs != [] ==> maxTitle in objectCounter && |objectCounter[maxTitle]| == maxCount
    ensures forall k :: FirstToReach(obs, k, maxCount) ==> maxTitle == obs[k].title
  {
    objectCounter := map[];
    maxTitle := "";
    maxCount := 0;
    var i := 0;
    while i < |obs|
      invariant 0 <= i <= |obs|
      invariant Tally(objectCounter, maxTitle, maxCount) == TallyOf(obs[..i])
    {
      var o := obs[i];
      var positionList := (if o.title in objectCounter then objectCounter[o.title] else []) + [o.entry];
      if |positionList| > maxCount {
        maxCount := |positionList|;
        maxTitle := o.title;
      }
      objectCounter := objectCounter[o.title := positionList];
      assert obs[..i + 1][..i] == obs[..i];
      i := i + 1;
    }
    assert obs[..i] == obs;
    TallyGroups(obs);
    MaxIsLargestGroup(obs);
    forall k | FirstToReach(obs, k, maxCount) ensures maxTitle == obs[k].title {
      MaxTitleFirstToReach(obs, k);
    }
  }
}
