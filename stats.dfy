/** The figures of the statistics page (js/stats.js): the combined item list, focus
    score, completion rate, the activity map behind the heatmap, the heatmap levels and the
    category chart counts. */
module Stats {
  import opened Common
  import opened Seqs
  import opened Assoc
  import opened Items
  import Tasks
  import Projects

  /** The combined list of both pages: dashboard tasks, then project tasks, then planner
      items (the calendar copies project icons, the statistics page does not). */
  function Combined(tasks: seq<Tasks.Task>, ps: seq<Projects.Project>, planner: seq<Item>, withIcon: bool): (r: seq<Item>)
    ensures |r| == |tasks| + TaskTotal(ps) + |planner|
    ensures r[..|tasks|] == FromTasks(tasks)
    ensures r[|tasks|..|tasks| + TaskTotal(ps)] == ProjectTaskItems(ps, withIcon)
    ensures r[|tasks| + TaskTotal(ps)..] == planner
  {
    var a, b := FromTasks(tasks), ProjectTaskItems(ps, withIcon);
    assert (a + b + planner)[..|a|] == a;
    assert (a + b + planner)[|a|..|a| + |b|] == b;
    a + b + planner
  }

  predicate IsCompleted(it: Item) {
    it.completed
  }

  /** completedTasks: the completed items of the combined list, in order. */
  function CompletedItems(items: seq<Item>): (r: seq<Item>)
    ensures |r| <= |items|
    ensures forall it :: it in r <==> it in items && it.completed
  {
    FilterMembersAll(items, IsCompleted);
    Filter(items, IsCompleted)
  }

  // ----- focus score -----

  /** The weight of a completed item: 3 for high, 2 for medium, 1 for anything else. */
  function Weight(it: Item): (w: nat)
    ensures 1 <= w <= 3
    ensures w == 3 <==> it.priority == Some("high")
    ensures w == 2 <==> it.priority == Some("medium")
  {
    if it.priority == Some("high") then 3
    else if it.priority == Some("medium") then 2
    else 1
  }

  function WeightSum(items: seq<Item>): nat {
    if items == [] then 0 else WeightSum(items[..|items| - 1]) + Weight(items[|items| - 1])
  }

  /** The score lies between the number of completed items and three times it. */
  lemma {:induction false} WeightSumBounds(items: seq<Item>)
    ensures |items| <= WeightSum(items) <= 3 * |items|
  {
    if items != [] {
      WeightSumBounds(items[..|items| - 1]);
    }
  }

  /** calculateFocusScore over the completed items. */
  method FocusScore(completed: seq<Item>) returns (score: nat)
    ensures score == WeightSum(completed)
    ensures completed == [] ==> score == 0
    ensures |completed| <= score <= 3 * |completed|
  {
    if |completed| == 0 {
      return 0;
    }
    score := 0;
    var i := 0;
    while i < |completed|
      invariant 0 <= i <= |completed|
      invariant score == WeightSum(completed[..i])
    {
      assert completed[..i + 1][..i] == completed[..i];
      score := score + Weight(completed[i]);
      i := i + 1;
    }
    assert completed[..i] == completed;
    WeightSumBounds(completed);
  }

  // ----- completion rate and pending -----

  datatype BasicStats = BasicStats(completed: nat, pending: int, rate: nat)

  /** The completed, pending and rate figures of updateBasicStats. */
  function Basic(all: seq<Item>): (r: BasicStats)
    ensures r.completed == |CompletedItems(all)| <= |all|
    ensures r.pending == |all| - r.completed && r.pending >= 0
    ensures all == [] ==> r.rate == 0
    ensures all != [] ==> r.rate == RoundPercent(r.completed, |all|) && r.rate <= 100
    ensures all != [] && r.completed == |all| ==> r.rate == 100
    ensures r.completed == 0 ==> r.rate == 0
  {
    var c := |CompletedItems(all)|;
    if |all| == 0 then BasicStats(c, |all| - c, 0)
    else
      RoundPercentRange(c, |all|);
      BasicStats(c, |all| - c, RoundPercent(c, |all|))
  }

  /** A filter that keeps as many elements as it is given keeps all of them. */
  lemma {:induction false} FilterKeepsAllWhenFull(s: seq<Item>, p: Item -> bool)
    requires |Filter(s, p)| == |s|
    ensures Filter(s, p) == s
  {
    if s != [] {
      var init, x := s[..|s| - 1], s[|s| - 1];
      assert s == init + [x];
      FilterSnoc(init, x, p);
      FilterKeepsAllWhenFull(init, p);
    }
  }

  /** When every item is completed the rate is 100 ... */
  lemma FullRateWhenAllDone(all: seq<Item>)
    requires all != [] && forall it :: it in all ==> it.completed
    ensures Basic(all).rate == 100
  {
    assert forall i :: 0 <= i < |all| ==> IsCompleted(all[i]);
    FilterAll(all, IsCompleted);
  }

  /** ... but Math.round also shows 100 while an item is still open: 199 of 200 done is
      99.5%, which rounds up. */
  lemma FullRateWithOpenItem()
    ensures RoundPercent(199, 200) == 100
  {
    QuotAdd(0, 400, 100);
    assert 200 * 199 + 200 == 0 + 100 * 400;
  }

  // ----- the heatmap -----

  /** The cell level for a day's completed count, as the chain of ifs raises it. */
  function HeatLevel(count: nat): (level: nat)
    ensures level <= 4
    ensures count == 0 <==> level == 0
    ensures 1 <= count <= 2 ==> level == 1
    ensures 3 <= count <= 4 ==> level == 2
    ensures 5 <= count <= 6 ==> level == 3
    ensures count >= 7 ==> level == 4
  {
    var l1 := if count > 0 then 1 else 0;
    var l2 := if count > 2 then 2 else l1;
    var l3 := if count > 4 then 3 else l2;
    if count > 6 then 4 else l3
  }

  /** More completions on a day never give a paler cell. */
  lemma HeatLevelMonotone(a: nat, b: nat)
    requires a <= b
    ensures HeatLevel(a) <= HeatLevel(b)
  {
  }

  /** `completedAt.split('T')[0]`: everything before the first 'T'. */
  function DatePart(s: string): (r: string)
    ensures |r| <= |s| && r == s[..|r|] && 'T' !in r
    ensures |r| < |s| ==> s[|r|] == 'T'
  {
    if s == [] || s[0] == 'T' then [] else [s[0]] + DatePart(s[1..])
  }

  predicate HasDay(it: Item) {
    Truthy(it.completedAt)
  }

  predicate CountedOn(it: Item, day: string) {
    HasDay(it) && DatePart(it.completedAt.value) == day
  }

  function CountedOnDay(day: string): Item -> bool {
    it => CountedOn(it, day)
  }

  /** One forEach step: a completion adds one to its day's entry, creating it at 1. */
  function Record(m: Assoc<nat>, it: Item): Assoc<nat> {
    if HasDay(it) then
      var day := DatePart(it.completedAt.value);
      Put(m, day, Lookup(m, day).GetOr(0) + 1)
    else m
  }

  /** The activity map as a JavaScript object: a day's entry is created at its first
      completion, so days appear in order of first completion. */
  function Activity(items: seq<Item>): Assoc<nat> {
    if items == [] then [] else Record(Activity(items[..|items| - 1]), items[|items| - 1])
  }

  /** One step adds one to a day's count exactly when the item was completed that day. */
  lemma RecordCount(m: Assoc<nat>, it: Item, day: string)
    ensures Lookup(Record(m, it), day).GetOr(0) == Lookup(m, day).GetOr(0) + (if CountedOn(it, day) then 1 else 0)
    ensures Lookup(Record(m, it), day).Some? <==> Lookup(m, day).Some? || CountedOn(it, day)
  {
    if HasDay(it) {
      var d := DatePart(it.completedAt.value);
      var n := Lookup(m, d).GetOr(0) + 1;
      assert Record(m, it) == Put(m, d, n);
      LookupPut(m, d, n, day);
      if d == day {
        assert CountedOn(it, day);
        assert Lookup(Record(m, it), day) == Some(n);
      } else {
        assert !CountedOn(it, day);
        assert Lookup(Record(m, it), day) == Lookup(m, day);
      }
    } else {
      assert !CountedOn(it, day);
      assert Record(m, it) == m;
    }
  }

  /** Each day's entry counts exactly the items completed that day, and a day without
      completions has no entry. */
  lemma {:induction false} ActivityCounts(items: seq<Item>, day: string)
    ensures Lookup(Activity(items), day).GetOr(0) == |Filter(items, CountedOnDay(day))|
    ensures Lookup(Activity(items), day).Some? <==> |Filter(items, CountedOnDay(day))| > 0
  {
    if items != [] {
      var init, it := items[..|items| - 1], items[|items| - 1];
      assert items == init + [it];
      ActivityCounts(init, day);
      FilterSnoc(init, it, CountedOnDay(day));
      assert CountedOnDay(day)(it) == CountedOn(it, day);
      RecordCount(Activity(init), it, day);
    }
  }

  /** The activity map built by the heatmap's forEach loop. */
  method ActivityMap(completed: seq<Item>) returns (m: Assoc<nat>)
    ensures m == Activity(completed)
    ensures forall day :: Lookup(m, day).GetOr(0) == |Filter(completed, CountedOnDay(day))|
  {
    m := [];
    var i := 0;
    while i < |completed|
      invariant 0 <= i <= |completed|
      invariant m == Activity(completed[..i])
    {
      assert completed[..i + 1][..i] == completed[..i];
      var it := completed[i];
      if Truthy(it.completedAt) {
        var day := DatePart(it.completedAt.value);
        m := Put(m, day, Lookup(m, day).GetOr(0) + 1);
      }
      assert m == Record(Activity(completed[..i]), completed[i]);
      i := i + 1;
    }
    assert completed[..i] == completed;
    forall day ensures Lookup(m, day).GetOr(0) == |Filter(completed, CountedOnDay(day))| {
      ActivityCounts(completed, day);
    }
  }

  // ----- the category chart -----

  datatype CategoryCounts = CategoryCounts(work: nat, research: nat, study: nat, private: nat)

  predicate OpenIn(it: Item, category: string) {
    !it.completed && it.category == Some(category)
  }

  function OpenInCategory(category: string): Item -> bool {
    it => OpenIn(it, category)
  }

  /** The chart's four counters: open items of work, research, study and private. */
  function CountsOf(items: seq<Item>): CategoryCounts {
    CategoryCounts(
      |Filter(items, OpenInCategory("work"))|, |Filter(items, OpenInCategory("research"))|,
      |Filter(items, OpenInCategory("study"))|, |Filter(items, OpenInCategory("private"))|)
  }

  /** One step of the counting loop: `counts[t.category]++` for an open item of a charted
      category. */
  function Bump(c: CategoryCounts, it: Item): CategoryCounts {
    if it.completed || it.category.None? then c
    else if it.category.value == "work" then c.(work := c.work + 1)
    else if it.category.value == "research" then c.(research := c.research + 1)
    else if it.category.value == "study" then c.(study := c.study + 1)
    else if it.category.value == "private" then c.(private := c.private + 1)
    else c
  }

  /** Counting one more item bumps the counter of its category, when it is open. */
  lemma CountsOfSnoc(init: seq<Item>, x: Item)
    ensures CountsOf(init + [x]) == Bump(CountsOf(init), x)
  {
    FilterSnoc(init, x, OpenInCategory("work"));
    FilterSnoc(init, x, OpenInCategory("research"));
    FilterSnoc(init, x, OpenInCategory("study"));
    FilterSnoc(init, x, OpenInCategory("private"));
  }

  /** The counting loop of renderCategoryChart. */
  method CategoryChartCounts(items: seq<Item>) returns (c: CategoryCounts)
    ensures c == CountsOf(items)
  {
    c := CategoryCounts(0, 0, 0, 0);
    var i := 0;
    while i < |items|
      invariant 0 <= i <= |items|
      invariant c == CountsOf(items[..i])
    {
      assert items[..i + 1] == items[..i] + [items[i]];
      CountsOfSnoc(items[..i], items[i]);
      c := Bump(c, items[i]);
      i := i + 1;
    }
    assert items[..i] == items;
  }

  predicate IsOpen(it: Item) {
    !it.completed
  }

  /** The chart never shows more than the open items. */
  lemma {:induction false} CountsBound(items: seq<Item>)
    ensures var c := CountsOf(items); c.work + c.research + c.study + c.private <= |Filter(items, IsOpen)|
  {
    if items != [] {
      var init, x := items[..|items| - 1], items[|items| - 1];
      assert items == init + [x];
      CountsBound(init);
      FilterSnoc(init, x, OpenInCategory("work"));
      FilterSnoc(init, x, OpenInCategory("research"));
      FilterSnoc(init, x, OpenInCategory("study"));
      FilterSnoc(init, x, OpenInCategory("private"));
      FilterSnoc(init, x, IsOpen);
    }
  }

  /** Adding an item of the 'certification' category, which the dashboard offers,
      leaves every counter as it was. */
  lemma CertificationNotCounted(items: seq<Item>, it: Item)
    requires it.category == Some("certification")
    ensures CountsOf(items + [it]) == CountsOf(items)
  {
    FilterSnoc(items, it, OpenInCategory("work"));
    FilterSnoc(items, it, OpenInCategory("research"));
    FilterSnoc(items, it, OpenInCategory("study"));
    FilterSnoc(items, it, OpenInCategory("private"));
  }
}
