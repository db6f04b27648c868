/**
 * The statistics the dashboard computes from the cached lists: contact
 * count, open deals, pipeline value, pending tasks, the five most recent
 * activities and the five open tasks due first. `sort` is the stable
 * array sort, written here as an insertion sort on due dates.
 */
module Dashboard {
  import opened Domain
  import opened Seqs

  function IsClosed(d: Deal): bool { d.stage == "closed" }
  function IsOpen(d: Deal): bool { d.stage != "closed" }
  function DealValue(d: Deal): int { d.value }
  function IsTodo(t: Task): bool { t.status == "TODO" }
  function NotDone(t: Task): bool { t.status != "DONE" }

  /** Ascending by due date. */
  ghost predicate SortedByDue(s: seq<Task>) {
    forall i, j :: 0 <= i < j < |s| ==> s[i].dueDate <= s[j].dueDate
  }

  /** A task due no later than every task of a sorted list can go in front of it. */
  lemma SortedCons(x: Task, rest: seq<Task>)
    requires SortedByDue(rest)
    requires forall y :: y in rest ==> x.dueDate <= y.dueDate
    ensures SortedByDue([x] + rest)
  {
    forall i, j | 0 <= i < j < |[x] + rest|
      ensures ([x] + rest)[i].dueDate <= ([x] + rest)[j].dueDate
    {
      if i == 0 {
        assert ([x] + rest)[j] == rest[j - 1];
        assert rest[j - 1] in rest;
      }
    }
  }

  /** The head of a sorted list is due no later than anything the rest of it, with `t` inserted, holds. */
  lemma HeadNoLater(s: seq<Task>, t: Task, rest: seq<Task>)
    requires SortedByDue(s) && s != [] && s[0].dueDate <= t.dueDate
    requires multiset(rest) == multiset(s[1..]) + multiset{t}
    ensures forall y :: y in rest ==> s[0].dueDate <= y.dueDate
  {
    forall y | y in rest ensures s[0].dueDate <= y.dueDate {
      assert y in multiset(rest);
      if y != t {
        var k :| 0 <= k < |s[1..]| && s[1..][k] == y;
        assert s[k + 1] == y;
      }
    }
  }

  /** Insert `t` before the first task due no earlier, so it stays ahead of tasks due at the same time. */
  function InsertByDue(t: Task, s: seq<Task>): (r: seq<Task>)
    requires SortedByDue(s)
    ensures SortedByDue(r)
    ensures multiset(r) == multiset(s) + multiset{t}
    ensures |r| == |s| + 1
  {
    if s == [] then [t]
    else if t.dueDate <= s[0].dueDate then [t] + s
    else
      var rest := InsertByDue(t, s[1..]);
      HeadNoLater(s, t, rest);
      SortedCons(s[0], rest);
      assert s == [s[0]] + s[1..];
      [s[0]] + rest
  }

  /** `[...s].sort((a, b) => a.dueDate - b.dueDate)`: the same tasks, ascending by due date. */
  function SortByDue(s: seq<Task>): (r: seq<Task>)
    ensures SortedByDue(r)
    ensures multiset(r) == multiset(s)
    ensures |r| == |s|
  {
    if s == [] then []
    else
      assert s == [s[0]] + s[1..];
      InsertByDue(s[0], SortByDue(s[1..]))
  }

  datatype Stats = Stats(
    totalContacts: nat,
    activeDeals: nat,
    totalValue: int,
    pendingTasks: nat,
    recentActivities: seq<Activity>,
    upcomingTasks: seq<Task>)

  /** A prefix of a sorted list holds tasks due no later than every task it leaves out. */
  lemma PrefixIsEarliest(sorted: seq<Task>, n: nat)
    requires SortedByDue(sorted)
    ensures forall t, u :: t in sorted && t !in Take(sorted, n) && u in Take(sorted, n) ==> u.dueDate <= t.dueDate
  {
    var r := Take(sorted, n);
    forall t, u | t in sorted && t !in r && u in r
      ensures u.dueDate <= t.dueDate
    {
      var j :| 0 <= j < |sorted| && sorted[j] == t;
      var i :| 0 <= i < |r| && r[i] == u;
      assert forall k :: 0 <= k < |r| ==> sorted[k] == r[k] && r[k] in r;
    }
  }

  /** The first five of the open tasks sorted by due date: open tasks, none repeated, due no later than the rest. */
  lemma EarliestFive(open: seq<Task>, sorted: seq<Task>)
    requires SortedByDue(sorted) && multiset(sorted) == multiset(open)
    ensures multiset(Take(sorted, 5)) <= multiset(open)
    ensures forall t :: t in Take(sorted, 5) ==> t in open
    ensures forall t, u :: t in open && t !in Take(sorted, 5) && u in Take(sorted, 5) ==> u.dueDate <= t.dueDate
  {
    var r := Take(sorted, 5);
    assert sorted == r + sorted[|r|..];
    assert forall t :: t in sorted <==> t in open by {
      forall t ensures t in sorted <==> t in open {
        assert t in sorted <==> t in multiset(sorted);
        assert t in open <==> t in multiset(open);
      }
    }
    PrefixIsEarliest(sorted, 5);
  }

  /** The open tasks due first: five of them, or every open task when there are fewer. */
  function UpcomingTasks(tasks: seq<Task>): (r: seq<Task>)
    ensures |r| == if |Filter(tasks, NotDone)| < 5 then |Filter(tasks, NotDone)| else 5
    ensures SortedByDue(r)
    ensures forall t :: t in r ==> t in tasks && t.status != "DONE"
    ensures multiset(r) <= multiset(Filter(tasks, NotDone))
    ensures forall t, u :: t in tasks && t.status != "DONE" && t !in r && u in r ==> u.dueDate <= t.dueDate
  {
    var open := Filter(tasks, NotDone);
    var sorted := SortByDue(open);
    EarliestFive(open, sorted);
    Take(sorted, 5)
  }

  /** The dashboard's figures for the four cached lists. */
  function DashboardStats(contacts: seq<Contact>, deals: seq<Deal>, tasks: seq<Task>, activities: seq<Activity>)
    : (s: Stats)
    ensures s.totalContacts == |contacts|
    ensures s.activeDeals + |Filter(deals, IsClosed)| == |deals|
    ensures forall d :: d in deals && d.stage != "closed" ==> s.activeDeals > 0
    ensures s.totalValue == SumOf(deals, DealValue)
    ensures s.totalValue == SumOf(Filter(deals, IsOpen), DealValue) + SumOf(Filter(deals, IsClosed), DealValue)
    ensures s.pendingTasks == |Filter(tasks, IsTodo)|
    ensures s.pendingTasks <= |Filter(tasks, NotDone)|
    ensures |s.recentActivities| == if |activities| < 5 then |activities| else 5
    ensures s.recentActivities == activities[..|s.recentActivities|]
    ensures s.upcomingTasks == UpcomingTasks(tasks)
  {
    FilterComplement(deals, IsOpen, IsClosed);
    FilterMonotone(tasks, IsTodo, NotDone);
    TotalValueSplits(deals);
    Stats(
      |contacts|,
      |Filter(deals, IsOpen)|,
      TotalValue(deals),
      |Filter(tasks, IsTodo)|,
      Take(activities, 5),
      UpcomingTasks(tasks))
  }

  /** `deals.reduce((sum, deal) => sum + deal.value, 0)`: the value of every deal, whatever its stage. */
  function TotalValue(deals: seq<Deal>): (r: int)
    ensures deals == [] ==> r == 0
    ensures (forall d :: d in deals ==> d.value >= 0) ==> r >= 0
  {
    TotalValueSplits(deals);
    SumOf(deals, DealValue)
  }

  /** The pipeline value counts closed deals too: it is the open value plus the closed value. */
  lemma {:induction false} TotalValueSplits(deals: seq<Deal>)
    ensures SumOf(deals, DealValue) == SumOf(Filter(deals, IsOpen), DealValue) + SumOf(Filter(deals, IsClosed), DealValue)
    ensures (forall d :: d in deals ==> d.value >= 0) ==> SumOf(deals, DealValue) >= 0
  {
    if deals != [] {
      TotalValueSplits(deals[1..]);
      var d := deals[0];
      if IsOpen(d) {
        assert Filter(deals, IsOpen) == [d] + Filter(deals[1..], IsOpen);
        assert Filter(deals, IsClosed) == Filter(deals[1..], IsClosed);
        SumAppend([d], Filter(deals[1..], IsOpen), DealValue);
      } else {
        assert Filter(deals, IsOpen) == Filter(deals[1..], IsOpen);
        assert Filter(deals, IsClosed) == [d] + Filter(deals[1..], IsClosed);
        SumAppend([d], Filter(deals[1..], IsClosed), DealValue);
      }
    }
  }

  /** Only `TODO` tasks are pending: one more task raises the count exactly when its status is `TODO`. */
  lemma {:induction false} PendingCountsTodoOnly(tasks: seq<Task>, t: Task)
    ensures |Filter(tasks + [t], IsTodo)| == |Filter(tasks, IsTodo)| + (if t.status == "TODO" then 1 else 0)
  {
    FilterAppend(tasks, [t], IsTodo);
    assert [t][1..] == [];
  }

  /** Empty lists give zero figures and empty lists. */
  lemma EmptyDashboard()
    ensures DashboardStats([], [], [], []) == Stats(0, 0, 0, 0, [], [])
  {
  }

  /** A lead worth 100 and a closed deal worth 50: value 150, one open deal. */
  lemma TwoDealScenario(lead: Deal, closed: Deal)
    requires lead.stage == "lead" && lead.value == 100
    requires closed.stage == "closed" && closed.value == 50
    ensures DashboardStats([], [lead, closed], [], []).totalValue == 150
    ensures DashboardStats([], [lead, closed], [], []).activeDeals == 1
  {
    var deals := [lead, closed];
    assert deals[1..] == [closed] && deals[1..][1..] == [];
    assert Filter(deals, IsOpen) == [lead];
    assert TotalValue([closed]) == 50 + TotalValue([]);
    assert TotalValue(deals) == 100 + TotalValue([closed]);
  }
}
