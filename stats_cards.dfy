/** The four counters above the table. */
module StatsCards {
  import opened Lists
  import opened AdminTypes

  datatype Stats = Stats(total: nat, newCount: nat, qualified: nat, completed: nat)

  const IsNew: Lead -> bool := (l: Lead) => l.status == New
  const IsQualifiedOrScheduled: Lead -> bool := (l: Lead) => l.status == Qualified || l.status == Scheduled
  const IsQualified: Lead -> bool := (l: Lead) => l.status == Qualified
  const IsScheduled: Lead -> bool := (l: Lead) => l.status == Scheduled
  const IsCompleted: Lead -> bool := (l: Lead) => l.status == Completed
  /** The statuses no card but the total counts. */
  const IsContactedOrLost: Lead -> bool := (l: Lead) => l.status == Contacted || l.status == Lost
  const IsNewOrQualified: Lead -> bool := (l: Lead) => l.status in {New, Qualified, Scheduled}
  const IsCounted: Lead -> bool := (l: Lead) => l.status in {New, Qualified, Scheduled, Completed}
  const IsAny: Lead -> bool := (l: Lead) => true

  /** The status of every lead, in list order. */
  function Statuses(leads: seq<Lead>): (r: seq<LeadStatus>)
    ensures |r| == |leads| && forall i :: 0 <= i < |leads| ==> r[i] == leads[i].status
  {
    if leads == [] then [] else [leads[0].status] + Statuses(leads[1..])
  }

  /** A filter that tests for one status keeps as many leads as have that status. */
  lemma {:induction false} FilterCountsStatus(leads: seq<Lead>, p: Lead -> bool, s: LeadStatus)
    requires forall l :: p(l) <==> l.status == s
    ensures |Filter(leads, p)| == multiset(Statuses(leads))[s]
  {
    if leads != [] {
      FilterCountsStatus(leads[1..], p, s);
      assert Statuses(leads) == [leads[0].status] + Statuses(leads[1..]);
    }
  }

  /**
   * The total is the number of leads; "new" counts status new, "qualified"
   * counts qualified and scheduled together, "completed" counts completed.
   */
  function ComputeStats(leads: seq<Lead>): (st: Stats)
    ensures st.total == |leads|
    ensures st.newCount == multiset(Statuses(leads))[New]
    ensures st.qualified == multiset(Statuses(leads))[Qualified] + multiset(Statuses(leads))[Scheduled]
    ensures st.completed == multiset(Statuses(leads))[Completed]
    ensures st.newCount <= st.total && st.qualified <= st.total && st.completed <= st.total
  {
    FilterCountsStatus(leads, IsNew, New);
    FilterCountsStatus(leads, IsQualified, Qualified);
    FilterCountsStatus(leads, IsScheduled, Scheduled);
    FilterCountDisjoint(leads, IsQualified, IsScheduled, IsQualifiedOrScheduled);
    FilterCountsStatus(leads, IsCompleted, Completed);
    Stats(|leads|, |Filter(leads, IsNew)|, |Filter(leads, IsQualifiedOrScheduled)|, |Filter(leads, IsCompleted)|)
  }

  /**
   * The cards partition the list: new, qualified (with scheduled) and
   * completed are disjoint, and contacted and lost make up the rest of the total.
   */
  lemma StatsPartition(leads: seq<Lead>)
    ensures var st := ComputeStats(leads);
      st.newCount + st.qualified + st.completed + |Filter(leads, IsContactedOrLost)| == st.total
  {
    FilterCountDisjoint(leads, IsNew, IsQualifiedOrScheduled, IsNewOrQualified);
    FilterCountDisjoint(leads, IsNewOrQualified, IsCompleted, IsCounted);
    FilterCountDisjoint(leads, IsCounted, IsContactedOrLost, IsAny);
    FilterKeepsAll(leads, IsAny);
  }

  /** Hence the three status cards never add up to more than the total. */
  lemma StatsBound(leads: seq<Lead>)
    ensures var st := ComputeStats(leads); st.newCount + st.qualified + st.completed <= st.total
  {
    StatsPartition(leads);
  }
}
