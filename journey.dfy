/** The learning-journey timeline of `FRONTEND/app/src/pages/Journey.tsx`: the first
    milestones are shown, Load More reveals two more at a time, and revealing any beyond
    the initial five raises a short congratulation. */
module Journey {
  import opened Seqs
  import opened Paging

  datatype Milestone = Milestone(date: string, topic: string, message: string, badge: string)

  /** `allMilestones`; the messages are kept with the characters the page shows. */
  const AllMilestones: seq<Milestone> := [
    Milestone("Day 1", "Started Algebra Basics", "Great start! Keep going!", "Bronze"),
    Milestone("Day 3", "Completed Algebra Quiz - 80%", "You‚Äôre improving!", "Silver"),
    Milestone("Day 5", "Finished Trigonometric Identities", "Amazing work!", "Gold"),
    Milestone("Day 6", "Earned Bronze Badge - Master of Trig", "You‚Äôre a star!", "Bronze"),
    Milestone("Day 10", "10 Days Learning Streak!", "Keep the streak alive!", "Gold"),
    Milestone("Day 12", "Completed Calculus Basics", "Fantastic progress!", "Silver"),
    Milestone("Day 15", "Scored 90% in Geometry Quiz", "Outstanding!", "Gold"),
    Milestone("Day 18", "15 Days Streak!", "Consistency is key!", "Gold")
  ]

  /** Milestones visible when the page opens. */
  const InitialVisible: nat := 5

  class JourneyPage {
    const milestones: seq<Milestone>
    /** `visibleMilestones`. */
    var visible: nat
    var showCongrats: bool

    ghost predicate Valid()
      reads this
    {
      InitialVisible <= visible <= |milestones| && (showCongrats ==> visible > InitialVisible)
    }

    constructor ()
      ensures Valid()
      ensures milestones == AllMilestones && visible == InitialVisible && !showCongrats
    {
      milestones := AllMilestones;
      visible := InitialVisible;
      showCongrats := false;
    }

    /** `milestones.slice(0, visibleMilestones)`. */
    function Shown(): (r: seq<Milestone>)
      reads this
      requires Valid()
      ensures |r| == visible && r <= milestones
    {
      Prefix(milestones, visible)
    }

    /** Whether the Load More button is offered. */
    predicate CanLoadMore()
      reads this
    {
      visible < |milestones|
    }

    /** Load More, offered only while milestones remain hidden: two more, capped at the
        total; the effect on the count then raises the congratulation, since the count
        is now beyond the initial five. */
    method LoadMoreMilestones()
      requires Valid() && CanLoadMore()
      modifies this
      ensures Valid()
      ensures visible == LoadMore(old(visible), |milestones|) && visible > old(visible)
      ensures showCongrats
    {
      visible := LoadMore(visible, |milestones|);
      if visible > InitialVisible {
        showCongrats := true;
      }
    }

    /** The congratulation's two-second timeout. */
    method CongratsTimeout()
      requires Valid()
      modifies this
      ensures Valid()
      ensures !showCongrats && visible == old(visible)
    {
      showCongrats := false;
    }
  }

  /** Two presses of Load More reveal all eight milestones and hide the button. */
  method JourneyScenario() returns (counts: seq<nat>, offered: bool)
    ensures counts == [5, 7, 8]
    ensures !offered
  {
    var page := new JourneyPage();
    var c0 := page.visible;
    page.LoadMoreMilestones();
    var c1 := page.visible;
    page.LoadMoreMilestones();
    var c2 := page.visible;
    counts := [c0, c1, c2];
    offered := page.CanLoadMore();
  }
}
