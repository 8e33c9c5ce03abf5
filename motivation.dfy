/** The motivation page of `FRONTEND/app/src/pages/Motivation.tsx`: success stories
    paged two at a time in both directions, and the visit streak read from local storage. */
module Motivation {
  import opened Wrappers
  import opened Seqs
  import opened Text
  import opened Paging

  datatype Story = Story(name: string, avatar: string, message: string)

  const SuccessStories: seq<Story> := [
    Story("John Doe", "/path/to/avatar1.jpg", "MyMathix helped me ace my exams and build confidence in math!"),
    Story("Jane Smith", "/path/to/avatar2.jpg", "Thanks to MyMathix, I overcame my fear of calculus and scored top marks!"),
    Story("Alice Johnson", "/path/to/avatar3.jpg", "I never thought I could love math until I started using MyMathix!"),
    Story("Bob Brown", "/path/to/avatar4.jpg", "The interactive lessons on MyMathix made learning math so much fun!")
  ]

  /** Stories shown initially, and the fewest Load Less leaves. */
  const LeastVisible: nat := 2

  /** The streak shown and what local storage holds under `streak` afterwards. */
  datatype StreakState = StreakState(streak: Option<int>, stored: Option<string>)

  /** The mount effect: a missing or empty stored value starts a streak of 1 and stores
      "1"; any other value is parsed with `parseInt(_, 10)` (`None` standing for `NaN`)
      and left in place. */
  function InitialStreak(stored: Option<string>): (r: StreakState)
    ensures stored.None? || stored == Some("") ==> r == StreakState(Some(1), Some("1"))
    ensures stored.Some? && stored != Some("") ==> r.stored == stored && r.streak == ParseInt(stored.value)
  {
    if stored.Some? && stored.value != "" then StreakState(ParseInt(stored.value), stored)
    else StreakState(Some(1), Some("1"))
  }

  /** A streak stored as decimal digits reads back as that number. */
  lemma StoredStreakReadsBack(n: nat)
    ensures InitialStreak(Some(NatToString(n))) == StreakState(Some(n), Some(NatToString(n)))
  {
    var digits := NatToString(n);
    ParseIntOfNatToString(n, "");
    assert digits + "" == digits;
    assert digits != "";
  }

  /** The "1" stored on a first visit gives a streak of 1 on the next. */
  lemma FirstStreakReadsBack()
    ensures InitialStreak(None).stored == Some(NatToString(1))
    ensures InitialStreak(InitialStreak(None).stored).streak == Some(1)
  {
    assert NatToString(1) == "1";
    StoredStreakReadsBack(1);
  }

  class MotivationPage {
    const stories: seq<Story>
    /** `visibleStories`. */
    var visible: nat
    var streak: Option<int>
    /** `localStorage['streak']`. */
    var stored: Option<string>

    ghost predicate Valid()
      reads this
    {
      LeastVisible <= visible <= |stories|
    }

    /** Mounting the page with `storedStreak` in local storage. */
    constructor (storedStreak: Option<string>)
      ensures Valid()
      ensures stories == SuccessStories && visible == LeastVisible
      ensures StreakState(streak, stored) == InitialStreak(storedStreak)
    {
      stories := SuccessStories;
      visible := LeastVisible;
      var init := InitialStreak(storedStreak);
      streak := init.streak;
      stored := init.stored;
    }

    /** `successStories.slice(0, visibleStories)`. */
    function Shown(): (r: seq<Story>)
      reads this
      requires Valid()
      ensures |r| == visible && r <= stories
    {
      Prefix(stories, visible)
    }

    predicate CanLoadMore()
      reads this
    {
      visible < |stories|
    }

    predicate CanLoadLess()
      reads this
    {
      visible > LeastVisible
    }

    /** `handleLoadMoreStories`, offered while stories remain hidden. */
    method LoadMoreStories()
      requires Valid() && CanLoadMore()
      modifies this
      ensures Valid()
      ensures visible == LoadMore(old(visible), |stories|) && visible > old(visible)
      ensures streak == old(streak) && stored == old(stored)
    {
      StaysInRange(visible, LeastVisible, |stories|);
      visible := LoadMore(visible, |stories|);
    }

    /** `handleLoadLessStories`, offered while more than two stories are shown. */
    method LoadLessStories()
      requires Valid() && CanLoadLess()
      modifies this
      ensures Valid()
      ensures visible == LoadLess(old(visible), LeastVisible) && visible < old(visible)
      ensures streak == old(streak) && stored == old(stored)
    {
      StaysInRange(visible, LeastVisible, |stories|);
      visible := LoadLess(visible, LeastVisible);
    }
  }

  /** More then less: 2, 4 (every story shown), back to 2; the first visit
      stores a streak of 1 which the second visit reads. */
  method StoriesScenario() returns (counts: seq<nat>, firstStreak: Option<int>, secondStreak: Option<int>)
    ensures counts == [2, 4, 2]
    ensures firstStreak == Some(1) && secondStreak == Some(1)
  {
    var page := new MotivationPage(None);
    var c0 := page.visible;
    page.LoadMoreStories();
    var c1 := page.visible;
    page.LoadLessStories();
    var c2 := page.visible;
    counts := [c0, c1, c2];
    firstStreak := page.streak;
    FirstStreakReadsBack();
    var again := new MotivationPage(page.stored);
    secondStreak := again.streak;
  }
}
