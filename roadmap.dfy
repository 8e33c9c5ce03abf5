/** The learning roadmap of `FRONTEND/app/src/pages/Roadmap.tsx`: topics unlock one
    after another as the previous one is completed, and the progress ring shows the
    share of completed topics. */
module Roadmap {
  datatype Topic = Topic(name: string, description: string, estimatedTime: string, difficulty: string)

  const Topics: seq<Topic> := [
    Topic("Basic Algebra", "Learn the fundamentals of algebra, including variables and equations.", "2 hours", "Easy"),
    Topic("Linear Equations", "Understand and solve linear equations with one or more variables.", "3 hours", "Medium"),
    Topic("Quadratic Equations", "Dive into solving quadratic equations using various methods.", "4 hours", "Hard"),
    Topic("Calculus Basics", "Introduction to limits, derivatives, and integrals.", "5 hours", "Hard")
  ]

  ghost predicate DistinctNames(topics: seq<Topic>) {
    forall i, j :: 0 <= i < j < |topics| ==> topics[i].name != topics[j].name
  }

  ghost predicate NoDuplicates(names: seq<string>) {
    forall i, j :: 0 <= i < j < |names| ==> names[i] != names[j]
  }

  /** The completed names are the first topics' names, in the roadmap's order. */
  ghost predicate InOrder(topics: seq<Topic>, completed: seq<string>) {
    |completed| <= |topics| && forall i :: 0 <= i < |completed| ==> completed[i] == topics[i].name
  }

  /** `isTopicUnlocked`: the first topic always, any other once its predecessor is completed. */
  predicate Unlocked(topics: seq<Topic>, completed: seq<string>, index: nat)
    requires index < |topics|
  {
    index == 0 || topics[index - 1].name in completed
  }

  /** The completed list after `handleCompleteTopic(name)`. */
  function AfterComplete(completed: seq<string>, name: string): seq<string> {
    if name in completed then completed else completed + [name]
  }

  /** `((completed + 1) / topics) * 100` as the exact quotient, with `completed + 1`
      the new number of completed topics. */
  function Percent(completed: nat, topics: nat): real
    requires topics > 0
  {
    (completed as real / topics as real) * 100.0
  }

  /** Progress runs from 0 with nothing completed to 100 with everything completed,
      and every further completion raises it. */
  lemma PercentBounds(completed: nat, topics: nat)
    requires 0 < topics && completed <= topics
    ensures 0.0 <= Percent(completed, topics) <= 100.0
    ensures completed == 0 <==> Percent(completed, topics) == 0.0
    ensures completed == topics <==> Percent(completed, topics) == 100.0
    ensures completed < topics ==> Percent(completed, topics) < Percent(completed + 1, topics)
  {
  }

  /** Completing a topic adds it once at most: the list keeps no duplicates, an already
      completed name changes nothing, and a second completion is a no-op. */
  lemma AfterCompleteKeepsDistinct(completed: seq<string>, name: string)
    requires NoDuplicates(completed)
    ensures NoDuplicates(AfterComplete(completed, name))
    ensures name in AfterComplete(completed, name)
    ensures name in completed ==> AfterComplete(completed, name) == completed
    ensures name !in completed ==> |AfterComplete(completed, name)| == |completed| + 1
    ensures AfterComplete(AfterComplete(completed, name), name) == AfterComplete(completed, name)
  {
    if name !in completed {
      var after := completed + [name];
      forall i, j | 0 <= i < j < |after| ensures after[i] != after[j] {
        if j == |completed| {
          assert after[i] == completed[i];
        }
      }
    }
  }

  /** While the completed topics are the first `k` of a roadmap with distinct names,
      exactly the topics `0..k` are unlocked: the next one to do and those before it. */
  lemma {:induction false} UnlockedIffWithinPrefix(topics: seq<Topic>, completed: seq<string>, index: nat)
    requires DistinctNames(topics) && InOrder(topics, completed) && index < |topics|
    ensures Unlocked(topics, completed, index) <==> index <= |completed|
  {
    if index > 0 {
      if index <= |completed| {
        assert completed[index - 1] == topics[index - 1].name;
      }
    }
  }

  /** Completing an unlocked topic keeps the completed topics a prefix of the roadmap. */
  lemma CompleteUnlockedKeepsOrder(topics: seq<Topic>, completed: seq<string>, index: nat)
    requires DistinctNames(topics) && InOrder(topics, completed) && index < |topics|
    requires Unlocked(topics, completed, index)
    ensures InOrder(topics, AfterComplete(completed, topics[index].name))
  {
    UnlockedIffWithinPrefix(topics, completed, index);
    if index < |completed| {
      assert completed[index] == topics[index].name;
    }
  }

  class RoadmapPage {
    const topics: seq<Topic>
    /** `completedTopics`. */
    var completed: seq<string>
    /** `progress`, exact rather than a double. */
    var progress: real

    ghost predicate Valid()
      reads this
    {
      |topics| > 0 && DistinctNames(topics) && NoDuplicates(completed)
      && progress == Percent(|completed|, |topics|)
    }

    constructor ()
      ensures Valid() && InOrder(topics, completed)
      ensures topics == Topics && completed == [] && progress == 0.0
    {
      topics := Topics;
      completed := [];
      progress := 0.0;
    }

    /** `handleCompleteTopic(name)`: a name not yet completed is appended and the progress
        set from the new count; an already completed name changes nothing. */
    method CompleteTopic(name: string)
      requires Valid()
      modifies this
      ensures Valid()
      ensures completed == AfterComplete(old(completed), name)
      ensures name in old(completed) ==> progress == old(progress)
      ensures name !in old(completed) ==> progress == Percent(|old(completed)| + 1, |topics|)
    {
      AfterCompleteKeepsDistinct(completed, name);
      if name !in completed {
        progress := Percent(|completed| + 1, |topics|);
        completed := completed + [name];
      }
    }

    /** The Start/Review button of topic `index`, clickable only while it is unlocked;
        it keeps the completed topics in roadmap order. */
    method Press(index: nat)
      requires Valid() && InOrder(topics, completed) && index < |topics|
      requires Unlocked(topics, completed, index)
      modifies this
      ensures Valid() && InOrder(topics, completed)
      ensures completed == AfterComplete(old(completed), topics[index].name)
      ensures |completed| == if index == |old(completed)| then |old(completed)| + 1 else |old(completed)|
    {
      CompleteUnlockedKeepsOrder(topics, completed, index);
      UnlockedIffWithinPrefix(topics, completed, index);
      if index < |completed| {
        assert completed[index] == topics[index].name;
      }
      CompleteTopic(topics[index].name);
    }
  }

  /** Working through the roadmap in order: each step unlocks the next topic, and a
      review of a completed topic changes nothing. */
  method RoadmapScenario() returns (progresses: seq<real>, thirdUnlocked: bool)
    ensures progresses == [25.0, 50.0, 50.0]
    ensures thirdUnlocked
  {
    var page := new RoadmapPage();
    page.Press(0);
    var p0 := page.progress;
    page.Press(1);
    var p1 := page.progress;
    page.Press(0);
    var p2 := page.progress;
    progresses := [p0, p1, p2];
    thirdUnlocked := Unlocked(page.topics, page.completed, 2);
  }
}
