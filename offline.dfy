/** The offline video library of `FRONTEND/app/src/pages/Offline.tsx`: a search that
    narrows each subject to its matching topics, the subject and video on display, and
    Previous/Next buttons over the current subject's videos. */
module Offline {
  import opened Wrappers
  import opened Seqs
  import opened Text

  datatype Video = Video(title: string, description: string, link: string)
  datatype Subject = Subject(name: string, topics: seq<Video>)

  const Subjects: seq<Subject> := [
    Subject("Algebra", [
      Video("Introduction to Algebra", "Learn the basics of algebra.", "video1.mp4"),
      Video("Quadratic Equations", "Solve quadratic equations.", "video2.mp4")]),
    Subject("Geometry", [
      Video("Basics of Geometry", "Understand geometric shapes.", "video3.mp4"),
      Video("Triangles and Circles", "Explore triangles and circles.", "video4.mp4")]),
    Subject("Calculus", [
      Video("Introduction to Calculus", "Learn limits and derivatives.", "video5.mp4"),
      Video("Integration Basics", "Understand integration techniques.", "video6.mp4")])
  ]

  ghost predicate DistinctNames(subjects: seq<Subject>) {
    forall i, j :: 0 <= i < j < |subjects| ==> subjects[i].name != subjects[j].name
  }

  /** One subject cut down to the topics whose title contains the query, ignoring case. */
  function Narrow(subject: Subject, query: string): Subject {
    Subject(subject.name, Filter(subject.topics, (v: Video) => MatchesQuery(v.title, query)))
  }

  /** A narrowed subject keeps its name and, in order, exactly its matching videos. */
  lemma NarrowSpec(subject: Subject, query: string)
    ensures Narrow(subject, query).name == subject.name
    ensures Subsequence(Narrow(subject, query).topics, subject.topics)
    ensures forall v :: v in Narrow(subject, query).topics <==> v in subject.topics && MatchesQuery(v.title, query)
  {
    FilterIsSubsequence(subject.topics, (v: Video) => MatchesQuery(v.title, query));
  }

  /** `filteredSubjects`: every subject narrowed to its matching topics, with the
      subjects left without topics dropped. */
  function FilteredSubjects(subjects: seq<Subject>, query: string): seq<Subject> {
    Filter(MapSeq(subjects, (s: Subject) => Narrow(s, query)), (s: Subject) => |s.topics| > 0)
  }

  /** The filtered subjects are the narrowed subjects that keep a topic, in their order. */
  lemma FilteredSubjectsSpec(subjects: seq<Subject>, query: string)
    ensures var r := FilteredSubjects(subjects, query);
      && Subsequence(r, MapSeq(subjects, (s: Subject) => Narrow(s, query)))
      && (forall i :: 0 <= i < |r| ==> |r[i].topics| > 0 && exists j :: 0 <= j < |subjects| && r[i] == Narrow(subjects[j], query))
      && (forall j :: 0 <= j < |subjects| && |Narrow(subjects[j], query).topics| > 0 ==> Narrow(subjects[j], query) in r)
  {
    var narrowed := MapSeq(subjects, (s: Subject) => Narrow(s, query));
    FilterIsSubsequence(narrowed, (s: Subject) => |s.topics| > 0);
    var r := FilteredSubjects(subjects, query);
    forall i | 0 <= i < |r| ensures exists j :: 0 <= j < |subjects| && r[i] == Narrow(subjects[j], query) {
      var j :| 0 <= j < |narrowed| && narrowed[j] == r[i];
    }
  }

  /** The subjects in the side panel: the filtered ones while the query is non-empty,
      all of them otherwise. */
  function Listed(subjects: seq<Subject>, query: string): seq<Subject> {
    if query != "" then FilteredSubjects(subjects, query) else subjects
  }

  /** `subjects.find(subject => subject.name === selected)`. */
  function CurrentSubject(subjects: seq<Subject>, selected: string): (r: Option<Subject>)
    ensures r.Some? ==> r.value.name == selected
    ensures r.Some? ==> exists i :: 0 <= i < |subjects| && subjects[i] == r.value && (forall k :: 0 <= k < i ==> subjects[k].name != selected)
    ensures r.None? <==> forall k :: 0 <= k < |subjects| ==> subjects[k].name != selected
  {
    match FirstIndex(subjects, (s: Subject) => s.name == selected)
    case None => None
    case Some(i) => Some(subjects[i])
  }

  /** `currentSubject?.topics[selectedVideo]`. */
  function CurrentVideo(subjects: seq<Subject>, selected: string, index: nat): Option<Video> {
    match CurrentSubject(subjects, selected)
    case None => None
    case Some(s) => if index < |s.topics| then Some(s.topics[index]) else None
  }

  /** `(currentSubject?.topics.length || 1)`: an absent subject or an empty topic list counts as 1. */
  function TopicCount(subjects: seq<Subject>, selected: string): (n: nat)
    ensures n >= 1
    ensures CurrentSubject(subjects, selected).None? || |CurrentSubject(subjects, selected).value.topics| == 0 ==> n == 1
    ensures CurrentSubject(subjects, selected).Some? && |CurrentSubject(subjects, selected).value.topics| > 0
      ==> n == |CurrentSubject(subjects, selected).value.topics|
  {
    match CurrentSubject(subjects, selected)
    case None => 1
    case Some(s) => if |s.topics| == 0 then 1 else |s.topics|
  }

  /** With distinct names, the video shown for a subject's name and an index is that
      subject's topic at the index, and nothing once the index is past its topics. */
  lemma CurrentVideoByName(subjects: seq<Subject>, j: nat, index: nat)
    requires DistinctNames(subjects) && j < |subjects|
    ensures index < |subjects[j].topics| ==> CurrentVideo(subjects, subjects[j].name, index) == Some(subjects[j].topics[index])
    ensures index >= |subjects[j].topics| ==> CurrentVideo(subjects, subjects[j].name, index).None?
  {
    CurrentSubjectByName(subjects, j);
  }

  /** With distinct names, looking a subject up by its name finds that subject. */
  lemma CurrentSubjectByName(subjects: seq<Subject>, j: nat)
    requires DistinctNames(subjects) && j < |subjects|
    ensures CurrentSubject(subjects, subjects[j].name) == Some(subjects[j])
  {
    var r := CurrentSubject(subjects, subjects[j].name);
    var i :| 0 <= i < |subjects| && subjects[i] == r.value && (forall k :: 0 <= k < i ==> subjects[k].name != subjects[j].name);
    assert !(i < j) && !(j < i);
  }

  /** An empty search lists every subject, as the filter would for subjects that all
      have topics. */
  lemma EmptyQueryListsAll(subjects: seq<Subject>)
    requires forall j :: 0 <= j < |subjects| ==> |subjects[j].topics| > 0
    ensures Listed(subjects, "") == subjects
    ensures FilteredSubjects(subjects, "") == subjects
  {
    var keepAll := (v: Video) => MatchesQuery(v.title, "");
    forall j | 0 <= j < |subjects| ensures Narrow(subjects[j], "") == subjects[j] {
      FilterKeepsAll(subjects[j].topics, keepAll);
    }
    var narrowed := MapSeq(subjects, (s: Subject) => Narrow(s, ""));
    assert narrowed == subjects;
    FilterKeepsAll(narrowed, (s: Subject) => |s.topics| > 0);
  }

  /** Every listed subject stands for a subject of the page with the same name, and
      lists only videos of that subject. */
  lemma ListedFromSubject(subjects: seq<Subject>, query: string, s: nat) returns (j: nat)
    requires s < |Listed(subjects, query)|
    ensures j < |subjects| && Listed(subjects, query)[s].name == subjects[j].name
    ensures forall v :: v in Listed(subjects, query)[s].topics ==> v in subjects[j].topics
  {
    if query != "" {
      FilteredSubjectsSpec(subjects, query);
      j :| 0 <= j < |subjects| && Listed(subjects, query)[s] == Narrow(subjects[j], query);
      NarrowSpec(subjects[j], query);
    } else {
      j := s;
    }
  }

  /** As written, a click on the topic listed `k`-th under a subject selects video `k` of
      that subject's full list. */
  function ClickedAsWritten(subjects: seq<Subject>, query: string, s: nat, k: nat): Option<Video>
    requires s < |Listed(subjects, query)|
  {
    CurrentVideo(subjects, Listed(subjects, query)[s].name, k)
  }

  /** Without a search the listed positions are the full ones, so a click shows the
      clicked topic. */
  lemma ClickAsWrittenWithoutQuery(subjects: seq<Subject>, s: nat, k: nat)
    requires DistinctNames(subjects) && s < |subjects| && k < |subjects[s].topics|
    ensures ClickedAsWritten(subjects, "", s, k) == Some(subjects[s].topics[k])
  {
    CurrentSubjectByName(subjects, s);
  }

  /** "Introduction to Algebra" has no 'q' in any case, so it does not match "quadratic". */
  lemma IntroMissesQuadratic()
    ensures !MatchesQuery(Subjects[0].topics[0].title, "quadratic")
  {
    var title := Subjects[0].topics[0].title;
    forall i | 0 <= i < |title| ensures ToLower(title)[i] != 'q' {
      assert title[i] != 'q' && title[i] != 'Q';
    }
    LetterNotIncluded(ToLower(title), "quadratic", 0);
  }

  /** "Quadratic Equations" starts with "quadratic" once lower-cased. */
  lemma QuadraticMatchesQuadratic()
    ensures MatchesQuery(Subjects[0].topics[1].title, "quadratic")
  {
    assert ToLower("quadratic") <= ToLower(Subjects[0].topics[1].title);
  }

  /** Searching for "quadratic" leaves Algebra with its second video only. */
  lemma AlgebraNarrowed()
    ensures Narrow(Subjects[0], "quadratic") == Subject("Algebra", [Subjects[0].topics[1]])
  {
    IntroMissesQuadratic();
    QuadraticMatchesQuadratic();
    var keep := (v: Video) => MatchesQuery(v.title, "quadratic");
    var topics := Subjects[0].topics;
    assert topics[1..] == [topics[1]];
    assert Filter(topics, keep) == Filter([topics[1]], keep);
    assert Filter([topics[1]], keep) == [topics[1]] + Filter([], keep);
  }

  /** While searching for "quadratic", Algebra lists only "Quadratic Equations"; clicking
      it as written shows "Introduction to Algebra", the first video of the full list. */
  lemma ClickAsWrittenShowsOtherTopic()
    ensures |Listed(Subjects, "quadratic")| > 0
    ensures Listed(Subjects, "quadratic")[0] == Subject("Algebra", [Subjects[0].topics[1]])
    ensures Subjects[0].topics[1].title == "Quadratic Equations"
    ensures ClickedAsWritten(Subjects, "quadratic", 0, 0) == Some(Subjects[0].topics[0])
    ensures Subjects[0].topics[0].title == "Introduction to Algebra"
  {
    AlgebraNarrowed();
    var narrowed := MapSeq(Subjects, (s: Subject) => Narrow(s, "quadratic"));
    assert narrowed[0] == Narrow(Subjects[0], "quadratic");
    assert FilteredSubjects(Subjects, "quadratic")[0] == narrowed[0];
    CurrentSubjectByName(Subjects, 0);
  }

  /** A string that does not contain one of the query's characters does not contain the query. */
  lemma {:induction false} LetterNotIncluded(s: string, query: string, j: nat)
    requires j < |query| && query[j] !in s
    ensures !Includes(s, ToLower(query)) || query[j] != ToLower(query)[j]
  {
    if query[j] == ToLower(query)[j] {
      NotIncludedWithoutLetter(s, ToLower(query), j);
    }
  }

  lemma {:induction false} NotIncludedWithoutLetter(s: string, sub: string, j: nat)
    requires j < |sub| && sub[j] !in s
    ensures !Includes(s, sub)
  {
    assert forall i :: 0 <= i < |s| ==> s[i] != sub[j];
    if |s| > 0 {
      assert forall c :: c in s[1..] ==> c in s;
      NotIncludedWithoutLetter(s[1..], sub, j);
    }
  }

  /** Corrected click: the position of the clicked topic in its subject's full list. */
  function ClickedIndex(subjects: seq<Subject>, name: string, video: Video): Option<nat> {
    match CurrentSubject(subjects, name)
    case None => None
    case Some(s) => FirstIndex(s.topics, (v: Video) => v == video)
  }

  /** With the corrected click, the video on display is the topic that was clicked,
      whatever the search. */
  lemma ClickShowsClickedTopic(subjects: seq<Subject>, query: string, s: nat, k: nat)
    requires DistinctNames(subjects)
    requires s < |Listed(subjects, query)| && k < |Listed(subjects, query)[s].topics|
    ensures var listed := Listed(subjects, query)[s];
      var index := ClickedIndex(subjects, listed.name, listed.topics[k]);
      index.Some? && CurrentVideo(subjects, listed.name, index.value) == Some(listed.topics[k])
  {
    var listed := Listed(subjects, query)[s];
    var j := ListedFromSubject(subjects, query, s);
    assert listed.topics[k] in listed.topics;
    CurrentSubjectByName(subjects, j);
    var i :| 0 <= i < |subjects[j].topics| && subjects[j].topics[i] == listed.topics[k];
    assert FirstIndex(subjects[j].topics, (v: Video) => v == listed.topics[k]).Some?;
  }

  class OfflinePage {
    const subjects: seq<Subject>
    var selectedSubject: string
    var selectedVideo: nat
    var searchQuery: string

    /** Subject names are distinct and every subject has the same positive number of videos. */
    ghost predicate Uniform()
      reads this
    {
      && DistinctNames(subjects) && |subjects| > 0 && |subjects[0].topics| > 0
      && (forall j :: 0 <= j < |subjects| ==> |subjects[j].topics| == |subjects[0].topics|)
    }

    /** ... and the selection names one of the subjects and one of its videos. */
    ghost predicate Valid()
      reads this
    {
      && Uniform()
      && (exists j :: 0 <= j < |subjects| && subjects[j].name == selectedSubject)
      && selectedVideo < |subjects[0].topics|
    }

    function Current(): Option<Video>
      reads this
    {
      CurrentVideo(subjects, selectedSubject, selectedVideo)
    }

    /** The selected video always exists. */
    lemma ValidShowsVideo()
      requires Valid()
      ensures Current().Some?
      ensures TopicCount(subjects, selectedSubject) == |subjects[0].topics|
    {
      var j :| 0 <= j < |subjects| && subjects[j].name == selectedSubject;
      CurrentSubjectByName(subjects, j);
    }

    /** A selection whose video exists is a valid selection. */
    lemma SelectionValid(name: string, index: nat)
      requires Uniform() && CurrentVideo(subjects, name, index).Some?
      ensures exists j :: 0 <= j < |subjects| && subjects[j].name == name
      ensures index < |subjects[0].topics|
    {
      var i :| 0 <= i < |subjects| && subjects[i] == CurrentSubject(subjects, name).value && (forall k :: 0 <= k < i ==> subjects[k].name != name);
    }

    constructor ()
      ensures Valid()
      ensures subjects == Subjects && selectedSubject == "Algebra" && selectedVideo == 0 && searchQuery == ""
    {
      subjects := Subjects;
      selectedSubject := "Algebra";
      selectedVideo := 0;
      searchQuery := "";
      new;
      assert subjects[0].name == "Algebra";
    }

    method Search(query: string)
      requires Valid()
      modifies this
      ensures Valid()
      ensures searchQuery == query && selectedSubject == old(selectedSubject) && selectedVideo == old(selectedVideo)
    {
      searchQuery := query;
    }

    /** Opening a subject's accordion selects it and keeps the video position. */
    method Expand(s: nat)
      requires Valid() && s < |Listed(subjects, searchQuery)|
      modifies this
      ensures selectedVideo == old(selectedVideo) && searchQuery == old(searchQuery)
      ensures Valid() && Current().Some?
      ensures selectedSubject == Listed(subjects, searchQuery)[s].name
    {
      ghost var j := ListedFromSubject(subjects, searchQuery, s);
      selectedSubject := Listed(subjects, searchQuery)[s].name;
      ValidShowsVideo();
    }

    /** Clicking the `k`-th listed topic of the `s`-th listed subject shows that topic. */
    method ClickTopic(s: nat, k: nat)
      requires Valid() && s < |Listed(subjects, searchQuery)| && k < |Listed(subjects, searchQuery)[s].topics|
      modifies this
      ensures searchQuery == old(searchQuery)
      ensures Valid()
      ensures selectedSubject == Listed(subjects, searchQuery)[s].name
      ensures Current() == Some(Listed(subjects, searchQuery)[s].topics[k])
    {
      var listed := Listed(subjects, searchQuery)[s];
      ClickShowsClickedTopic(subjects, searchQuery, s, k);
      var index := ClickedIndex(subjects, listed.name, listed.topics[k]).value;
      assert CurrentVideo(subjects, listed.name, index) == Some(listed.topics[k]);
      SelectionValid(listed.name, index);
      selectedSubject := listed.name;
      selectedVideo := index;
      assert Current() == Some(listed.topics[k]);
    }

    /** Previous, enabled away from the first video. */
    method Previous()
      requires Valid() && selectedVideo != 0
      modifies this
      ensures Valid() && Current().Some?
      ensures selectedVideo == old(selectedVideo) - 1
      ensures selectedSubject == old(selectedSubject) && searchQuery == old(searchQuery)
    {
      selectedVideo := selectedVideo - 1;
      ValidShowsVideo();
    }

    /** Next, enabled away from the last video of the current subject. */
    method Next()
      requires Valid() && selectedVideo != TopicCount(subjects, selectedSubject) - 1
      modifies this
      ensures Valid() && Current().Some?
      ensures selectedVideo == old(selectedVideo) + 1
      ensures selectedSubject == old(selectedSubject) && searchQuery == old(searchQuery)
    {
      ValidShowsVideo();
      selectedVideo := selectedVideo + 1;
      ValidShowsVideo();
    }
  }
}
