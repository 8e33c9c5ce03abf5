/** The notes page of `FRONTEND/app/src/pages/Notes.tsx`: bookmark and completion
    toggles over lists of chapter names, the subject search, and reopening the chapter
    that was open last time. */
module Notes {
  import opened Wrappers
  import opened Seqs
  import opened Text

  datatype Subject = Subject(subject: string, chapters: seq<string>)

  const Subjects: seq<Subject> := [
    Subject("Algebra", ["Linear Equations", "Quadratic Equations"]),
    Subject("Calculus", ["Derivatives", "Integrals"]),
    Subject("Geometry", ["Triangles", "Circles"])
  ]

  /** The own keys of the `notes` object. */
  const NoteKeys: set<string> := {"Linear Equations", "Quadratic Equations"}

  /** Names every plain object inherits from `Object.prototype`, which the `in`
      operator also finds. */
  const PrototypeKeys: set<string> := {
    "constructor", "hasOwnProperty", "isPrototypeOf", "propertyIsEnumerable",
    "toLocaleString", "toString", "valueOf", "__proto__", "__defineGetter__",
    "__defineSetter__", "__lookupGetter__", "__lookupSetter__"
  }

  /** The list after toggling `topic`: every copy of a listed topic is removed, an
      unlisted one is appended at the end. */
  function Toggle(list: seq<string>, topic: string): (r: seq<string>)
    ensures topic in r <==> topic !in list
    ensures topic !in list ==> r == list + [topic]
    ensures forall other :: other != topic ==> (other in r <==> other in list)
  {
    if topic in list then Filter(list, t => t != topic) else list + [topic]
  }

  /** Toggling a topic that is not listed twice gives back the list it started from. */
  lemma ToggleTwice(list: seq<string>, topic: string)
    requires topic !in list
    ensures Toggle(Toggle(list, topic), topic) == list
  {
    var keep := (t: string) => t != topic;
    assert Toggle(Toggle(list, topic), topic) == Filter(list + [topic], keep);
    FilterConcat(list, [topic], keep);
    FilterKeepsAll(list, keep);
    FilterDropsAll([topic], keep);
  }

  /** `filteredTopics`: the subjects whose name contains the query, ignoring case. */
  function FilteredSubjects(subjects: seq<Subject>, query: string): (r: seq<Subject>)
    ensures |r| <= |subjects|
    ensures forall i :: 0 <= i < |r| ==> r[i] in subjects && MatchesQuery(r[i].subject, query)
    ensures forall i :: 0 <= i < |subjects| && MatchesQuery(subjects[i].subject, query) ==> subjects[i] in r
    ensures Subsequence(r, subjects)
  {
    FilterIsSubsequence(subjects, (s: Subject) => MatchesQuery(s.subject, query));
    Filter(subjects, (s: Subject) => MatchesQuery(s.subject, query))
  }

  /** An empty search shows every subject, in order. */
  lemma EmptyQueryKeepsAll(subjects: seq<Subject>)
    ensures FilteredSubjects(subjects, "") == subjects
  {
    FilterKeepsAll(subjects, (s: Subject) => MatchesQuery(s.subject, ""));
  }

  /** What the mount effect reopens from the stored `lastOpenedTopic`: a non-empty value
      that `in notes` accepts, which takes inherited names as well as own keys. */
  function Restored(stored: Option<string>): (r: Option<string>)
    ensures r.Some? <==> stored.Some? && (stored.value in NoteKeys || stored.value in PrototypeKeys)
    ensures r.Some? ==> r == stored
  {
    if stored.Some? && stored.value != "" && (stored.value in NoteKeys || stored.value in PrototypeKeys) then stored else None
  }

  /** For any name that is not an `Object.prototype` member, a stored topic is reopened
      exactly when it has a note. */
  lemma RestoredOwnKeys(stored: string)
    requires stored !in PrototypeKeys
    ensures Restored(Some(stored)).Some? <==> stored in NoteKeys
  {
  }

  class NotesPage {
    var bookmarked: seq<string>
    var completed: seq<string>
    var activeTopic: Option<string>
    var searchQuery: string
    /** `localStorage['lastOpenedTopic']`. */
    var lastOpened: Option<string>

    /** Mounting the page with `stored` in local storage. */
    constructor (stored: Option<string>)
      ensures bookmarked == [] && completed == [] && searchQuery == ""
      ensures activeTopic == Restored(stored) && lastOpened == stored
    {
      bookmarked := [];
      completed := [];
      searchQuery := "";
      activeTopic := Restored(stored);
      lastOpened := stored;
    }

    /** `handleBookmarkToggle`. */
    method ToggleBookmark(topic: string)
      modifies this
      ensures bookmarked == Toggle(old(bookmarked), topic)
      ensures completed == old(completed) && activeTopic == old(activeTopic)
      ensures searchQuery == old(searchQuery) && lastOpened == old(lastOpened)
    {
      bookmarked := Toggle(bookmarked, topic);
    }

    /** `handleMarkComplete`: the same toggle on the completed list. */
    method MarkComplete(topic: string)
      modifies this
      ensures completed == Toggle(old(completed), topic)
      ensures bookmarked == old(bookmarked) && activeTopic == old(activeTopic)
      ensures searchQuery == old(searchQuery) && lastOpened == old(lastOpened)
    {
      completed := Toggle(completed, topic);
    }

    /** Clicking a chapter opens it; the effect on `activeTopic` stores a non-empty name. */
    method OpenTopic(chapter: string)
      modifies this
      ensures activeTopic == Some(chapter)
      ensures lastOpened == if chapter != "" then Some(chapter) else old(lastOpened)
      ensures bookmarked == old(bookmarked) && completed == old(completed) && searchQuery == old(searchQuery)
    {
      activeTopic := Some(chapter);
      if chapter != "" {
        lastOpened := Some(chapter);
      }
    }

    method Search(query: string)
      modifies this
      ensures searchQuery == query
      ensures bookmarked == old(bookmarked) && completed == old(completed)
      ensures activeTopic == old(activeTopic) && lastOpened == old(lastOpened)
    {
      searchQuery := query;
    }

    /** The subjects the navigator lists. */
    function Shown(): seq<Subject>
      reads this
    {
      FilteredSubjects(Subjects, searchQuery)
    }
  }

  /** A chapter with a note comes back on the next visit, one without a note does not,
      and a stored inherited name such as "toString" does. */
  method ReopenScenario() returns (withNote: Option<string>, withoutNote: Option<string>, inherited: Option<string>)
    ensures withNote == Some("Quadratic Equations")
    ensures withoutNote == None
    ensures inherited == Some("toString")
  {
    var first := new NotesPage(None);
    first.OpenTopic("Quadratic Equations");
    var second := new NotesPage(first.lastOpened);
    withNote := second.activeTopic;
    second.OpenTopic("Derivatives");
    var third := new NotesPage(second.lastOpened);
    withoutNote := third.activeTopic;
    var fourth := new NotesPage(Some("toString"));
    inherited := fourth.activeTopic;
  }

  /** Bookmarking twice undoes the bookmark; marking complete is independent of it. */
  method ToggleScenario() returns (bookmarked: seq<string>, completed: seq<string>)
    ensures bookmarked == ["Integrals"]
    ensures completed == ["Derivatives"]
  {
    var page := new NotesPage(None);
    page.ToggleBookmark("Integrals");
    page.ToggleBookmark("Circles");
    page.MarkComplete("Derivatives");
    ToggleTwice(["Integrals"], "Circles");
    page.ToggleBookmark("Circles");
    bookmarked := page.bookmarked;
    completed := page.completed;
  }
}
