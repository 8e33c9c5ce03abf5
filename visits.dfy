/** The page-visit counter of `APIs/api.py`: the module-level dictionary
    `user_page_visits`, bumped by `POST /visit` and read by `POST /recommendation`.
    The language model is a parameter from prompt to outcome. */
module Visits {
  import opened Text

  /** How many times `user` occurs in `log`. */
  function Occurrences(log: seq<string>, user: string): nat {
    if log == [] then 0 else (if log[0] == user then 1 else 0) + Occurrences(log[1..], user)
  }

  /** Recording one more visit adds one to that user's tally and nothing to anyone else's. */
  lemma {:induction false} OccurrencesAppend(log: seq<string>, visitor: string, user: string)
    ensures Occurrences(log + [visitor], user) == Occurrences(log, user) + (if visitor == user then 1 else 0)
  {
    if log != [] {
      assert (log + [visitor])[1..] == log[1..] + [visitor];
      OccurrencesAppend(log[1..], visitor, user);
    }
  }

  /** Later visits never lower a tally. */
  lemma {:induction false} OccurrencesGrow(log: seq<string>, more: seq<string>, user: string)
    ensures Occurrences(log, user) <= Occurrences(log + more, user)
  {
    if log == [] {
      assert log + more == more;
    } else {
      assert (log + more)[1..] == log[1..] + more;
      OccurrencesGrow(log[1..], more, user);
    }
  }

  /** What the language model call gives back, or the exception it raised. */
  datatype LlmOutcome = Suggestion(text: string) | LlmFailure(detail: string)

  datatype Response =
    | Recommendation(suggestion: string, visits: nat)
    | HttpError(status: nat, detail: string)

  const PromptOpening: string := "You are an AI study coach for a math learning platform. The student "
  const PromptMiddle: string := " has visited the AI Recommendation page "
  const PromptClosing: string := " times. Based on this, suggest a personalized next step or tip to help them improve their math learning journey. Be encouraging and specific. If visits are high, suggest advanced topics or challenges. If visits are low, suggest basic tips or motivation."

  /** The prompt sent to the model, with `str(visits)` in place of `{visits}`. */
  function Prompt(username: string, visits: nat): string {
    PromptOpening + username + PromptMiddle + NatToString(visits) + PromptClosing
  }

  class VisitCounter {
    /** `user_page_visits`. */
    var visits: map<string, nat>
    /** Every username `/visit` was called with, in order. */
    ghost var log: seq<string>

    /** `user_page_visits.get(username, 0)`. */
    function Count(username: string): nat
      reads this
    {
      if username in visits then visits[username] else 0
    }

    /** Each user's count is the number of visits recorded for that user. */
    ghost predicate Valid()
      reads this
    {
      forall user :: Count(user) == Occurrences(log, user)
    }

    constructor ()
      ensures Valid() && visits == map[] && log == []
    {
      visits := map[];
      log := [];
    }

    /** `POST /visit`: one more visit for `username`, answering the new count (1 for a
        name never seen before); every other user's count stays as it was. */
    method RecordVisit(username: string) returns (count: nat)
      requires Valid()
      modifies this
      ensures Valid()
      ensures count == old(Count(username)) + 1 && count == Occurrences(log, username)
      ensures visits == old(visits)[username := count]
      ensures log == old(log) + [username]
      ensures forall user :: user != username ==> Count(user) == old(Count(user))
    {
      count := (if username in visits then visits[username] else 0) + 1;
      visits := visits[username := count];
      forall user ensures Occurrences(log + [username], user) == Occurrences(log, user) + (if username == user then 1 else 0) {
        OccurrencesAppend(log, username, user);
      }
      log := log + [username];
    }

    /** `POST /recommendation`: reads the count (0 for an unseen user) without changing
        it, asks the model with a prompt carrying that count, and answers the suggestion
        together with the same count; a model failure is a 500. */
    method GetRecommendation(username: string, llm: string -> LlmOutcome) returns (response: Response)
      requires Valid()
      ensures var seen := Occurrences(log, username);
        match llm(Prompt(username, seen))
        case Suggestion(text) => response == Recommendation(text, seen)
        case LlmFailure(detail) => response == HttpError(500, "LLM error: " + detail)
    {
      var seen := if username in visits then visits[username] else 0;
      assert seen == Count(username);
      match llm(Prompt(username, seen)) {
        case Suggestion(text) =>
          response := Recommendation(text, seen);
        case LlmFailure(detail) =>
          response := HttpError(500, "LLM error: " + detail);
      }
    }
  }

  /** Two visits by one user and one by another, then a recommendation for the first. */
  method VisitScenario(llm: string -> LlmOutcome) returns (counts: seq<nat>, response: Response)
    requires forall p :: llm(p) == Suggestion("Try integrals")
    ensures counts == [1, 2, 1]
    ensures response == Recommendation("Try integrals", 2)
  {
    var counter := new VisitCounter();
    var a := counter.RecordVisit("asha");
    var b := counter.RecordVisit("asha");
    var c := counter.RecordVisit("ravi");
    counts := [a, b, c];
    response := counter.GetRecommendation("asha", llm);
  }
}
