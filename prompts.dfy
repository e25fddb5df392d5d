/** The prompt-template menu: fetched once per backend URL, with a fixed
    five-entry fallback when the fetch fails; hidden while the list is empty. */
module Prompts {
  import opened Backend

  datatype Template = Template(name: string, content: string)

  /** The templates offered when `GET /prompts` fails: five named entries,
      the first inserting nothing and every other one inserting some text. */
  function Fallback(): (r: seq<Template>)
    ensures |r| == 5
    ensures r[0].content == ""
    ensures forall k :: 0 <= k < |r| ==> r[k].name != ""
    ensures forall k :: 1 <= k < |r| ==> r[k].content != ""
  {
    [ Template("Chat (Default)", ""),
      Template("Smart Summary", "Summarize the following text..."),
      Template("MoM", "Generate Minutes of Meeting..."),
      Template("Action Table", "Create an action items table..."),
      Template("Decision Support Matrix", "Create a decision matrix...") ]
  }

  /** The list the fetch leaves behind: the response's `prompts` (or `[]`
      when absent) on success, the fallback on any failure. The error itself
      never reaches the caller. */
  function PromptsAfterFetch(outcome: Outcome<Option<seq<Template>>>): (r: seq<Template>)
    ensures outcome.Success? ==> r == outcome.value.GetOr([])
    ensures outcome.Failure? ==> r == Fallback()
  {
    match outcome
    case Success(listed) => listed.GetOr([])
    case Failure(_) => Fallback()
  }

  /** `if (prompts.length === 0) return null`: the menu renders only with items. */
  function MenuShown(prompts: seq<Template>): (shown: bool)
    ensures shown <==> prompts != []
  {
    |prompts| != 0
  }

  /** After a failed fetch the menu is always shown, with exactly the five
      fallback entries in order, the first of which inserts no text. */
  lemma FailedFetchShowsFallback(detail: Option<string>)
    ensures var r := PromptsAfterFetch(Failure(detail));
      MenuShown(r) && |r| == 5 &&
      r[0] == Template("Chat (Default)", "") &&
      r[1].name == "Smart Summary" && r[2].name == "MoM" &&
      r[3].name == "Action Table" && r[4].name == "Decision Support Matrix"
  {
  }

  /** The menu is hidden exactly when the fetch succeeded with an absent or
      empty list. */
  lemma MenuHiddenIff(outcome: Outcome<Option<seq<Template>>>)
    ensures !MenuShown(PromptsAfterFetch(outcome)) <==>
      outcome.Success? && (outcome.value.None? || outcome.value.value == [])
  {
  }

  /** The component's single piece of state, `prompts`. */
  class PromptSelector {
    var prompts: seq<Template>

    constructor ()
      ensures prompts == [] && !MenuShown(prompts)
    {
      prompts := [];
    }

    /** The effect's `fetchPrompts()` once the request has its outcome. */
    method FetchPrompts(outcome: Outcome<Option<seq<Template>>>)
      modifies this
      ensures prompts == PromptsAfterFetch(outcome)
      ensures outcome.Failure? ==> MenuShown(prompts) && |prompts| == 5
    {
      match outcome {
        case Success(listed) =>
          prompts := listed.GetOr([]);
        case Failure(_) =>
          prompts := Fallback();
      }
    }

    /** Clicking the item at position `i`: the text handed to
        `onSelectPrompt` is that item's content. */
    method SelectPrompt(i: nat) returns (inserted: string)
      requires i < |prompts|
      ensures inserted == prompts[i].content
      ensures prompts == Fallback() && i == 0 ==> inserted == ""
    {
      inserted := prompts[i].content;
    }
  }
}
