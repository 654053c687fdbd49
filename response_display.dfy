// The `ResponseDisplay` component: which of its five views it shows.

module ResponseDisplay {
  import opened Types
  import opened JsString
  import opened Formatter

  /** The title of the one skill whose replies are shown as a chat message. */
  const ChatSkillTitle := "Customer Communication"

  /**
   * The views the component can return. The two layouts that show a reply
   * carry the markup `formatResponse` produced for it; the error banner
   * carries the message it prints.
   */
  datatype View =
    | LoadingSkeleton
    | ErrorBanner(message: string)
    | Placeholder
    | ChatReply(html: string)
    | Suggestion(html: string)

  /** A view that renders the response through `formatResponse`. */
  predicate Formats(v: View) {
    v.ChatReply? || v.Suggestion?
  }

  /** `activeSkill?.title === 'Customer Communication'`. */
  predicate IsChatSkill(activeSkill: Option<Skill>) {
    activeSkill.Some? && activeSkill.value.title == ChatSkillTitle
  }

  /**
   * The chain of early returns of the component: loading first, then a
   * (truthy) error, then an empty response, then the chat layout for the
   * customer-communication skill, and the default layout last.
   */
  function SelectView(response: string, isLoading: bool, error: Option<string>, activeSkill: Option<Skill>): (v: View)
    ensures v.LoadingSkeleton? <==> isLoading
    ensures v.ErrorBanner? <==> !isLoading && Truthy(error)
    ensures v.ErrorBanner? ==> v.message == error.value
    ensures v.Placeholder? <==> !isLoading && !Truthy(error) && response == ""
    ensures Formats(v) <==> !isLoading && !Truthy(error) && response != ""
    ensures v.ChatReply? <==> Formats(v) && IsChatSkill(activeSkill)
    ensures Formats(v) ==> v.html == RenderAll(Document(response))
  {
    if isLoading then LoadingSkeleton
    else if Truthy(error) then ErrorBanner(error.value)
    else if response == "" then Placeholder
    else if IsChatSkill(activeSkill) then ChatReply(RenderAll(Document(response)))
    else Suggestion(RenderAll(Document(response)))
  }

  /**
   * The component never formats an empty response, so the markup it shows
   * always holds balanced lists and one item, paragraph or spacer for
   * every line of the response.
   */
  lemma {:induction false} FormattedReplyNotEmpty(response: string, isLoading: bool, error: Option<string>, activeSkill: Option<Skill>)
    requires Formats(SelectView(response, isLoading, error, activeSkill))
    ensures response != ""
    ensures WellFormed(Document(response))
    ensures |Contents(Document(response))| == |Split(response)|
  {
    DocumentWellFormed(response);
    DocumentFollowsLines(response);
  }

  /** The active skill only decides between the two layouts of a reply. */
  lemma SkillOnlyPicksLayout(response: string, isLoading: bool, error: Option<string>, a: Option<Skill>, b: Option<Skill>)
    ensures Formats(SelectView(response, isLoading, error, a)) == Formats(SelectView(response, isLoading, error, b))
    ensures !Formats(SelectView(response, isLoading, error, a)) ==>
              SelectView(response, isLoading, error, a) == SelectView(response, isLoading, error, b)
  {
  }
}
