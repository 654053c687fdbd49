// The `App` component: the colour theme, skill selection and the generate
// handler, as state that its event handlers update in place.

module App {
  import opened Types
  import opened JsString
  import opened Formatter
  import opened ResponseDisplay

  // ---------------------------------------------------------------------------
  // Theme

  datatype Theme = Light | Dark

  /** The string the theme is stored under in local storage. */
  function ThemeName(t: Theme): (r: string)
    ensures InitialTheme(Some(r)) == t
  {
    match t
    case Light => "light"
    case Dark => "dark"
  }

  /**
   * The theme at start-up from the stored string: the stored value when it
   * is exactly "light" or "dark", and dark for anything else or nothing.
   */
  function InitialTheme(saved: Option<string>): (t: Theme)
    ensures t == Light <==> saved == Some("light")
  {
    if saved == Some("light") then Light else Dark
  }

  /** A valid stored name is taken over as it is. */
  lemma InitialThemeKeepsName(saved: Option<string>)
    requires saved == Some("light") || saved == Some("dark")
    ensures ThemeName(InitialTheme(saved)) == saved.value
  {
  }

  /** The updater `toggleTheme` passes to the theme setter. */
  function Toggled(t: Theme): (r: Theme)
    ensures r != t
  {
    match t
    case Light => Dark
    case Dark => Light
  }

  /** Toggling twice restores the theme. */
  lemma ToggleTwice(t: Theme)
    ensures Toggled(Toggled(t)) == t
  {
  }

  // ---------------------------------------------------------------------------
  // The request sent to the model

  const EmptyRequestMessage := "Please write a prompt or upload a file."
  const FailureMessage := "Sorry, something went wrong. Please try again."

  /** The first word of the data template. */
  const Instruction := "Analyze"
  /** The text placed before the attached data. */
  const DataIntro := Instruction + " the following data and then respond to the user's request.\n\n--- DATA START ---\n"
  /** The label placed right before the user's prompt. */
  const RequestLabel := "User Request: "
  /** The text between the attached data and the user's prompt. */
  const DataOutro := "\n--- DATA END ---\n\n" + RequestLabel

  /** The guard of `handleGenerate`: a blank prompt and no (non-empty) file. */
  predicate IsBlankRequest(prompt: string, fileContent: Option<string>) {
    Trim(prompt) == "" && !Truthy(fileContent)
  }

  predicate EndsWith(s: string, t: string) {
    |t| <= |s| && s[|s| - |t|..] == t
  }

  /**
   * The prompt `handleGenerate` sends: the prompt itself, or, when a
   * non-empty file is attached, the file wrapped in the data template with
   * the prompt at the end.
   */
  function FullPrompt(prompt: string, fileContent: Option<string>): string {
    if Truthy(fileContent) then DataIntro + fileContent.value + DataOutro + prompt
    else prompt
  }

  /** The wrapped request starts with the text before the data. */
  lemma TemplatePrefix(data: string, prompt: string)
    ensures DataIntro <= DataIntro + data + DataOutro + prompt
  {
    assert DataIntro + data + DataOutro + prompt == DataIntro + (data + DataOutro + prompt);
  }

  /** The wrapped request ends with the label and the prompt. */
  lemma TemplateSuffix(data: string, prompt: string)
    ensures EndsWith(DataIntro + data + DataOutro + prompt, RequestLabel + prompt)
  {
    var head := DataIntro + data + "\n--- DATA END ---\n\n";
    assert DataIntro + data + DataOutro + prompt == head + (RequestLabel + prompt);
  }

  /**
   * Without a non-empty file the request is the prompt as typed, untrimmed;
   * with one it starts with the data template and ends with the prompt.
   */
  lemma FullPromptShape(prompt: string, fileContent: Option<string>)
    ensures !Truthy(fileContent) ==> FullPrompt(prompt, fileContent) == prompt
    ensures Truthy(fileContent) ==>
      var r := FullPrompt(prompt, fileContent);
      DataIntro <= r && EndsWith(r, RequestLabel + prompt) &&
      |r| == |DataIntro| + |fileContent.value| + |DataOutro| + |prompt|
  {
    if Truthy(fileContent) {
      TemplatePrefix(fileContent.value, prompt);
      TemplateSuffix(fileContent.value, prompt);
    }
  }

  /**
   * Reads a wrapped request back, given the length of the attached data:
   * the data and the user's prompt, or None when `r` is not in the template.
   */
  function Unwrap(r: string, dataLength: nat): Option<(string, string)> {
    var dataEnd := |DataIntro| + dataLength;
    if dataEnd + |DataOutro| <= |r| && r[..|DataIntro|] == DataIntro && r[dataEnd..dataEnd + |DataOutro|] == DataOutro
    then Some((r[|DataIntro|..dataEnd], r[dataEnd + |DataOutro|..]))
    else None
  }

  /** The data and the prompt can be read back from a wrapped request. */
  lemma {:induction false} UnwrapFullPrompt(prompt: string, fileContent: Option<string>)
    requires Truthy(fileContent)
    ensures Unwrap(FullPrompt(prompt, fileContent), |fileContent.value|) == Some((fileContent.value, prompt))
  {
    var data := fileContent.value;
    var r := FullPrompt(prompt, fileContent);
    var dataEnd := |DataIntro| + |data|;
    assert r == DataIntro + data + DataOutro + prompt;
    assert r[..|DataIntro|] == DataIntro;
    assert r[|DataIntro|..dataEnd] == data;
    assert r[dataEnd..dataEnd + |DataOutro|] == DataOutro;
    assert r[dataEnd + |DataOutro|..] == prompt;
  }

  /** A request that passes the guard is never blank when sent. */
  lemma {:induction false} SentRequestNotBlank(prompt: string, fileContent: Option<string>)
    requires !IsBlankRequest(prompt, fileContent)
    ensures !AllWhitespace(FullPrompt(prompt, fileContent))
  {
    if Truthy(fileContent) {
      var r := FullPrompt(prompt, fileContent);
      assert r[0] == DataIntro[0];
      assert !IsWhitespace(r[0]);
    }
  }

  // ---------------------------------------------------------------------------
  // The generate handler on values

  /** What the remote call gives back: a reply text, or an exception. */
  datatype Outcome = Success(text: string) | Failure

  /** The state of the component, as a value. */
  datatype Snapshot = Snapshot(
    prompt: string,
    fileContent: Option<string>,
    response: string,
    isLoading: bool,
    error: Option<string>,
    activeSkill: Option<Skill>,
    theme: Theme)

  /**
   * The state `handleGenerate` leaves behind once the call for its request
   * has ended with `outcome`: the guard's message for a blank request, and
   * otherwise the reply or the generic failure message, with loading over.
   */
  function Generated(s: Snapshot, outcome: Outcome): (r: Snapshot)
    ensures r.prompt == s.prompt && r.fileContent == s.fileContent
    ensures r.activeSkill == s.activeSkill && r.theme == s.theme
    ensures IsBlankRequest(s.prompt, s.fileContent) ==> r == s.(error := Some(EmptyRequestMessage))
    ensures !IsBlankRequest(s.prompt, s.fileContent) ==> !r.isLoading
    ensures !IsBlankRequest(s.prompt, s.fileContent) && outcome.Success? ==> r.response == outcome.text && r.error == None
    ensures !IsBlankRequest(s.prompt, s.fileContent) && outcome.Failure? ==> r.response == "" && r.error == Some(FailureMessage)
  {
    if IsBlankRequest(s.prompt, s.fileContent) then s.(error := Some(EmptyRequestMessage))
    else
      var started := s.(isLoading := true, error := None, response := "");
      var ended := match outcome
        case Success(text) => started.(response := text)
        case Failure => started.(error := Some(FailureMessage));
      ended.(isLoading := false)
  }

  /** The view of a snapshot. */
  function ViewOf(s: Snapshot): View {
    SelectView(s.response, s.isLoading, s.error, s.activeSkill)
  }

  /**
   * What is on screen after a request that passed the guard: the failure
   * banner, the placeholder for an empty reply, or the formatted reply.
   */
  lemma {:induction false} GeneratedView(s: Snapshot, outcome: Outcome)
    requires !IsBlankRequest(s.prompt, s.fileContent)
    ensures outcome.Failure? ==> ViewOf(Generated(s, outcome)) == ErrorBanner(FailureMessage)
    ensures outcome.Success? && outcome.text == "" ==> ViewOf(Generated(s, outcome)) == Placeholder
    ensures outcome.Success? && outcome.text != "" ==>
              Formats(ViewOf(Generated(s, outcome))) &&
              ViewOf(Generated(s, outcome)).html == RenderAll(Document(outcome.text))
  {
    var r := Generated(s, outcome);
    assert !r.isLoading;
    if outcome.Failure? {
      assert Truthy(r.error);
    } else {
      assert !Truthy(r.error);
    }
  }

  /**
   * A blank request only shows the guard's message, unless a previous
   * request is still loading, whose skeleton stays on screen.
   */
  lemma {:induction false} BlankRequestView(s: Snapshot, outcome: Outcome)
    requires IsBlankRequest(s.prompt, s.fileContent)
    ensures !s.isLoading ==> ViewOf(Generated(s, outcome)) == ErrorBanner(EmptyRequestMessage)
    ensures s.isLoading ==> ViewOf(Generated(s, outcome)) == LoadingSkeleton
  {
    var r := Generated(s, outcome);
    assert r.isLoading == s.isLoading && r.error == Some(EmptyRequestMessage);
  }

  // ---------------------------------------------------------------------------
  // The component's state

  class AppState {
    var prompt: string
    var fileContent: Option<string>
    var response: string
    var isLoading: bool
    var error: Option<string>
    var activeSkill: Option<Skill>
    var theme: Theme

    function State(): Snapshot
      reads this
    {
      Snapshot(prompt, fileContent, response, isLoading, error, activeSkill, theme)
    }

    /** The initial state, with the theme read from local storage. */
    constructor (savedTheme: Option<string>)
      ensures State() == Snapshot("", None, "", false, None, None, InitialTheme(savedTheme))
    {
      prompt := "";
      fileContent := None;
      response := "";
      isLoading := false;
      error := None;
      activeSkill := None;
      theme := InitialTheme(savedTheme);
    }

    method ToggleTheme()
      modifies this
      ensures State() == old(State()).(theme := Toggled(old(theme)))
    {
      theme := Toggled(theme);
    }

    /** `handleSkillSelect`: the skill's sample prompt becomes the prompt. */
    method SelectSkill(skill: Skill)
      modifies this
      ensures State() == old(State()).(prompt := skill.samplePrompt, activeSkill := Some(skill))
    {
      prompt := skill.samplePrompt;
      activeSkill := Some(skill);
    }

    /** The prompt setter handed to the input component. */
    method SetPrompt(text: string)
      modifies this
      ensures State() == old(State()).(prompt := text)
    {
      prompt := text;
    }

    /** The file-content setter handed to the input component. */
    method SetFileContent(content: Option<string>)
      modifies this
      ensures State() == old(State()).(fileContent := content)
    {
      fileContent := content;
    }

    /** The active-skill setter handed to the input component. */
    method SetActiveSkill(skill: Option<Skill>)
      modifies this
      ensures State() == old(State()).(activeSkill := skill)
    {
      activeSkill := skill;
    }

    /**
     * `handleGenerate` up to the remote call: the guard, the three updates
     * before the call, and the request to send, if any.
     */
    method BeginGenerate() returns (request: Option<string>)
      modifies this
      ensures IsBlankRequest(old(prompt), old(fileContent)) ==>
                request == None && State() == old(State()).(error := Some(EmptyRequestMessage))
      ensures !IsBlankRequest(old(prompt), old(fileContent)) ==>
                request == Some(FullPrompt(old(prompt), old(fileContent))) &&
                State() == old(State()).(isLoading := true, error := None, response := "")
    {
      if IsBlankRequest(prompt, fileContent) {
        error := Some(EmptyRequestMessage);
        request := None;
      } else {
        isLoading := true;
        error := None;
        response := "";
        var fullPrompt := prompt;
        if Truthy(fileContent) {
          fullPrompt := DataIntro + fileContent.value + DataOutro + prompt;
        }
        request := Some(fullPrompt);
      }
    }

    /** `handleGenerate` after the remote call: the try, catch and finally. */
    method FinishGenerate(outcome: Outcome)
      modifies this
      ensures outcome.Success? ==> State() == old(State()).(response := outcome.text, isLoading := false)
      ensures outcome.Failure? ==> State() == old(State()).(error := Some(FailureMessage), isLoading := false)
    {
      match outcome {
        case Success(text) =>
          response := text;
        case Failure =>
          error := Some(FailureMessage);
      }
      isLoading := false;
    }

    /**
     * `handleGenerate` as one transition, with the remote model given as
     * `service`, a function from the request to its outcome.
     */
    method Generate(service: string -> Outcome)
      modifies this
      ensures State() == Generated(old(State()), service(FullPrompt(old(prompt), old(fileContent))))
    {
      var request := BeginGenerate();
      if request.Some? {
        FinishGenerate(service(request.value));
      }
    }
  }
}
