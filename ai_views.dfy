/**
 * The prompt-selection and history-cleaning helpers of `ai/views.py`.
 * The completion service itself is outside the model: its answer arrives
 * as a `Completion` value.
 */
module AiViews {
  import opened Common
  import opened Text

  /** A JSON value as it arrives in a request body (numbers as integers). */
  datatype Json =
    | JNull
    | JBool(b: bool)
    | JNum(n: int)
    | JStr(s: string)
    | JArray(items: seq<Json>)
    | JObject(fields: map<string, Json>)

  datatype Role = UserRole | AssistantRole

  function RoleName(r: Role): string
  {
    match r
    case UserRole => "user"
    case AssistantRole => "assistant"
  }

  /** One `{"role": ..., "content": ...}` message for the completion service. */
  datatype Turn = Turn(role: Role, content: string)

  /** The role a JSON value names, if it is exactly "user" or "assistant". */
  function ParseRole(j: Json): (r: Option<Role>)
    ensures r.Some? <==> j == JStr("user") || j == JStr("assistant")
    ensures r.Some? ==> j == JStr(RoleName(r.value))
  {
    if j == JStr("user") then Some(UserRole)
    else if j == JStr("assistant") then Some(AssistantRole)
    else None
  }

  /** What one history item contributes: kept (role, stripped content) or dropped. */
  function CleanItem(item: Json): (r: Option<Turn>)
    ensures r.Some? <==>
      && item.JObject?
      && "role" in item.fields && ParseRole(item.fields["role"]).Some?
      && "content" in item.fields && item.fields["content"].JStr?
      && Strip(item.fields["content"].s) != ""
    ensures r.Some? ==>
      && item.fields["role"] == JStr(RoleName(r.value.role))
      && r.value.content == Strip(item.fields["content"].s)
  {
    if !item.JObject? then None
    else
      var role := if "role" in item.fields then ParseRole(item.fields["role"]) else None;
      var content := if "content" in item.fields then item.fields["content"] else JNull;
      if role.None? then None
      else if !content.JStr? || Strip(content.s) == "" then None
      else Some(Turn(role.value, Strip(content.s)))
  }

  /** A turn that may be sent on: non-empty content, already stripped. */
  predicate CleanTurn(t: Turn)
  {
    t.content != "" && IsStripped(t.content)
  }

  /** The kept items, in input order (the list `cleaned` of `_normalize_history`). */
  function Cleaned(items: seq<Json>): (r: seq<Turn>)
    ensures |r| <= |items|
  {
    if items == [] then []
    else
      var last := CleanItem(items[|items| - 1]);
      Cleaned(items[..|items| - 1]) + (if last.Some? then [last.value] else [])
  }

  /** Every kept turn is clean. */
  lemma {:induction false} CleanedTurnsAreClean(items: seq<Json>)
    ensures forall t :: t in Cleaned(items) ==> CleanTurn(t)
  {
    if items != [] {
      CleanedTurnsAreClean(items[..|items| - 1]);
    }
  }

  /** The history length `_normalize_history` keeps by default. */
  const DefaultMaxItems: int := 10

  /** Python's `s[-k:]`: for k >= 1 the last k items; for k <= 0 the slice starts at -k. */
  function PyTail<T>(s: seq<T>, k: int): (r: seq<T>)
    ensures k >= 1 ==> |r| == (if |s| < k then |s| else k)
    ensures exists i :: 0 <= i <= |s| && r == s[i..]
  {
    assert s == s[0..];
    if k >= 1 then (if |s| < k then s else s[|s| - k..])
    else if -k <= |s| then s[-k..]
    else s[|s|..]
  }

  /**
   * `_normalize_history(raw_history, max_items)`: a non-list gives [], otherwise
   * the clean items in order, then the last `max_items` of them.
   */
  method NormalizeHistory(raw: Json, maxItems: int) returns (cleaned: seq<Turn>)
    ensures !raw.JArray? ==> cleaned == []
    ensures raw.JArray? ==> cleaned == PyTail(Cleaned(raw.items), maxItems)
    ensures forall t :: t in cleaned ==> CleanTurn(t)
    ensures maxItems >= 1 ==> |cleaned| <= maxItems
  {
    if !raw.JArray? {
      return [];
    }
    var items := raw.items;
    cleaned := [];
    var i := 0;
    while i < |items|
      invariant 0 <= i <= |items|
      invariant cleaned == Cleaned(items[..i])
    {
      var item := items[i];
      assert items[..i + 1][..i] == items[..i];
      assert Cleaned(items[..i + 1]) ==
        Cleaned(items[..i]) + (if CleanItem(item).Some? then [CleanItem(item).value] else []);
      if item.JObject? {
        var role := if "role" in item.fields then item.fields["role"] else JNull;
        var content := if "content" in item.fields then item.fields["content"] else JNull;
        if role == JStr("user") || role == JStr("assistant") {
          if content.JStr? && Strip(content.s) != "" {
            assert CleanItem(item) == Some(Turn(ParseRole(role).value, Strip(content.s)));
            cleaned := cleaned + [Turn(ParseRole(role).value, Strip(content.s))];
          } else {
            assert CleanItem(item).None?;
          }
        } else {
          assert CleanItem(item).None?;
        }
      } else {
        assert CleanItem(item).None?;
      }
      i := i + 1;
    }
    assert items[..|items|] == items;
    CleanedTurnsAreClean(items);
    cleaned := PyTail(cleaned, maxItems);
  }

  /** The words that mark a general question as a project request. */
  const ProjectKeywords: seq<string> :=
    ["project", "zimsec", "proposal", "title page", "abstract", "literature review", "methodology"]

  /** Some word of `words` occurs in `s`. */
  function AnyOccurs(words: seq<string>, s: string): (r: bool)
    ensures r <==> exists w :: w in words && IsSubstring(w, s)
  {
    if words == [] then false
    else Contains(words[0], s) || AnyOccurs(words[1..], s)
  }

  /** `_is_project_request(text)`: false for None or "", else some keyword occurs in the lower-cased text. */
  function IsProjectRequest(text: Option<string>): (r: bool)
    ensures text == None || text == Some("") ==> !r
    ensures text.Some? && text.value != "" ==>
      (r <==> exists w :: w in ProjectKeywords && IsSubstring(w, Lower(text.value)))
  {
    if text.None? || text.value == "" then false
    else AnyOccurs(ProjectKeywords, Lower(text.value))
  }

  /** The project keywords are all lower case, so case never matters to the test. */
  lemma ProjectRequestIgnoresCase(text: string)
    ensures IsProjectRequest(Some(Lower(text))) == IsProjectRequest(Some(text))
  {
    LowerIdempotent(text);
  }

  const ScienceRules: string :=
    "Science/Geography: expand Research Methodology and Findings & Analysis with clear "
    + "environmental or experimental evidence. Use the 6 stages."
  const MathRules: string :=
    "Mathematics: include relevant calculations, formulas, and worked examples tied to "
    + "real-life data (profits, surveys, measurements, modeling)."
  const ComputingRules: string :=
    "Computer Science/ICT (4021): include system analysis approach with Section A "
    + "(Investigation), Section B (Design), Section C (Development), and Section D "
    + "(Testing/Evaluation)."
  const LanguageRules: string :=
    "Languages: focus on communication strategies, literacy improvements, or cultural "
    + "preservation as appropriate."
  const HeritageRules: string := "Include local history, culture, traditions, and community knowledge."

  /** `_project_subject_rules(subject)`: the first matching subject family wins. */
  function SubjectRules(subject: Option<string>): (r: string)
    ensures r != "" ==> exists j :: 0 <= j < |SubjectTable| && r == SubjectTable[j].1
                                  && AnyOccurs(SubjectTable[j].0, Lower(if subject.Some? then subject.value else ""))
  {
    SubjectRulesOfLowered(Lower(if subject.Some? then subject.value else ""))
  }

  /** The chain of tests of `_project_subject_rules`, on an already lower-cased subject. */
  function SubjectRulesOfLowered(low: string): (r: string)
    ensures r != "" ==> exists j :: 0 <= j < |SubjectTable| && r == SubjectTable[j].1 && AnyOccurs(SubjectTable[j].0, low)
  {
    AnyOccursOne("science", low);
    AnyOccursOne("math", low);
    AnyOccursTwo("computer", "ict", low);
    AnyOccursTwo("english", "shona", low);
    AnyOccursOne("heritage", low);
    assert SubjectTable[0] == (["science"], ScienceRules) && SubjectTable[1] == (["math"], MathRules);
    assert SubjectTable[2] == (["computer", "ict"], ComputingRules);
    assert SubjectTable[3] == (["english", "shona"], LanguageRules) && SubjectTable[4] == (["heritage"], HeritageRules);
    if Contains("science", low) then ScienceRules
    else if Contains("math", low) then MathRules
    else if Contains("computer", low) || Contains("ict", low) then ComputingRules
    else if Contains("english", low) || Contains("shona", low) then LanguageRules
    else if Contains("heritage", low) then HeritageRules
    else ""
  }

  /** The subject families in priority order: the words that select each, and its rules. */
  const SubjectTable: seq<(seq<string>, string)> := [
    (["science"], ScienceRules),
    (["math"], MathRules),
    (["computer", "ict"], ComputingRules),
    (["english", "shona"], LanguageRules),
    (["heritage"], HeritageRules)
  ]

  /** The rules of the first family in `table` one of whose words occurs in `s`; "" if none. */
  function FirstMatch(table: seq<(seq<string>, string)>, s: string): (r: string)
  {
    if table == [] then ""
    else if AnyOccurs(table[0].0, s) then table[0].1
    else FirstMatch(table[1..], s)
  }

  lemma AnyOccursOne(w: string, s: string)
    ensures AnyOccurs([w], s) == Contains(w, s)
  {
    assert [w][1..] == [];
  }

  lemma AnyOccursTwo(v: string, w: string, s: string)
    ensures AnyOccurs([v, w], s) == (Contains(v, s) || Contains(w, s))
  {
    assert [v, w][1..] == [w];
    AnyOccursOne(w, s);
  }

  /** `_project_subject_rules` is a first-match lookup in the priority table, on the lower-cased subject. */
  lemma SubjectRulesIsFirstMatch(subject: Option<string>)
    ensures SubjectRules(subject) == FirstMatch(SubjectTable, Lower(if subject.Some? then subject.value else ""))
  {
    var low := Lower(if subject.Some? then subject.value else "");
    var t0 := SubjectTable;
    var t1 := [(["math"], MathRules), (["computer", "ict"], ComputingRules),
               (["english", "shona"], LanguageRules), (["heritage"], HeritageRules)];
    var t2 := [(["computer", "ict"], ComputingRules), (["english", "shona"], LanguageRules),
               (["heritage"], HeritageRules)];
    var t3 := [(["english", "shona"], LanguageRules), (["heritage"], HeritageRules)];
    var t4 := [(["heritage"], HeritageRules)];
    assert t0[1..] == t1 && t1[1..] == t2 && t2[1..] == t3 && t3[1..] == t4 && t4[1..] == [];
    AnyOccursOne("science", low);
    AnyOccursOne("math", low);
    AnyOccursTwo("computer", "ict", low);
    AnyOccursTwo("english", "shona", low);
    AnyOccursOne("heritage", low);
    assert FirstMatch(t4, low) == if Contains("heritage", low) then HeritageRules else "";
    assert FirstMatch(t3, low) ==
      if Contains("english", low) || Contains("shona", low) then LanguageRules else FirstMatch(t4, low);
    assert FirstMatch(t2, low) ==
      if Contains("computer", low) || Contains("ict", low) then ComputingRules else FirstMatch(t3, low);
    assert FirstMatch(t1, low) == if Contains("math", low) then MathRules else FirstMatch(t2, low);
    assert FirstMatch(t0, low) == if Contains("science", low) then ScienceRules else FirstMatch(t1, low);
  }

  /** No subject word occurs exactly when the rules are empty; a science subject always gets the science rules. */
  lemma SubjectRulesPriority(subject: string)
    ensures var low := Lower(subject);
      && (SubjectRules(Some(subject)) == "" <==>
            !IsSubstring("science", low) && !IsSubstring("math", low) && !IsSubstring("computer", low)
            && !IsSubstring("ict", low) && !IsSubstring("english", low) && !IsSubstring("shona", low)
            && !IsSubstring("heritage", low))
      && (IsSubstring("science", low) ==> SubjectRules(Some(subject)) == ScienceRules)
      && (!IsSubstring("science", low) && IsSubstring("math", low) ==> SubjectRules(Some(subject)) == MathRules)
  {
  }

  /** Matching is case-insensitive, and a missing subject behaves like "". */
  lemma SubjectRulesIgnoresCase(subject: string)
    ensures SubjectRules(Some(Lower(subject))) == SubjectRules(Some(subject))
    ensures SubjectRules(None) == SubjectRules(Some("")) == ""
  {
    LowerIdempotent(subject);
    assert Lower("") == "";
  }

  /** One entry of a completion's `choices`; `content` may be None. */
  datatype Choice = Choice(content: Option<string>)

  /** A completion object; `choices` may be None. */
  datatype Completion = Completion(choices: Option<seq<Choice>>)

  /** `_extract_text(completion)`: the first choice's content, or "" when there is none. */
  function ExtractText(completion: Option<Completion>): (r: string)
    ensures r == "" <==>
      || completion.None?
      || completion.value.choices.None?
      || completion.value.choices.value == []
      || completion.value.choices.value[0].content in {None, Some("")}
    ensures r != "" ==> completion.value.choices.value[0].content == Some(r)
  {
    if completion.None? || completion.value.choices.None? || completion.value.choices.value == [] then ""
    else
      var content := completion.value.choices.value[0].content;
      if content.Some? then content.value else ""
  }

  const ReeIdentity: string :=
    "You are REE (Research, Explain, Elevate), the user's study, project, and exam companion. "
    + "You must follow the selected mode rules strictly."

  /** The study-mode system prompt before the suffix chosen by `task`. */
  const StudyBase: string :=
    ReeIdentity + " "
    + "Mode: STUDY. Behave Socratically: ask guiding questions, explain step-by-step, "
    + "and break content into small chunks."

  /** The suffix a study task appends; "" for a task the view does not know. */
  function StudySuffix(task: string): (r: string)
    ensures r != "" <==> task in {"summarize", "explain", "quiz", "simplify"}
  {
    match task
    case "summarize" => " Summarize the following notes clearly and concisely."
    case "explain" => " Explain the notes in simple, understandable terms."
    case "quiz" => " Create a quiz with questions and answers from these notes."
    case "simplify" => " Simplify the topic into very easy language."
    case _ => ""
  }

  /** The study task in force: a non-empty `action` overrides `task`, which defaults to "explain". */
  function StudyTask(task: Option<string>, action: Option<string>): (r: string)
    ensures action.Some? && action.value != "" ==> r == action.value
    ensures (action.None? || action.value == "") && task.None? ==> r == "explain"
    ensures (action.None? || action.value == "") && task.Some? ==> r == task.value
  {
    var t := if task.Some? then task.value else "explain";
    var a := if action.Some? then action.value else "";
    if a != "" then a else t
  }

  /** The system prompt `StudyModeView.post` builds with `+=`. */
  method StudySystemPrompt(task: Option<string>, action: Option<string>) returns (prompt: string)
    ensures prompt == StudyBase + StudySuffix(StudyTask(task, action))
    ensures StudyTask(task, action) !in {"summarize", "explain", "quiz", "simplify"} ==> prompt == StudyBase
  {
    var t := StudyTask(task, action);
    prompt := StudyBase;
    if t == "summarize" {
      prompt := prompt + " Summarize the following notes clearly and concisely.";
    } else if t == "explain" {
      prompt := prompt + " Explain the notes in simple, understandable terms.";
    } else if t == "quiz" {
      prompt := prompt + " Create a quiz with questions and answers from these notes.";
    } else if t == "simplify" {
      prompt := prompt + " Simplify the topic into very easy language.";
    }
  }

  /** The notes-integration system prompt before the action suffix. */
  const NotesBase: string :=
    ReeIdentity + " Mode: STUDY (Notes Integration). "
    + "Work only with the provided note. Be concise and helpful."

  /** The suffix a notes action appends; "" for an action the view does not know. */
  function NotesSuffix(action: string): (r: string)
    ensures r != "" <==> action in {"summarize", "explain", "understandable", "questions"}
  {
    match action
    case "summarize" => " Summarize the notes concisely."
    case "explain" => " Explain the notes in simple, understandable terms."
    case "understandable" => " Rewrite the notes to make them very easy to understand."
    case "questions" => " Turn the notes into study questions with short answers."
    case _ => ""
  }

  /** The system prompt `NotesAIView.post` builds; `action` defaults to "summarize". */
  method NotesSystemPrompt(action: Option<string>) returns (prompt: string)
    ensures prompt == NotesBase + NotesSuffix(if action.Some? then action.value else "summarize")
    ensures action.Some? && action.value !in {"summarize", "explain", "understandable", "questions"} ==>
      prompt == NotesBase
  {
    var a := if action.Some? then action.value else "summarize";
    prompt := NotesBase;
    if a == "summarize" {
      prompt := prompt + " Summarize the notes concisely.";
    } else if a == "explain" {
      prompt := prompt + " Explain the notes in simple, understandable terms.";
    } else if a == "understandable" {
      prompt := prompt + " Rewrite the notes to make them very easy to understand.";
    } else if a == "questions" {
      prompt := prompt + " Turn the notes into study questions with short answers.";
    }
  }
}
