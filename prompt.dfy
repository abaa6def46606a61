/** The prompt serialiser: an ordered chat log and a new question become one
    newline-joined text prompt. */
module Prompt {
  import opened Wrappers
  import opened Text

  /** One chat-log entry: a `{role, content}` dictionary whose keys may be missing,
      or a legacy `(role, text)` pair. */
  datatype Entry =
    | Dict(role: Option<string>, content: Option<string>)
    | Legacy(speaker: string, text: string)

  const Header := "Conversation so far:"

  /** The role of an entry; a dictionary without one speaks as the assistant. */
  function RoleOf(e: Entry): string {
    match e
    case Dict(role, _) => role.GetOr("assistant")
    case Legacy(speaker, _) => speaker
  }

  /** The text of an entry; a dictionary without one says nothing. */
  function ContentOf(e: Entry): string {
    match e
    case Dict(_, content) => content.GetOr("")
    case Legacy(_, text) => text
  }

  predicate IsUserRole(role: string) {
    StartsWith(Lower(role), "user") || StartsWith(Lower(role), "you")
  }

  predicate IsAssistantRole(role: string) {
    StartsWith(Lower(role), "assistant") || StartsWith(Lower(role), "ai")
  }

  /** The speaker label printed for a free-text role; the user test comes first. */
  function Label(role: string): string {
    if IsUserRole(role) then "User"
    else if IsAssistantRole(role) then "Assistant"
    else role
  }

  /** The prompt line for one entry. */
  function Line(e: Entry): string {
    Label(RoleOf(e)) + ": " + ContentOf(e)
  }

  /** The lines of the prompt for a non-empty log, in order. */
  function PromptLines(question: string, log: seq<Entry>): seq<string> {
    [Header] + seq(|log|, i requires 0 <= i < |log| => Line(log[i])) + ["User: " + question]
  }

  /** `_build_prompt`: the bare question when there is no history, otherwise the
      header, the history and the question, one per line. */
  function BuildPrompt(question: string, log: seq<Entry>): string {
    if |log| == 0 then question
    else Join(PromptLines(question, log), "\n")
  }

  lemma LowerUser()
    ensures Lower("User") == "user"
  {
    var tail := "ser";
    LowerKeeps(tail);
    assert "User" == ['U'] + tail;
  }

  lemma LowerAssistant()
    ensures Lower("Assistant") == "assistant"
    ensures Lower("assistant") == "assistant"
  {
    var tail := "ssistant";
    LowerKeeps(tail);
    assert "Assistant" == ['A'] + tail;
    assert "assistant" == ['a'] + tail;
  }

  /** The label is `User` exactly for roles whose lower-case form starts with
      `user` or `you`: no other role, not even one passed through, prints as `User`. */
  lemma LabelUser(role: string)
    ensures Label(role) == "User" <==> IsUserRole(role)
  {
    if Label(role) == "User" && !IsUserRole(role) {
      assert role == "User";
      LowerUser();
      assert false;
    }
  }

  /** The label is `Assistant` exactly for roles that are not user roles and whose
      lower-case form starts with `assistant` or `ai`. */
  lemma LabelAssistant(role: string)
    ensures Label(role) == "Assistant" <==> !IsUserRole(role) && IsAssistantRole(role)
  {
    if Label(role) == "Assistant" && !IsUserRole(role) && !IsAssistantRole(role) {
      assert role == "Assistant";
      LowerAssistant();
      assert false;
    }
  }

  /** Every other role is printed as it is. */
  lemma LabelOther(role: string)
    requires !IsUserRole(role) && !IsAssistantRole(role)
    ensures Label(role) == role
    ensures role != "User" && role != "Assistant"
  {
    LowerUser();
    LowerAssistant();
  }

  /** The user and assistant labels depend on the role only through its lower-case
      form: `USER`, `User` and `user` print alike. */
  lemma LabelCaseInsensitive(a: string, b: string)
    requires Lower(a) == Lower(b)
    requires IsUserRole(a) || IsAssistantRole(a)
    ensures Label(a) == Label(b)
  {
  }

  /** A string whose first character differs from a non-empty prefix's does not start with it. */
  lemma FirstCharDiffers(s: string, p: string)
    requires |s| > 0 && |p| > 0 && s[0] != p[0]
    ensures !StartsWith(s, p)
  {
    if |p| <= |s| {
      assert s[..|p|][0] != p[0];
    }
  }

  /** The labels the model itself writes into the log print as `User` and `Assistant`. */
  lemma StandardLabels()
    ensures Label("user") == "User"
    ensures Label("assistant") == "Assistant"
  {
    LowerKeeps("user");
    LowerAssistant();
    var l := "assistant";
    FirstCharDiffers(l, "user");
    FirstCharDiffers(l, "you");
    assert l[..|l|] == l;
    assert IsUserRole("user") by {
      var u := "user";
      assert u[..|u|] == u;
    }
  }

  /** A dictionary without a role is labelled `Assistant`; one without content
      prints an empty message. */
  lemma MissingKeys(role: Option<string>, content: Option<string>)
    ensures role.None? ==> Line(Dict(role, content)) == "Assistant: " + content.GetOr("")
    ensures content.None? ==> Line(Dict(role, content)) == Label(role.GetOr("assistant")) + ": "
  {
    var e := Dict(role, content);
    if role.None? {
      assert RoleOf(e) == "assistant";
      StandardLabels();
      assert Label(RoleOf(e)) == "Assistant";
    }
  }

  /** With no history the prompt is exactly the question. */
  lemma EmptyLogPrompt(question: string)
    ensures BuildPrompt(question, []) == question
  {
  }

  /** A non-empty log gives `|log| + 2` lines: the header, one `Label: content` line
      per entry in order, then `User: question`. */
  lemma PromptLinesShape(question: string, log: seq<Entry>)
    ensures |PromptLines(question, log)| == |log| + 2
    ensures PromptLines(question, log)[0] == Header
    ensures forall i :: 0 <= i < |log| ==>
      PromptLines(question, log)[i + 1] == Label(RoleOf(log[i])) + ": " + ContentOf(log[i])
    ensures PromptLines(question, log)[|log| + 1] == "User: " + question
  {
  }

  /** Reading the prompt back line by line recovers those lines, as long as no role,
      content or question itself contains a newline. */
  lemma PromptSplitsIntoLines(question: string, log: seq<Entry>)
    requires |log| > 0
    requires '\n' !in question
    requires forall i :: 0 <= i < |log| ==> '\n' !in RoleOf(log[i]) && '\n' !in ContentOf(log[i])
    ensures Split(BuildPrompt(question, log), '\n') == PromptLines(question, log)
    ensures |Split(BuildPrompt(question, log), '\n')| == |log| + 2
  {
    var lines := PromptLines(question, log);
    forall i | 0 <= i < |lines| ensures '\n' !in lines[i] {
      if 1 <= i <= |log| {
        var e := log[i - 1];
        assert lines[i] == Label(RoleOf(e)) + ": " + ContentOf(e);
        assert '\n' !in Label(RoleOf(e));
      }
    }
    SplitJoin(lines, '\n');
  }

  /** A non-empty log's prompt opens with the header line and closes with the question. */
  lemma PromptFrame(question: string, log: seq<Entry>)
    requires |log| > 0
    ensures StartsWith(BuildPrompt(question, log), Header + "\n")
    ensures var p := BuildPrompt(question, log);
      |p| >= |question| + 7 && p[|p| - |question| - 7..] == "\nUser: " + question
  {
    var lines := PromptLines(question, log);
    JoinEnds(lines, "\n");
  }

  /** A join of at least two parts opens with the first part and a separator and
      closes with a separator and the last part. */
  lemma {:induction false} JoinEnds(parts: seq<string>, sep: string)
    requires |parts| >= 2
    ensures var j := Join(parts, sep);
      StartsWith(j, parts[0] + sep) &&
      |j| >= |sep| + |parts[|parts| - 1]| &&
      j[|j| - |sep| - |parts[|parts| - 1]|..] == sep + parts[|parts| - 1]
    decreases |parts|
  {
    var j := Join(parts, sep);
    var rest := parts[1..];
    assert j == parts[0] + sep + Join(rest, sep);
    if |parts| > 2 {
      JoinEnds(rest, sep);
    }
  }

  /** The lines of a log holding one user turn and one assistant turn. */
  lemma TwoTurnLines(question: string, said: string, answered: string)
    ensures PromptLines(question, [Dict(Some("user"), Some(said)), Dict(Some("assistant"), Some(answered))])
         == [Header, "User: " + said, "Assistant: " + answered, "User: " + question]
  {
    var log := [Dict(Some("user"), Some(said)), Dict(Some("assistant"), Some(answered))];
    StandardLabels();
    PromptLinesShape(question, log);
    assert Line(log[0]) == "User: " + said;
    assert Line(log[1]) == "Assistant: " + answered;
  }

  lemma JoinFour(a: string, b: string, c: string, d: string, sep: string)
    ensures Join([a, b, c, d], sep) == a + sep + (b + sep + (c + sep + d))
  {
    var parts := [a, b, c, d];
    assert parts[1..] == [b, c, d] && parts[1..][1..] == [c, d] && parts[1..][1..][1..] == [d];
    assert Join([d], sep) == d;
    assert Join([c, d], sep) == c + sep + d;
    assert Join([b, c, d], sep) == b + sep + (c + sep + d);
  }

  /** The worked example: a user turn "hi", an assistant turn "hello", question "bye". */
  lemma TwoTurnExample()
    ensures BuildPrompt("bye", [Dict(Some("user"), Some("hi")), Dict(Some("assistant"), Some("hello"))])
         == "Conversation so far:" + "\n" + "User: hi" + "\n" + "Assistant: hello" + "\n" + "User: bye"
  {
    TwoTurnLines("bye", "hi", "hello");
    JoinFour(Header, "User: hi", "Assistant: hello", "User: bye", "\n");
  }
}
