// The chat messages the reasoning engine sends, as the model sees them: a
// role and a text per turn. The system message's text is the engine's fixed
// instructions. Kept apart from LlmUtils, whose proofs never need the text.
module Messages {
  import opened Values
  import opened LlmUtils
  import PyStr

  /** The instructions every conversation opens with. */
  const SystemPrompt: string :=
    "\n    You are an autonomous agent solving a data analysis quiz.\n"
    + "    Your goal is to:\n"
    + "    1. Identify the question and the submission URL from the page content.\n"
    + "    2. Solve the question. Use the `run_python` tool to process data, download files, or perform calculations.\n"
    + "    3. Return the final answer and submission URL in JSON format.\n"
    + "    \n"
    + "    When using `run_python`:\n"
    + "    - You can use `requests` to download files.\n"
    + "    - You can use `pandas` to analyze data.\n"
    + "    - PRINT the result you want to see.\n"
    + "    \n"
    + "    Format your FINAL response (when you have the answer) as a JSON object:\n"
    + "    {\n"
    + "        \"answer\": <answer>,\n"
    + "        \"submission_url\": <url>,\n"
    + "        \"reasoning\": <brief reasoning>\n"
    + "    }\n"
    + "    "

  /** The role a message is sent under. */
  function Role(m: Turn): string {
    match m
    case SystemTurn => "system"
    case UserTurn(_) => "user"
    case AssistantTurn(_) => "assistant"
    case ToolTurn(_, _) => "tool"
  }

  /** The text a message is sent with; an assistant message's content may
      be absent. */
  function Content(m: Turn): Option<string> {
    match m
    case SystemTurn => Some(SystemPrompt)
    case UserTurn(content) => Some(content)
    case AssistantTurn(reply) => reply.content
    case ToolTurn(_, content) => Some(content)
  }

  /** The conversation opens with the system instructions and then the page,
      whose text comes before its markup, each cut to 5000 characters. */
  lemma SeedMessages(html: string, text: string)
    ensures var conv := Seed(html, text);
      |conv| == 2 &&
      Role(conv[0]) == "system" && Content(conv[0]) == Some(SystemPrompt) &&
      Role(conv[1]) == "user" && Content(conv[1]).Some? &&
      Content(conv[1]).value ==
        TextHeader + text[..if |text| < TruncateAt then |text| else TruncateAt] +
        HtmlHeader + html[..if |html| < TruncateAt then |html| else TruncateAt]
  {
    var t, h := PyStr.Prefix(text, TruncateAt), PyStr.Prefix(html, TruncateAt);
    assert UserContent(html, text) == TextHeader + t + HtmlHeader + h;
  }
}
