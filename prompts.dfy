/**
 * The prompts the program sends. A request carries a `Prompt` value; `Rendered` gives the exact
 * text the source puts in the message's `content`. The long fixed texts stay behind this
 * datatype so that proofs about requests compare prompt values, not thousands of characters.
 */
module Prompts {
  import opened Text

  /** Every message content the program sends. */
  datatype Prompt =
    | Verbatim(text: string)
    | ExtractionSystem
    | AnswerContext(question: string, choices: seq<string>)
    | AnswerInstruction
    | AnswerUser(question: string, choices: seq<string>)
    | CodingSystem
    | CodingUser(question: string)

  /** The Step 1 system message of the overlay (the JSON-extraction instructions). */
  const ExtractionInstruction :=
    "\n"
    + "            Analyze the following text extracted via OCR. Determine if it contains a multiple-choice question (MCQ).\n"
    + "            Output a JSON object with the following structure:\n"
    + "            {\n"
    + "              \"question_found\": boolean, // true if an MCQ is found, false otherwise\n"
    + "              \"question\": \"The extracted question text.\" | null, // null if question_found is false\n"
    + "              \"choices\": [\"A) Choice A text with its number\", \"B) Choice B text with its number\", ...] | null // null if question_found is false or choices aren\'t clear\n"
    + "            }\n"
    + "            The text is extracted via OCR so it may contain errors, fix those errors in the output.\n"
    + "            If there is code, include it in the question text.\n"
    + "            Only output the JSON object. Do not include any other text or explanations.\n"
    + "            Focus on identifying a clear question stem and distinct answer options (often labeled A, B, C, D or 1, 2, 3, 4).\n"
    + "            If no clear MCQ is present, set \"question_found\" to false.\n"
    + "            If there are multiple questions present, only return the first one.\n"
    + "            "

  /** The second system message of the answering request. */
  const AnsweringRole := "You are a helpful AI assistant specializing in answering MCQs concisely."

  /** The fixed parts of the answering user prompt, around the question and the choices. */
  const AnswerIntro :=
    "\n"
    + "            You are an expert AI assistant. Answer the following multiple-choice question and provide a brief explanation for your choice.\n"
    + "            Limit your total response (answer + explanation) to approximately 700 characters.\n"
    + "            Be concise and clear. State the correct choice first, then the explanation.\n"
    + "\n"
    + "            Question:\n"
    + "            "
  const AnswerMiddle :=
    "\n"
    + "\n"
    + "            Choices:\n"
    + "            "
  const AnswerOutro :=
    "\n"
    + "\n"
    + "            Your Answer (Correct Choice + Brief Explanation):\n"
    + "            "

  /** The system message of the coding assistant. */
  const CodingInstruction :=
    "You are an expert programming assistant. You help solve coding questions, assignments, and assessments.\n"
    + "\n"
    + "Your response guidelines:\n"
    + "- Be brief and concise - focus on the solution\n"
    + "- Format your response in Markdown\n"
    + "- Use proper code blocks with language specification for syntax highlighting (e.g., ```python, ```java, ```cpp)\n"
    + "- Include only essential explanations\n"
    + "- If the question has multiple parts, address each briefly\n"
    + "- Prioritize working code over lengthy explanations"

  /** The fixed parts of the coding user prompt, around the recognised text. */
  const CodingHead :=
    "Solve the following coding question/assignment. Provide a brief, working solution in Markdown format with properly formatted code blocks.\n"
    + "\n"
    + "Question/Assignment:\n"
  const CodingTail :=
    "\n"
    + "\n"
    + "Solution:"

  /** The choices section: each choice as "- choice", one per line, in the original order. */
  function ChoicesBlock(choices: seq<string>): string {
    Bulleted("- ", choices)
  }

  /** The first system message of the answering request: the extraction result restated. */
  function ContextContent(question: string, choices: seq<string>): string {
    "Context from extraction:\nQuestion: " + question + "\nChoices:\n" + ChoicesBlock(choices)
  }

  /** The user prompt of the answering request. */
  function AnsweringPrompt(question: string, choices: seq<string>): string {
    AnswerIntro + question + AnswerMiddle + ChoicesBlock(choices) + AnswerOutro
  }

  /** The user prompt of the coding request. */
  function CodingPrompt(question: string): string {
    CodingHead + question + CodingTail
  }

  /** The exact text of a message content. */
  function Rendered(p: Prompt): string {
    match p
    case Verbatim(text) => text
    case ExtractionSystem => ExtractionInstruction
    case AnswerContext(q, cs) => ContextContent(q, cs)
    case AnswerInstruction => AnsweringRole
    case AnswerUser(q, cs) => AnsweringPrompt(q, cs)
    case CodingSystem => CodingInstruction
    case CodingUser(q) => CodingPrompt(q)
  }

  lemma QuestionLineFree(question: string)
    requires FreeOf(question, '\n')
    ensures FreeOf("Question: " + question, '\n')
  {
    var b := "Question: " + question;
    forall i | 0 <= i < |b| ensures b[i] != '\n' {
      if i >= 10 { assert b[i] == question[i - 10]; }
    }
  }

  /**
   * The context message lists the question and then every choice on a line of its own, as
   * "- choice", in the original order.
   */
  lemma ContextLines(question: string, choices: seq<string>)
    requires |choices| >= 1
    requires FreeOf(question, '\n') && AllFreeOf(choices, '\n')
    ensures Split(ContextContent(question, choices), '\n')
            == ["Context from extraction:", "Question: " + question, "Choices:"]
               + Prefixed("- ", choices)
  {
    var a, b, c := "Context from extraction:", "Question: " + question, "Choices:";
    var block := ChoicesBlock(choices);
    assert Split(ContextContent(question, choices), '\n') == [a, b, c] + Split(block, '\n') by {
      QuestionLineFree(question);
      assert ContextContent(question, choices) == a + "\n" + (b + "\n" + (c + "\n" + block));
      ThreeLines(a, b, c, block, '\n');
    }
    assert Split(block, '\n') == Prefixed("- ", choices) by {
      BulletedLines("- ", choices);
    }
  }

  /**
   * The answering prompt carries the question verbatim right after the fixed introduction, and
   * the choices section verbatim between the fixed middle and closing parts.
   */
  lemma AnsweringPromptEmbeds(question: string, choices: seq<string>)
    ensures var p, i := AnsweringPrompt(question, choices), |AnswerIntro|;
            && p[i..i + |question|] == question
            && p[i + |question| + |AnswerMiddle|..|p| - |AnswerOutro|] == ChoicesBlock(choices)
  {
    var p := AnsweringPrompt(question, choices);
    var front := AnswerIntro + question + AnswerMiddle;
    assert p == front + ChoicesBlock(choices) + AnswerOutro;
    assert p[|AnswerIntro|..|AnswerIntro| + |question|] == question;
    assert p[|front|..|p| - |AnswerOutro|] == ChoicesBlock(choices);
  }

  /** The coding prompt carries the recognised text verbatim between its fixed parts. */
  lemma CodingPromptEmbeds(question: string)
    ensures var p := CodingPrompt(question);
            && |p| == |CodingHead| + |question| + |CodingTail|
            && p[|CodingHead|..|p| - |CodingTail|] == question
  {
  }
}
