/**
 * The coach prompt builder: a pure function from the caller's question and a
 * performance snapshot to the two role-tagged messages handed to the language
 * model. Number formatting (`${x}`, `toFixed(1)`, `(x*100).toFixed(0)`) is not
 * modelled; it is a parameter, so every property below holds for any formatting.
 */
module Prompt {
  import opened Strings

  datatype Role = System | User

  datatype Message = Message(role: Role, content: string)

  /**
   * The snapshot, generic in its leaf type: `real` for the declared TypeScript
   * type, or a raw JavaScript value when the handler passes an unchecked body.
   */
  datatype Sleep<N> = Sleep(durationHrs: N, efficiency: N, consistency: N)
  datatype Recovery<N> = Recovery(score: N, hrvMs: N, restingHr: N)
  datatype Workload<N> = Workload(completed: N, goal: N)
  datatype Snapshot<N> = Snapshot(readiness: N, sleep: Sleep<N>, recovery: Recovery<N>, workload: Workload<N>)

  /**
   * How a leaf is rendered: `show` is template interpolation `${x}`, `fixed1` is
   * `x.toFixed(1)` and `percent` is `(x*100).toFixed(0)`.
   */
  datatype Format<!N> = Format(show: N -> string, fixed1: N -> string, percent: N -> string)

  /** ECMAScript WhiteSpace and LineTerminator code points, the set `String.prototype.trim` removes. */
  predicate IsSpace(c: char) {
    c == '\t' || c == '\n' || c == '\U{000B}' || c == '\U{000C}' || c == '\r' || c == ' '
    || c == '\U{00A0}' || c == '\U{1680}' || ('\U{2000}' <= c <= '\U{200A}')
    || c == '\U{2028}' || c == '\U{2029}' || c == '\U{202F}' || c == '\U{205F}'
    || c == '\U{3000}' || c == '\U{FEFF}'
  }

  /** Leading whitespace removed. */
  function TrimStart(s: string): string {
    if |s| > 0 && IsSpace(s[0]) then TrimStart(s[1..]) else s
  }

  /** Trailing whitespace removed. */
  function TrimEnd(s: string): string {
    if |s| > 0 && IsSpace(s[|s| - 1]) then TrimEnd(s[..|s| - 1]) else s
  }

  /** What `TrimStart` keeps is a suffix that does not start with whitespace, and only whitespace precedes it. */
  lemma {:induction false} TrimStartShape(s: string)
    ensures var r := TrimStart(s);
            |r| <= |s| && r == s[|s| - |r|..] && (|r| > 0 ==> !IsSpace(r[0]))
            && forall i :: 0 <= i < |s| - |r| ==> IsSpace(s[i])
  {
    if |s| > 0 && IsSpace(s[0]) {
      TrimStartShape(s[1..]);
      assert forall i :: 1 <= i < |s| - |TrimStart(s)| ==> s[i] == s[1..][i - 1];
    }
  }

  /** What `TrimEnd` keeps is a prefix that does not end with whitespace, and only whitespace follows it. */
  lemma {:induction false} TrimEndShape(s: string)
    ensures var r := TrimEnd(s);
            |r| <= |s| && r == s[..|r|] && (|r| > 0 ==> !IsSpace(r[|r| - 1]))
            && forall i :: |r| <= i < |s| ==> IsSpace(s[i])
  {
    if |s| > 0 && IsSpace(s[|s| - 1]) {
      TrimEndShape(s[..|s| - 1]);
      assert forall i :: |TrimEnd(s)| <= i < |s| - 1 ==> s[i] == s[..|s| - 1][i];
    }
  }

  /** `String.prototype.trim`: the result neither starts nor ends with whitespace and is never longer. */
  function Trim(s: string): (r: string)
    ensures |r| <= |s|
    ensures |r| > 0 ==> !IsSpace(r[0]) && !IsSpace(r[|r| - 1])
  {
    var t := TrimStart(s);
    TrimStartShape(s);
    TrimEndShape(t);
    TrimEnd(t)
  }

  /**
   * The trimmed string is a contiguous slice of `s`, starting at offset `k`, and
   * every character outside that slice is whitespace.
   */
  lemma TrimSlice(s: string) returns (k: nat)
    ensures k + |Trim(s)| <= |s| && Trim(s) == s[k..k + |Trim(s)|]
    ensures forall i :: 0 <= i < k ==> IsSpace(s[i])
    ensures forall i :: k + |Trim(s)| <= i < |s| ==> IsSpace(s[i])
  {
    var t := TrimStart(s);
    var r := Trim(s);
    TrimStartShape(s);
    TrimEndShape(t);
    k := |s| - |t|;
    assert forall i :: k + |r| <= i < |s| ==> s[i] == t[i - k];
  }

  /** Trimming is idempotent: a trimmed string is its own trim. */
  lemma {:induction false} TrimIdempotent(s: string)
    ensures Trim(Trim(s)) == Trim(s)
  {
    var r := Trim(s);
    if |r| > 0 {
      assert TrimStart(r) == r;
      assert TrimEnd(r) == r;
    }
  }

  /** Trimming a template that opens on a line break and otherwise starts and ends on visible text removes only that break. */
  lemma {:induction false} TrimLeadingBreak(body: string)
    requires |body| > 0 && !IsSpace(body[0]) && !IsSpace(body[|body| - 1])
    ensures Trim("\n" + body) == body
  {
    assert ("\n" + body)[1..] == body;
    assert TrimStart("\n" + body) == TrimStart(body) == body;
  }

  /** The system instruction as written between the template's opening line break and its end. */
  const SystemText: string :=
    "You are AthletIQ Coach, " + "an AI performance assistant.\n"
    + "Be concise, prescriptive, and athlete-friendly.\n"
    + "Use today's metrics and explain \U{201C}why\U{201D} in simple terms.\n"
    + "End with a short \"Today's Plan\" " + "(\U{2264}3 bullets)."

  /** The system instruction template, which opens on a line break. */
  const SystemTemplate: string := "\n" + SystemText

  /** The system instruction: the trimmed template, which loses only its opening line break. */
  function SystemPrompt(): (sys: string)
    ensures "\n" + sys == SystemTemplate
    ensures |sys| > 0 && !IsSpace(sys[0]) && !IsSpace(sys[|sys| - 1])
  {
    var first := "You are AthletIQ Coach, ";
    var last := "(\U{2264}3 bullets).";
    assert first[0] == 'Y' && SystemText[0] == first[0];
    assert last[|last| - 1] == '.' && SystemText[|SystemText| - 1] == last[|last| - 1];
    TrimLeadingBreak(SystemText);
    Trim(SystemTemplate)
  }

  function ReadinessLine<N>(fmt: Format<N>, s: Snapshot<N>): string {
    "- Readiness: " + fmt.show(s.readiness)
  }

  /** Score, then HRV in ms, then resting heart rate in bpm. */
  function RecoveryLine<N>(fmt: Format<N>, r: Recovery<N>): string {
    "- Recovery: score " + fmt.show(r.score) + ", HRV " + fmt.show(r.hrvMs) + " ms, Resting HR " + fmt.show(r.restingHr) + " bpm"
  }

  /** Duration to one decimal, then efficiency and consistency as whole percentages. */
  function SleepLine<N>(fmt: Format<N>, sl: Sleep<N>): string {
    "- Sleep: " + fmt.fixed1(sl.durationHrs) + " h, Eff " + fmt.percent(sl.efficiency) + "%, Consistency " + fmt.percent(sl.consistency) + "%"
  }

  /** Completed over goal, then " this week". */
  function WorkoutsLine<N>(fmt: Format<N>, w: Workload<N>): string {
    "- Workouts: " + fmt.show(w.completed) + "/" + fmt.show(w.goal) + " this week"
  }

  /** The context block between the template's opening line break and its end: a heading and four lines in fixed order. */
  function ContextBody<N>(fmt: Format<N>, s: Snapshot<N>): string {
    "Context" + "\n" + ReadinessLine(fmt, s) + "\n" + RecoveryLine(fmt, s.recovery)
    + "\n" + SleepLine(fmt, s.sleep) + "\n" + WorkoutsLine(fmt, s.workload)
  }

  /** The context template, which opens on a line break. */
  function ContextTemplate<N>(fmt: Format<N>, s: Snapshot<N>): string {
    "\n" + ContextBody(fmt, s)
  }

  /** The context block opens on its heading and readiness line and closes on " this week". */
  lemma {:induction false} ContextBodyEnds<N>(fmt: Format<N>, s: Snapshot<N>)
    ensures var body := ContextBody(fmt, s);
            StartsWith(body, "Context\n- Readiness: ") && EndsWith(body, " this week")
  {
    var body := ContextBody(fmt, s);
    var head := "Context" + "\n" + "- Readiness: ";
    assert StartsWith(head, "Context\n- Readiness: ");
    StartsWithAppend(head, body[|head|..], "Context\n- Readiness: ");
    assert body == head + body[|head|..];
    var w := WorkoutsLine(fmt, s.workload);
    assert EndsWith(w, " this week");
    EndsWithAppend(body[..|body| - |w|], w, " this week");
    assert body == body[..|body| - |w|] + w;
  }

  /** The rendered context: trimming removed only the opening line break, so it starts with the heading and the readiness line and ends with the workouts line. */
  function ContextText<N>(fmt: Format<N>, s: Snapshot<N>): (ctx: string)
    ensures "\n" + ctx == ContextTemplate(fmt, s)
    ensures StartsWith(ctx, "Context\n- Readiness: ")
    ensures EndsWith(ctx, " this week")
  {
    var body := ContextBody(fmt, s);
    ContextBodyEnds(fmt, s);
    assert body[0] == "Context\n- Readiness: "[0] == 'C';
    assert body[|body| - 1] == " this week"[9] == 'k';
    TrimLeadingBreak(body);
    Trim(ContextTemplate(fmt, s))
  }

  const QuestionSeparator: string := "\n\nQuestion: "

  /** `buildCoachMessages`: the system instruction, then the user turn of context and question. */
  function BuildCoachMessages<N>(fmt: Format<N>, message: string, s: Snapshot<N>): (msgs: seq<Message>)
    ensures |msgs| == 2
    ensures msgs[0].role == System && msgs[1].role == User
    ensures msgs[0].content == SystemPrompt()
    ensures StartsWith(msgs[1].content, "Context\n- Readiness: ")
    ensures EndsWith(msgs[1].content, QuestionSeparator + message)
  {
    var ctx := ContextText(fmt, s);
    var user := ctx + (QuestionSeparator + message);
    StartsWithAppend(ctx, QuestionSeparator + message, "Context\n- Readiness: ");
    EndsWithAppend(ctx, QuestionSeparator + message, QuestionSeparator + message);
    [Message(System, SystemPrompt()), Message(User, user)]
  }

  /** The system instruction depends on neither the question nor the snapshot nor the formatting. */
  lemma SystemIndependentOfInputs<N, M>(fmt: Format<N>, message: string, s: Snapshot<N>,
                                        fmt': Format<M>, message': string, s': Snapshot<M>)
    ensures BuildCoachMessages(fmt, message, s)[0] == BuildCoachMessages(fmt', message', s')[0]
  {
  }

  /**
   * The user turn splits uniquely into the context, which depends on the snapshot
   * alone, and the question, reproduced verbatim at the end.
   */
  lemma {:induction false} UserTurnSplits<N>(fmt: Format<N>, message: string, s: Snapshot<N>)
    ensures var user := BuildCoachMessages(fmt, message, s)[1].content;
            var cut := |user| - |QuestionSeparator| - |message|;
            0 <= cut && user[..cut] == ContextText(fmt, s)
            && user[cut..] == QuestionSeparator + message
            && user[|user| - |message|..] == message
  {
    var user := BuildCoachMessages(fmt, message, s)[1].content;
    var ctx := ContextText(fmt, s);
    assert user == ctx + (QuestionSeparator + message);
    assert user[..|ctx|] == ctx;
    assert user[|ctx|..] == QuestionSeparator + message;
  }

  /** The user turn, read left to right: the rendered context, the separator, then the question. */
  lemma UserTurnIs<N>(fmt: Format<N>, message: string, s: Snapshot<N>)
    ensures BuildCoachMessages(fmt, message, s)[1].content == ContextText(fmt, s) + QuestionSeparator + message
  {
    var ctx := ContextText(fmt, s);
    assert ctx + (QuestionSeparator + message) == ctx + QuestionSeparator + message;
  }

  /** Two snapshots that render alike give the same user turn for the same question. */
  lemma SameQuestionSameContext<N>(fmt: Format<N>, message: string, s: Snapshot<N>, s': Snapshot<N>)
    requires ContextText(fmt, s) == ContextText(fmt, s')
    ensures BuildCoachMessages(fmt, message, s) == BuildCoachMessages(fmt, message, s')
  {
  }
}
