/**
 * Building the prompt for the remote text-generation call from a user's
 * history, and choosing the reply from the call's outcome.
 */
module Prompting {
  import opened Wrappers
  import opened Conversation

  /** The role as `str.title()` renders it: "user" becomes "User". */
  function Label(r: Role): string {
    match r
    case User => "User"
    case Assistant => "Assistant"
  }

  /** One context line: the capitalised role, a colon and a space, and the content. */
  function RenderTurn(t: Turn): string {
    Label(t.role) + ": " + t.content
  }

  /** The list comprehension over a history: one rendered line per turn. */
  function RenderAll(ts: seq<Turn>): (lines: seq<string>)
    ensures |lines| == |ts|
  {
    if ts == [] then [] else [RenderTurn(ts[0])] + RenderAll(ts[1..])
  }

  /** Rendering distributes over concatenation of histories. */
  lemma {:induction false} RenderAllAppend(a: seq<Turn>, b: seq<Turn>)
    ensures RenderAll(a + b) == RenderAll(a) + RenderAll(b)
  {
    if a == [] {
      assert a + b == b;
    } else {
      assert (a + b)[1..] == a[1..] + b;
      RenderAllAppend(a[1..], b);
    }
  }

  /** Python's `"\n".join(lines)`: the lines with one newline between neighbours and none at the end. */
  function JoinLines(lines: seq<string>): string {
    if |lines| == 0 then ""
    else if |lines| == 1 then lines[0]
    else lines[0] + "\n" + JoinLines(lines[1..])
  }

  /** The context block: the last `ContextWindow` turns of `history`, one line each. */
  function Context(history: seq<Turn>): string {
    JoinLines(RenderAll(LastN(history, ContextWindow)))
  }

  const Persona: string :=
    "Voce e Aurelia, uma assistente virtual brasileira carismatica e inteligente. "
    + "Voce sempre responde em portugues brasileiro de forma natural, acolhedora e bem-humorada. "
    + "Voce e prestativa, curiosa e gosta de ajudar as pessoas com qualquer assunto."

  /** Everything the prompt holds before the context block. */
  const PromptHead: string := Persona + "\n\nHistorico da conversa:\n"

  /** Everything the prompt holds after the context block. */
  const PromptTail: string := "\n\nResponda a ultima mensagem do usuario como Aurelia, em portugues brasileiro:"

  /** The full prompt: the fixed head, the context block, the fixed closing instruction. */
  function Prompt(context: string): (p: string)
    ensures p != ""
    ensures |p| == |PromptHead| + |context| + |PromptTail|
    ensures p[..|PromptHead|] == PromptHead
    ensures p[|PromptHead|..|p| - |PromptTail|] == context
    ensures p[|p| - |PromptTail|..] == PromptTail
  {
    var p := PromptHead + context + PromptTail;
    assert p[..|PromptHead|] == PromptHead;
    assert p[|PromptHead|..|p| - |PromptTail|] == context;
    assert p[|p| - |PromptTail|..] == PromptTail;
    p
  }

  /** The reply sent when the remote call gives nothing usable. */
  const Apology: string :=
    "Oi! Desculpa, estou com um probleminha tecnico agora. Pode tentar de novo em alguns segundos? \U{1F60A}"

  /** Python's `if not response`: a missing or empty result falls back to the apology. */
  function ChooseReply(api: Option<string>): (reply: string)
    ensures reply != ""
    ensures api.Some? && api.value != "" ==> reply == api.value
    ensures api == None || api == Some("") ==> reply == Apology
  {
    match api
    case Some(text) => if text == "" then Apology else text
    case None => Apology
  }

  // ---------------------------------------------------------------------
  // Reading a context block and a prompt back, the partners of the above
  // ---------------------------------------------------------------------

  /** Splits at every newline; the inverse of `JoinLines` on newline-free lines. */
  function SplitLines(s: string): (lines: seq<string>)
    ensures |lines| >= 1
  {
    if s == [] then [[]]
    else
      var rest := SplitLines(s[1..]);
      if s[0] == '\n' then [[]] + rest
      else [[s[0]] + rest[0]] + rest[1..]
  }

  /** Reads one context line back into the turn it renders. */
  function ParseLine(line: string): Option<Turn> {
    if |line| >= 6 && line[..6] == "User: " then Some(Turn(User, line[6..]))
    else if |line| >= 11 && line[..11] == "Assistant: " then Some(Turn(Assistant, line[11..]))
    else None
  }

  function ParseLines(lines: seq<string>): Option<seq<Turn>> {
    if lines == [] then Some([])
    else
      match (ParseLine(lines[0]), ParseLines(lines[1..]))
      case (Some(t), Some(ts)) => Some([t] + ts)
      case _ => None
  }

  /** Reads a context block back into its turns. */
  function ParseContext(context: string): Option<seq<Turn>> {
    ParseLines(SplitLines(context))
  }

  /** Recovers the context block from a prompt, if the prompt has the fixed head and tail. */
  function ContextOf(p: string): Option<string> {
    if |p| >= |PromptHead| + |PromptTail|
       && p[..|PromptHead|] == PromptHead
       && p[|p| - |PromptTail|..] == PromptTail
    then Some(p[|PromptHead|..|p| - |PromptTail|])
    else None
  }

  predicate NoNewline(s: string) {
    forall i :: 0 <= i < |s| ==> s[i] != '\n'
  }

  /** Each rendered line reads back as the turn it came from. */
  lemma ParseRenderTurn(t: Turn)
    ensures ParseLine(RenderTurn(t)) == Some(t)
  {
    var line := RenderTurn(t);
    match t.role
    case User =>
      assert line[..6] == "User: ";
      assert line[6..] == t.content;
    case Assistant =>
      assert line[..6] != "User: " by { assert line[0] == 'A'; }
      assert line[..11] == "Assistant: ";
      assert line[11..] == t.content;
  }

  lemma {:induction false} SplitNewlineFree(a: string)
    requires NoNewline(a)
    ensures SplitLines(a) == [a]
  {
    if a != [] {
      SplitNewlineFree(a[1..]);
      assert [a[0]] + a[1..] == a;
    }
  }

  lemma {:induction false} SplitAtNewline(a: string, b: string)
    requires NoNewline(a)
    ensures SplitLines(a + "\n" + b) == [a] + SplitLines(b)
  {
    if a == [] {
      assert a + "\n" + b == "\n" + b;
      assert ("\n" + b)[1..] == b;
    } else {
      var s := a + "\n" + b;
      assert s[0] == a[0];
      assert s[1..] == a[1..] + "\n" + b;
      SplitAtNewline(a[1..], b);
      assert [a[0]] + a[1..] == a;
    }
  }

  /** Splitting a joined block gives back its lines, when no line holds a newline. */
  lemma {:induction false} SplitJoin(lines: seq<string>)
    requires |lines| >= 1
    requires forall k :: 0 <= k < |lines| ==> NoNewline(lines[k])
    ensures SplitLines(JoinLines(lines)) == lines
  {
    if |lines| == 1 {
      SplitNewlineFree(lines[0]);
    } else {
      SplitAtNewline(lines[0], JoinLines(lines[1..]));
      SplitJoin(lines[1..]);
      assert [lines[0]] + lines[1..] == lines;
    }
  }

  lemma {:induction false} ParseRenderAll(ts: seq<Turn>)
    ensures ParseLines(RenderAll(ts)) == Some(ts)
  {
    if ts != [] {
      ParseRenderTurn(ts[0]);
      ParseRenderAll(ts[1..]);
      assert [ts[0]] + ts[1..] == ts;
    }
  }

  /**
   * The context block determines its turns: when no content holds a
   * newline, reading the block back yields exactly the last
   * `Min(ContextWindow, |history|)` turns, in order.
   */
  lemma ContextRoundTrip(history: seq<Turn>)
    requires history != []
    requires forall k :: 0 <= k < |history| ==> NoNewline(history[k].content)
    ensures ParseContext(Context(history)) == Some(LastN(history, ContextWindow))
    ensures |LastN(history, ContextWindow)| == Min(ContextWindow, |history|)
  {
    var window := LastN(history, ContextWindow);
    assert forall k :: 0 <= k < |window| ==> NoNewline(window[k].content);
    RenderAllNoNewline(window);
    SplitJoin(RenderAll(window));
    ParseRenderAll(window);
  }

  /** The `k`-th rendered line is the rendering of the `k`-th turn. */
  lemma {:induction false} RenderAllAt(ts: seq<Turn>, k: nat)
    requires k < |ts|
    ensures RenderAll(ts)[k] == RenderTurn(ts[k])
  {
    if k > 0 {
      RenderAllAt(ts[1..], k - 1);
    }
  }

  /** A line rendered from newline-free content holds no newline. */
  lemma RenderTurnNoNewline(t: Turn)
    requires NoNewline(t.content)
    ensures NoNewline(RenderTurn(t))
  {
    var head := Label(t.role) + ": ";
    assert NoNewline(head);
    assert RenderTurn(t) == head + t.content;
  }

  lemma RenderAllNoNewline(ts: seq<Turn>)
    requires forall k :: 0 <= k < |ts| ==> NoNewline(ts[k].content)
    ensures forall k :: 0 <= k < |ts| ==> NoNewline(RenderAll(ts)[k])
  {
    forall k | 0 <= k < |ts| ensures NoNewline(RenderAll(ts)[k]) {
      RenderAllAt(ts, k);
      RenderTurnNoNewline(ts[k]);
    }
  }

  /**
   * The context of a reply step reads back as the last
   * `Min(ContextWindow, |h| + 1)` turns of the history with the new user
   * turn appended, and the new user turn is the last of them.
   */
  lemma StepContext(h: seq<Turn>, message: string)
    requires forall k :: 0 <= k < |h| ==> NoNewline(h[k].content)
    requires NoNewline(message)
    ensures ParseContext(Context(h + [Turn(User, message)]))
            == Some(LastN(h + [Turn(User, message)], ContextWindow))
    ensures |LastN(h + [Turn(User, message)], ContextWindow)| == Min(ContextWindow, |h| + 1)
    ensures LastN(h + [Turn(User, message)], ContextWindow)[Min(ContextWindow, |h| + 1) - 1]
            == Turn(User, message)
  {
    var grown := h + [Turn(User, message)];
    assert forall k :: 0 <= k < |grown| ==> NoNewline(grown[k].content) by {
      forall k | 0 <= k < |grown| ensures NoNewline(grown[k].content) {
        if k < |h| {
          assert grown[k] == h[k];
        }
      }
    }
    ContextRoundTrip(grown);
    var w := LastN(grown, ContextWindow);
    assert w == grown[|grown| - |w|..];
    assert w[|w| - 1] == grown[|grown| - 1];
  }

  /** Joining one more line appends a newline and that line. */
  lemma {:induction false} JoinSnoc(lines: seq<string>, last: string)
    requires lines != []
    ensures JoinLines(lines + [last]) == JoinLines(lines) + "\n" + last
  {
    if |lines| == 1 {
      assert (lines + [last])[1..] == [last];
    } else {
      assert (lines + [last])[1..] == lines[1..] + [last];
      JoinSnoc(lines[1..], last);
    }
  }

  /**
   * The context built right after the user turn is appended ends with that
   * turn's line, preceded by the up to `ContextWindow - 1` turns before it.
   */
  lemma ContextEndsWithMessage(history: seq<Turn>, message: string)
    ensures Context(history + [Turn(User, message)])
            == (if history == [] then "" else PrecedingLines(history) + "\n") + "User: " + message
  {
    var before := LastN(history, ContextWindow - 1);
    LastNSnoc(history, Turn(User, message), ContextWindow);
    RenderAllAppend(before, [Turn(User, message)]);
    RenderUserLine(message);
    if history != [] {
      JoinSnoc(RenderAll(before), "User: " + message);
    }
  }

  /** A lone user turn renders as one line. */
  lemma RenderUserLine(message: string)
    ensures RenderAll([Turn(User, message)]) == ["User: " + message]
  {
    assert [Turn(User, message)][1..] == [];
    assert RenderTurn(Turn(User, message)) == "User" + ": " + message == "User: " + message;
  }

  /** The lines of the turns that precede the new user turn in the context. */
  function PrecedingLines(history: seq<Turn>): string {
    JoinLines(RenderAll(LastN(history, ContextWindow - 1)))
  }

  /** After a reset, the context holds the new message's line and nothing else. */
  lemma ContextAfterReset(message: string)
    ensures Context([Turn(User, message)]) == "User: " + message
  {
    ContextEndsWithMessage([], message);
    assert [] + [Turn(User, message)] == [Turn(User, message)];
  }

  /** The prompt determines its context block. */
  lemma PromptRoundTrip(context: string)
    ensures ContextOf(Prompt(context)) == Some(context)
  {
  }
}
