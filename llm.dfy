/** The prompt serialiser of app/services/llm.py: a thread's messages as the lines of an Ollama
    `/api/generate` prompt, one `User: ` or `Assistant: ` line per message with content, and a
    final `Assistant:` cue for the model to continue from. */
module Prompt {

  import opened Outcome
  import opened Text

  /** A message as the serialiser reads it: `m.get("role")` and `m.get("content")`, where a
      missing key or a null is `None`. */
  datatype Turn = Turn(role: Option<string>, content: Option<string>)

  function OrEmpty(v: Option<string>): string {
    if v.Some? then v.value else ""
  }

  /** The stripped content a message contributes; an empty one is skipped. */
  function ContentOf(m: Turn): string {
    Strip(OrEmpty(m.content))
  }

  /** The line of a kept message. */
  function LineOf(m: Turn): (line: string)
    ensures Lower(Strip(OrEmpty(m.role))) == "assistant" ==> line == "Assistant: " + ContentOf(m)
    ensures Lower(Strip(OrEmpty(m.role))) != "assistant" ==> line == "User: " + ContentOf(m)
  {
    var role := Lower(Strip(OrEmpty(m.role)));
    if role == "user" then "User: " + ContentOf(m)
    else if role == "assistant" then "Assistant: " + ContentOf(m)
    else "User: " + ContentOf(m)
  }

  /** The lines of the loop, message by message in input order. */
  function KeptLines(ms: seq<Turn>): seq<string>
    decreases |ms|
  {
    if ms == [] then []
    else
      var m := ms[|ms| - 1];
      KeptLines(ms[..|ms| - 1]) + (if ContentOf(m) == "" then [] else [LineOf(m)])
  }

  /** The lines after the closing cue. */
  function PromptLines(ms: seq<Turn>): seq<string> {
    var lines := KeptLines(ms);
    if lines == [] || !StartsWith(lines[|lines| - 1], "Assistant:") then lines + ["Assistant:"] else lines
  }

  /** `build_ollama_generate_prompt`. */
  method BuildPrompt(ms: seq<Turn>) returns (prompt: string)
    ensures prompt == Join("\n", PromptLines(ms))
  {
    var lines: seq<string> := [];
    var i := 0;
    while i < |ms|
      invariant 0 <= i <= |ms|
      invariant lines == KeptLines(ms[..i])
    {
      assert ms[..i + 1][..i] == ms[..i];
      var role := Lower(Strip(OrEmpty(ms[i].role)));
      var content := Strip(OrEmpty(ms[i].content));
      if content != "" {
        if role == "user" {
          lines := lines + ["User: " + content];
        } else if role == "assistant" {
          lines := lines + ["Assistant: " + content];
        } else {
          lines := lines + ["User: " + content];
        }
      }
      i := i + 1;
    }
    assert ms[..|ms|] == ms;
    if lines == [] || !StartsWith(lines[|lines| - 1], "Assistant:") {
      lines := lines + ["Assistant:"];
    }
    prompt := Join("\n", lines);
  }

  /** The lines keep the input order: the lines of two runs of messages are the lines of the
      first followed by the lines of the second, and one message gives a line exactly when its
      content is not blank. */
  lemma {:induction false} KeptLinesAppend(a: seq<Turn>, b: seq<Turn>)
    ensures KeptLines(a + b) == KeptLines(a) + KeptLines(b)
    decreases |b|
  {
    if b == [] {
      assert a + b == a;
    } else {
      var b' := b[..|b| - 1];
      assert (a + b)[..|a + b| - 1] == a + b';
      KeptLinesAppend(a, b');
    }
  }

  lemma KeptLinesOne(m: Turn)
    ensures KeptLines([m]) == (if ContentOf(m) == "" then [] else [LineOf(m)])
  {
    assert [m][..0] == [];
  }

  /** The number of lines is the number of messages with content. */
  function KeptCount(ms: seq<Turn>): nat
    decreases |ms|
  {
    if ms == [] then 0 else (if ContentOf(ms[0]) == "" then 0 else 1) + KeptCount(ms[1..])
  }

  lemma {:induction false} KeptLinesCount(ms: seq<Turn>)
    ensures |KeptLines(ms)| == KeptCount(ms)
    decreases |ms|
  {
    if ms != [] {
      assert ms == [ms[0]] + ms[1..];
      KeptLinesAppend([ms[0]], ms[1..]);
      KeptLinesOne(ms[0]);
      KeptLinesCount(ms[1..]);
    }
  }

  /** The prompt always ends with a line that starts with "Assistant:", and the cue is added
      only when the last kept line is not already one: the lines are the kept lines plus zero
      or one. */
  lemma PromptEnds(ms: seq<Turn>)
    ensures var ls := PromptLines(ms);
      && ls != [] && StartsWith(ls[|ls| - 1], "Assistant:")
      && ls[..|KeptLines(ms)|] == KeptLines(ms)
      && (|ls| == |KeptLines(ms)| || |ls| == |KeptLines(ms)| + 1)
      && (|ls| == |KeptLines(ms)| + 1 <==> KeptLines(ms) == [] || !StartsWith(KeptLines(ms)[|KeptLines(ms)| - 1], "Assistant:"))
  {
  }

  /** No messages, or only blank ones, give exactly "Assistant:". */
  lemma {:induction false} BlankPrompt(ms: seq<Turn>)
    requires forall k :: 0 <= k < |ms| ==> ContentOf(ms[k]) == ""
    ensures KeptLines(ms) == []
    ensures Join("\n", PromptLines(ms)) == "Assistant:"
    decreases |ms|
  {
    if ms != [] {
      BlankPrompt(ms[..|ms| - 1]);
    }
  }
}
