/** The interactive chat loop: the message log sent to the gateway, one turn of
    at most 50 gateway calls with their tool executions, and the compaction of
    a log that has grown too long. */
module ChatLoop {
  import opened Wrappers
  import opened Strings
  import opened Sequences
  import opened ChatStream

  const MAX_STEPS := 50
  const KEEP_RECENT_MESSAGES := 6
  const COMPACT_THRESHOLD_CHARS := 200_000

  /** `calls` is [] when the message has no `tool_calls`. */
  datatype Msg =
    | System(content: string)
    | User(content: string)
    | Assistant(text: Option<string>, calls: seq<Call>)
    | Tool(callId: string, result: string)

  // ----- well-paired logs -------------------------------------------------

  predicate Answered(calls: seq<Call>, tools: seq<Msg>) {
    && |tools| == |calls|
    && forall i :: 0 <= i < |calls| ==> tools[i].Tool? && tools[i].callId == calls[i].id
  }

  /** A message together with the tool messages it must be followed by. */
  function Width(m: Msg): nat {
    if m.Assistant? then 1 + |m.calls| else 1
  }

  predicate HeadPaired(log: seq<Msg>)
    requires log != []
  {
    && !log[0].Tool?
    && Width(log[0]) <= |log|
    && (log[0].Assistant? ==> Answered(log[0].calls, log[1..Width(log[0])]))
  }

  /** Each assistant message is followed at once by exactly one tool message per
      call it makes, same ids, same order; there are no other tool messages. */
  predicate WellPaired(log: seq<Msg>)
    decreases |log|
  {
    log == [] || (HeadPaired(log) && WellPaired(log[Width(log[0])..]))
  }

  /** Inside the head's block there are only tool messages. */
  lemma HeadBlock(log: seq<Msg>)
    requires log != [] && HeadPaired(log)
    ensures forall k :: 1 <= k < Width(log[0]) ==> log[k].Tool?
  {
    assert forall k :: 1 <= k < Width(log[0]) ==> log[k] == log[1..Width(log[0])][k - 1];
  }

  /** The same, position by position. */
  lemma {:induction false} PairedEverywhere(log: seq<Msg>, i: nat)
    requires WellPaired(log) && i < |log| && log[i].Assistant?
    ensures i + |log[i].calls| < |log|
    ensures Answered(log[i].calls, log[i + 1..i + 1 + |log[i].calls|])
    ensures i + 1 + |log[i].calls| < |log| ==> !log[i + 1 + |log[i].calls|].Tool?
    decreases |log|
  {
    var n := Width(log[0]);
    var rest := log[n..];
    HeadBlock(log);
    if i == 0 {
      assert n < |log| ==> rest[0] == log[n];
    } else {
      PairedEverywhere(rest, i - n);
      var m := |log[i].calls|;
      assert rest[i - n + 1..i - n + 1 + m] == log[i + 1..i + 1 + m];
    }
  }

  lemma {:induction false} PairedAppend(a: seq<Msg>, b: seq<Msg>)
    requires WellPaired(a) && WellPaired(b)
    ensures WellPaired(a + b)
    decreases |a|
  {
    if a == [] {
      assert a + b == b;
    } else {
      var n := Width(a[0]);
      PairedAppend(a[n..], b);
      HeadSurvives(a, b);
    }
  }

  lemma HeadSurvives(a: seq<Msg>, b: seq<Msg>)
    requires a != [] && HeadPaired(a)
    ensures HeadPaired(a + b) && Width((a + b)[0]) == Width(a[0]) && (a + b)[Width(a[0])..] == a[Width(a[0])..] + b
  {
    assert (a + b)[0] == a[0];
    assert (a + b)[1..Width(a[0])] == a[1..Width(a[0])];
  }

  lemma {:induction false} PairedSuffix(log: seq<Msg>, i: nat)
    requires WellPaired(log) && i < |log| && !log[i].Tool?
    ensures WellPaired(log[i..])
    decreases |log|
  {
    if i == 0 {
      assert log[0..] == log;
    } else {
      var n := Width(log[0]);
      HeadBlock(log);
      PairedSuffix(log[n..], i - n);
      assert log[n..][i - n..] == log[i..];
    }
  }

  // ----- one turn ---------------------------------------------------------

  /** One gateway call: the deadline passed, the request failed or was refused,
      or an answer was streamed. */
  datatype Reply = TimedOut | Refused | Streamed(texts: seq<string>, calls: seq<Call>)

  type Gateway = nat -> Reply

  /** The result of executing call `j` of step `i`, timeouts included. */
  type Tools = (nat, nat) -> string

  function Join(texts: seq<string>): string {
    if texts == [] then "" else texts[0] + Join(texts[1..])
  }

  function ToolMessages(calls: seq<Call>, step: nat, tools: Tools): (r: seq<Msg>)
    ensures Answered(calls, r)
  {
    seq(|calls|, j requires 0 <= j < |calls| => Tool(calls[j].id, tools(step, j)))
  }

  /** What a streamed answer adds to the log. */
  function Round(reply: Reply, step: nat, tools: Tools): seq<Msg>
    requires reply.Streamed?
  {
    if reply.texts == [] && reply.calls == [] then []
    else
      [Assistant(if reply.texts == [] then None else Some(Join(reply.texts)), reply.calls)]
        + ToolMessages(reply.calls, step, tools)
  }

  function Rounds(n: nat, gateway: Gateway, tools: Tools): seq<Msg>
    requires forall i :: 0 <= i < n ==> gateway(i).Streamed?
  {
    if n == 0 then [] else Rounds(n - 1, gateway, tools) + Round(gateway(n - 1), n - 1, tools)
  }

  /** A turn of `n` answered gateway calls: all but the last asked for tools, and
      it succeeded iff the last asked for none or the step limit was reached. */
  predicate TurnOf(n: nat, hasKey: bool, gateway: Gateway, ok: bool) {
    && n <= MAX_STEPS
    && (!hasKey ==> n == 0 && !ok)
    && (forall i :: 0 <= i < n ==> gateway(i).Streamed?)
    && (forall i :: 0 <= i < n - 1 ==> gateway(i).calls != [])
    && (if ok then n > 0 && (gateway(n - 1).calls == [] || n == MAX_STEPS)
        else hasKey ==> n < MAX_STEPS && !gateway(n).Streamed? && (n > 0 ==> gateway(n - 1).calls != []))
  }

  /** A streamed answer without text and calls adds nothing; any other adds one
      assistant message with the joined text and the calls, then for each call, in
      order, the result of executing that call. */
  lemma RoundSays(reply: Reply, step: nat, tools: Tools)
    requires reply.Streamed?
    ensures var r := Round(reply, step, tools);
            if reply.texts == [] && reply.calls == [] then r == []
            else && |r| == 1 + |reply.calls| && r[0].Assistant? && r[0].calls == reply.calls
                 && r[0].text == (if reply.texts == [] then None else Some(Join(reply.texts)))
                 && forall j :: 0 <= j < |reply.calls| ==> r[1..][j] == Tool(reply.calls[j].id, tools(step, j))
  {
    if reply.texts != [] || reply.calls != [] {
      var text := if reply.texts == [] then None else Some(Join(reply.texts));
      HeadAndResults(Assistant(text, reply.calls), reply.calls, step, tools);
    }
  }

  lemma HeadAndResults(head: Msg, calls: seq<Call>, step: nat, tools: Tools)
    ensures var r := [head] + ToolMessages(calls, step, tools);
            && |r| == 1 + |calls| && r[0] == head
            && forall j :: 0 <= j < |calls| ==> r[1..][j] == Tool(calls[j].id, tools(step, j))
  {
    assert ([head] + ToolMessages(calls, step, tools))[1..] == ToolMessages(calls, step, tools);
  }

  /** Joining keeps every piece, in order, and adds nothing. */
  lemma {:induction false} JoinIs(a: seq<string>, x: string, b: seq<string>)
    ensures Join([]) == "" && Join([x]) == x && Join(a + b) == Join(a) + Join(b)
    decreases |a|
  {
    if a == [] {
      assert a + b == b;
    } else {
      JoinIs(a[1..], x, b);
      assert (a + b)[1..] == a[1..] + b;
      Regroup(a[0], Join(a[1..]), Join(b));
    }
    assert x + "" == x;
  }

  lemma RoundIsPaired(reply: Reply, step: nat, tools: Tools)
    requires reply.Streamed?
    ensures WellPaired(Round(reply, step, tools))
  {
    var r := Round(reply, step, tools);
    if r != [] {
      assert r[1..1 + |reply.calls|] == ToolMessages(reply.calls, step, tools);
      assert r[1 + |reply.calls|..] == [];
    }
  }

  lemma {:induction false} RoundsArePaired(n: nat, gateway: Gateway, tools: Tools)
    requires forall i :: 0 <= i < n ==> gateway(i).Streamed?
    ensures WellPaired(Rounds(n, gateway, tools))
    decreases n
  {
    if n > 0 {
      RoundsArePaired(n - 1, gateway, tools);
      RoundIsPaired(gateway(n - 1), n - 1, tools);
      PairedAppend(Rounds(n - 1, gateway, tools), Round(gateway(n - 1), n - 1, tools));
    }
  }

  /** One step after a streamed answer: append the text, merge or append the tool
      calls, then one tool message per call. */
  method RunStep(log: seq<Msg>, reply: Reply, step: nat, tools: Tools) returns (log': seq<Msg>)
    requires reply.Streamed?
    ensures log' == log + Round(reply, step, tools)
  {
    var calls := reply.calls;
    log' := log;
    if reply.texts != [] {
      log' := log' + [Assistant(Some(Join(reply.texts)), [])];
    }
    if calls == [] {
      return;
    }
    if reply.texts == [] {
      log' := log' + [Assistant(None, calls)];
    } else {
      var last := |log'| - 1;
      if log'[last].Assistant? && log'[last].calls == [] {
        log' := log'[last := log'[last].(calls := calls)];
      } else {
        log' := log' + [Assistant(None, calls)];
      }
    }
    ghost var start := log';
    for j := 0 to |calls|
      invariant log' == start + ToolMessages(calls, step, tools)[..j]
    {
      log' := log' + [Tool(calls[j].id, tools(step, j))];
    }
  }

  /** `n` answers so far; `done` after one without tool calls, not `ok` after a
      gateway call without an answer. */
  predicate SoFar(n: nat, gateway: Gateway, ok: bool, done: bool) {
    && n <= MAX_STEPS
    && (forall i :: 0 <= i < n ==> gateway(i).Streamed?)
    && (forall i :: 0 <= i < n - 1 ==> gateway(i).calls != [])
    && (if done then ok && n > 0 && gateway(n - 1).calls == [] else n > 0 ==> gateway(n - 1).calls != [])
    && (!ok ==> n < MAX_STEPS && !gateway(n).Streamed?)
  }

  lemma SoFarAdvances(n: nat, gateway: Gateway)
    requires SoFar(n, gateway, true, false) && n < MAX_STEPS
    ensures if gateway(n).Streamed? then SoFar(n + 1, gateway, true, gateway(n).calls == [])
            else SoFar(n, gateway, false, false)
  {
  }

  lemma OneMoreRound(log: seq<Msg>, n: nat, gateway: Gateway, tools: Tools)
    requires forall i :: 0 <= i <= n ==> gateway(i).Streamed?
    ensures log + Rounds(n, gateway, tools) + Round(gateway(n), n, tools) == log + Rounds(n + 1, gateway, tools)
  {
    Regroup(log, Rounds(n, gateway, tools), Round(gateway(n), n, tools));
  }

  lemma SoFarEnds(n: nat, gateway: Gateway, ok: bool, done: bool)
    requires SoFar(n, gateway, ok, done) && (n == MAX_STEPS || !ok || done)
    ensures TurnOf(n, true, gateway, ok)
  {
  }

  /** The step loop of a turn. At the head of every step the log is the initial
      log and whole rounds. */
  method RunSteps(log: seq<Msg>, gateway: Gateway, tools: Tools) returns (log': seq<Msg>, ok: bool, rounds: nat)
    ensures TurnOf(rounds, true, gateway, ok)
    ensures log' == log + Rounds(rounds, gateway, tools)
  {
    log', rounds, ok := log, 0, true;
    var done := false;
    while rounds < MAX_STEPS && ok && !done
      invariant SoFar(rounds, gateway, ok, done)
      invariant log' == log + Rounds(rounds, gateway, tools)
      decreases MAX_STEPS - rounds, ok
    {
      SoFarAdvances(rounds, gateway);
      var reply := gateway(rounds);
      if reply.Streamed? {
        log' := RunStep(log', reply, rounds, tools);
        OneMoreRound(log, rounds, gateway, tools);
        rounds := rounds + 1;
        done := reply.calls == [];
      } else {
        ok := false;
      }
    }
    SoFarEnds(rounds, gateway, ok, done);
  }

  /** run_chat_turn. The log only grows, by whole rounds; so a well-paired log is
      well paired at the head of every step and at every return. */
  method RunChatTurn(log: seq<Msg>, hasKey: bool, gateway: Gateway, tools: Tools)
    returns (log': seq<Msg>, ok: bool, rounds: nat)
    ensures TurnOf(rounds, hasKey, gateway, ok)
    ensures log' == log + Rounds(rounds, gateway, tools)
    ensures rounds <= 50 && (rounds == 50 ==> ok)
    ensures WellPaired(log) ==> WellPaired(log')
  {
    if !hasKey {
      return log, false, 0;
    }
    log', ok, rounds := RunSteps(log, gateway, tools);
    RoundsArePaired(rounds, gateway, tools);
    if WellPaired(log) { PairedAppend(log, Rounds(rounds, gateway, tools)); }
  }

  // ----- compaction -------------------------------------------------------

  function Max(a: nat, b: nat): nat { if a < b then b else a }

  /** find_safe_split: the last user message that leaves at least `keep` recent ones. */
  method FindSafeSplit(log: seq<Msg>, keep: nat) returns (split: nat)
    requires keep > 0
    ensures |log| <= keep + 1 ==> split == 1
    ensures |log| > keep + 1 ==> 1 <= split <= |log| - keep
    ensures |log| > keep + 1 && (exists i :: 1 <= i <= |log| - keep && log[i].User?) ==>
              log[split].User? && forall i :: split < i <= |log| - keep ==> !log[i].User?
    ensures |log| > keep + 1 && (forall i :: 1 <= i <= |log| - keep ==> !log[i].User?) ==> split == |log| - keep
  {
    if |log| <= keep + 1 {
      return 1;
    }
    var desired := |log| - keep;
    var i := desired;
    while i >= 1
      invariant 0 <= i <= desired
      invariant forall j :: i < j <= desired ==> !log[j].User?
    {
      if log[i].User? {
        return i;
      }
      i := i - 1;
    }
    return Max(desired, 1);
  }

  function Compacted(log: seq<Msg>, split: nat, summary: string): seq<Msg>
    requires 1 <= split <= |log|
  {
    [log[0], System("[Conversation summary]\n" + summary)] + log[split..]
  }

  /** Compacting a well-paired log keeps it well paired exactly when the kept part
      does not start on a tool message. */
  lemma CompactionIsSafeIff(log: seq<Msg>, split: nat, summary: string)
    requires WellPaired(log) && 1 <= split <= |log| && log[0].System?
    ensures WellPaired(Compacted(log, split, summary)) <==> (split < |log| ==> !log[split].Tool?)
  {
    TwoSystemsFirst(log[0], System("[Conversation summary]\n" + summary), log[split..]);
    if split < |log| && !log[split].Tool? { PairedSuffix(log, split); }
  }

  /** The fallback of find_safe_split can cut inside a tool exchange: a well-paired
      log without a user message whose fallback split lands on a tool message. */
  lemma FallbackCutsToolExchange(summary: string) returns (log: seq<Msg>)
    ensures WellPaired(log) && |log| > KEEP_RECENT_MESSAGES + 1 && log[0].System?
    ensures forall i :: 0 <= i < |log| ==> !log[i].User?
    ensures log[|log| - KEEP_RECENT_MESSAGES].Tool?
    ensures !WellPaired(Compacted(log, |log| - KEEP_RECENT_MESSAGES, summary))
  {
    var calls := seq(7, _ => Call("", "", ""));
    var round := Round(Streamed([], calls), 0, (_, _) => "");
    RoundIsPaired(Streamed([], calls), 0, (_, _) => "");
    SystemFirst(System(""), round);
    log := [System("")] + round;
    CompactionIsSafeIff(log, |log| - KEEP_RECENT_MESSAGES, summary);
  }

  lemma TwoSystemsFirst(a: Msg, b: Msg, rest: seq<Msg>)
    requires a.System? && b.System?
    ensures WellPaired([a, b] + rest) <==> WellPaired(rest)
  {
    assert [a, b] + rest == [a] + ([b] + rest);
    SystemFirst(a, [b] + rest);
    SystemFirst(b, rest);
  }

  lemma SystemFirst(m: Msg, rest: seq<Msg>)
    requires m.System?
    ensures WellPaired([m] + rest) <==> WellPaired(rest)
  {
    assert ([m] + rest)[1..] == rest;
  }

  // ----- the session ------------------------------------------------------

  /** A log of an interactive session: the system prompt, perhaps one summary,
      then a conversation that a user message opens. */
  predicate SessionLog(log: seq<Msg>, prompt: string) {
    && log != [] && log[0] == System(prompt)
    && WellPaired(log)
    && (|log| > 1 ==> log[1].User? || (log[1].System? && |log| > 2 && log[2].User?))
  }

  /** One line typed at the prompt, and what the outside world does with it: the
      summary it would make of old messages, whether there is an API key, the
      gateway's answers and the tools' results. */
  datatype Exchange = Exchange(
    line: string, summarize: seq<Msg> -> Option<string>, hasKey: bool, gateway: Gateway, tools: Tools)

  lemma SessionGrows(log: seq<Msg>, prompt: string, more: seq<Msg>)
    requires SessionLog(log, prompt) && |log| > 1 && WellPaired(log + more)
    ensures SessionLog(log + more, prompt)
  {
  }

  /** The last user message that leaves at least six messages from it on. */
  predicate IsSafeSplit(log: seq<Msg>, split: nat) {
    && 1 <= split <= |log| - 6
    && log[split].User? && forall i :: split < i <= |log| - 6 ==> !log[i].User?
  }

  predicate NeedsCompaction(log: seq<Msg>, estimate: seq<Msg> -> nat) {
    estimate(log) > 200_000 && |log| > 8
  }

  /** `log'` is `log` with the user's message, compacted if it is too long and the part
      before the split can be summarized. */
  ghost predicate Prepared(log: seq<Msg>, e: Exchange, estimate: seq<Msg> -> nat, log': seq<Msg>) {
    var asked := log + [User(Trim(e.line))];
    if !NeedsCompaction(asked, estimate) then log' == asked
    else exists split: nat ::
           && IsSafeSplit(asked, split)
           && (match e.summarize(asked[1..split])
               case None => log' == asked
               case Some(summary) =>
                 log' == [asked[0], System("[Conversation summary]\n" + summary)] + asked[split..])
  }

  lemma SessionHasSplit(log: seq<Msg>, prompt: string, split: nat)
    requires SessionLog(log, prompt) && |log| > 8 && 1 <= split <= |log| - 6
    requires (exists i :: 1 <= i <= |log| - 6 && log[i].User?) ==>
               log[split].User? && forall i :: split < i <= |log| - 6 ==> !log[i].User?
    ensures IsSafeSplit(log, split)
  {
    assert log[1].User? || log[2].User?;
  }

  lemma CompactedSession(log: seq<Msg>, prompt: string, split: nat, summary: string)
    requires SessionLog(log, prompt) && IsSafeSplit(log, split)
    ensures SessionLog(Compacted(log, split, summary), prompt) && |Compacted(log, split, summary)| > 1
  {
    CompactionIsSafeIff(log, split, summary);
    assert Compacted(log, split, summary)[2] == log[split];
  }

  lemma AskedSession(log: seq<Msg>, prompt: string, input: string)
    requires SessionLog(log, prompt)
    ensures SessionLog(log + [User(input)], prompt)
  {
    var asked := [User(input)];
    assert asked[1..] == [];
    assert WellPaired(asked);
    PairedAppend(log, asked);
  }

  /** Push the user's message and compact if the log is too long. */
  method Prepare(log: seq<Msg>, e: Exchange, estimate: seq<Msg> -> nat, prompt: string) returns (log': seq<Msg>)
    requires SessionLog(log, prompt)
    ensures SessionLog(log', prompt) && |log'| > 1
    ensures Prepared(log, e, estimate, log')
  {
    var asked := log + [User(Trim(e.line))];
    AskedSession(log, prompt, Trim(e.line));
    log' := asked;
    if estimate(asked) > COMPACT_THRESHOLD_CHARS && |asked| > KEEP_RECENT_MESSAGES + 2 {
      var split := FindSafeSplit(asked, KEEP_RECENT_MESSAGES);
      SessionHasSplit(asked, prompt, split);
      var summary := e.summarize(asked[1..split]);
      if summary.Some? {
        CompactedSession(asked, prompt, split, summary.value);
        log' := [asked[0], System("[Conversation summary]\n" + summary.value)] + asked[split..];
      }
    }
  }

  predicate IsQuit(line: string) { line == "quit" || line == "exit" || line == "q" }

  /** The lines that are prompts: not blank, and before the first that quits. */
  function Prompts(exchanges: seq<Exchange>): seq<Exchange> {
    if exchanges == [] || IsQuit(Trim(exchanges[0].line)) then []
    else (if Trim(exchanges[0].line) == "" then [] else [exchanges[0]]) + Prompts(exchanges[1..])
  }

  /** One prompt: the log is prepared, then gains the rounds of one turn. */
  ghost predicate Exchanged(log: seq<Msg>, e: Exchange, estimate: seq<Msg> -> nat, log': seq<Msg>) {
    exists prepared: seq<Msg>, rounds: nat, ok: bool ::
      && Prepared(log, e, estimate, prepared) && TurnOf(rounds, e.hasKey, e.gateway, ok)
      && log' == prepared + Rounds(rounds, e.gateway, e.tools)
  }

  /** The logs of a session, one after each prompt. */
  ghost predicate SessionOf(prompt: string, prompts: seq<Exchange>, estimate: seq<Msg> -> nat, logs: seq<seq<Msg>>) {
    && |logs| == |prompts| + 1 && logs[0] == [System(prompt)]
    && (forall n :: 0 <= n < |prompts| ==> Exchanged(logs[n], prompts[n], estimate, logs[n + 1]))
    && (forall n :: 0 <= n < |logs| ==> SessionLog(logs[n], prompt))
  }

  lemma {:induction false} PromptsGrow(exchanges: seq<Exchange>, n: nat)
    requires n < |exchanges| && forall i :: 0 <= i <= n ==> !IsQuit(Trim(exchanges[i].line))
    ensures Prompts(exchanges[..n + 1])
         == Prompts(exchanges[..n]) + (if Trim(exchanges[n].line) == "" then [] else [exchanges[n]])
    decreases n
  {
    var more := if Trim(exchanges[n].line) == "" then [] else [exchanges[n]];
    if n == 0 {
      assert exchanges[..1][1..] == [] && exchanges[..0] == [];
    } else {
      PromptsGrow(exchanges[1..], n - 1);
      PrefixTail(exchanges, n + 1);
      PrefixTail(exchanges, n);
      var first := if Trim(exchanges[0].line) == "" then [] else [exchanges[0]];
      Regroup(first, Prompts(exchanges[1..][..n - 1]), more);
    }
  }

  lemma PrefixTail(exchanges: seq<Exchange>, n: nat)
    requires 0 < n <= |exchanges|
    ensures exchanges[..n][1..] == exchanges[1..][..n - 1]
  {
  }

  lemma {:induction false} PromptsStop(exchanges: seq<Exchange>, n: nat)
    requires n <= |exchanges| && (n < |exchanges| ==> IsQuit(Trim(exchanges[n].line)))
    requires forall i :: 0 <= i < n ==> !IsQuit(Trim(exchanges[i].line))
    ensures Prompts(exchanges) == Prompts(exchanges[..n])
    decreases n
  {
    if n == 0 {
      assert exchanges[..0] == [];
    } else {
      PromptsStop(exchanges[1..], n - 1);
      assert exchanges[..n][1..] == exchanges[1..][..n - 1];
    }
  }

  /** One prompt of the session. */
  method Converse(log: seq<Msg>, e: Exchange, estimate: seq<Msg> -> nat, prompt: string) returns (log': seq<Msg>)
    requires SessionLog(log, prompt)
    ensures SessionLog(log', prompt) && Exchanged(log, e, estimate, log')
  {
    var prepared := Prepare(log, e, estimate, prompt);
    var ok, rounds;
    log', ok, rounds := RunChatTurn(prepared, e.hasKey, e.gateway, e.tools);
    SessionGrows(prepared, prompt, Rounds(rounds, e.gateway, e.tools));
  }

  /** run_interactive. The log after each prompt is the log before it, prepared and
      extended by the rounds of that prompt's turn; after any conversation, however
      its turns end and however often the log is compacted, it still starts with the
      system prompt, is well paired, and a user message opens its conversation. The
      fallback of FindSafeSplit is never taken. */
  method RunInteractive(prompt: string, exchanges: seq<Exchange>, estimate: seq<Msg> -> nat)
    returns (log: seq<Msg>, logs: seq<seq<Msg>>)
    ensures SessionOf(prompt, Prompts(exchanges), estimate, logs) && log == logs[|logs| - 1]
  {
    log := [System(prompt)];
    logs := [log];
    assert WellPaired(log) by { assert log[1..] == []; }
    var n := 0;
    while n < |exchanges|
      invariant n <= |exchanges| && forall i :: 0 <= i < n ==> !IsQuit(Trim(exchanges[i].line))
      invariant SessionOf(prompt, Prompts(exchanges[..n]), estimate, logs) && log == logs[|logs| - 1]
    {
      var input := Trim(exchanges[n].line);
      if IsQuit(input) {
        PromptsStop(exchanges, n);
        return;
      }
      PromptsGrow(exchanges, n);
      if input != "" {
        var next := Converse(log, exchanges[n], estimate, prompt);
        OneMorePrompt(prompt, Prompts(exchanges[..n]), estimate, logs, exchanges[n], next);
        log, logs := next, logs + [next];
      }
      n := n + 1;
    }
    PromptsStop(exchanges, n);
  }

  lemma OneMorePrompt(
    prompt: string, prompts: seq<Exchange>, estimate: seq<Msg> -> nat, logs: seq<seq<Msg>>, e: Exchange, log: seq<Msg>)
    requires SessionOf(prompt, prompts, estimate, logs)
    requires Exchanged(logs[|logs| - 1], e, estimate, log) && SessionLog(log, prompt)
    ensures SessionOf(prompt, prompts + [e], estimate, logs + [log])
  {
    var all, more := logs + [log], prompts + [e];
    forall n | 0 <= n < |more| ensures Exchanged(all[n], more[n], estimate, all[n + 1]) {
      if n < |prompts| { assert Exchanged(logs[n], prompts[n], estimate, logs[n + 1]); }
    }
    forall n | 0 <= n < |all| ensures SessionLog(all[n], prompt) {
      if n < |logs| { assert SessionLog(logs[n], prompt); }
    }
  }
}
