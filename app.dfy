/** The dashboard's bookkeeping (App.tsx): the scheduled tasks and the tick
    that fires them, the action log, the chat transcript with the history it
    hands to the model, the classification of errors for the user, the retry
    button and the dispatch of the model's tool calls to the server. The
    clock, the chat service and the tools are parameters. */
module App {
  import opened Common
  import opened Protocol
  import opened Agent

  datatype Sender = User | Ai | System

  /** A chat line; tool lines carry the tool's name. */
  datatype Message = Message(sender: Sender, text: string, isToolOutput: bool, toolName: Option<string>)

  datatype Status = Pending | Success | Failure

  datatype LogEntry = LogEntry(id: string, timestamp: int, action: string, details: string, status: Status)

  /** A scheduled command: `time` is "HH:mm" on the 24-hour clock;
      `lastRun` is the millisecond time it last fired, if ever. */
  datatype Task = Task(id: string, time: string, command: string, active: bool, lastRun: Option<int>)

  // ---------------------------------------------------------------------
  // The clock face

  /** `n.toString().padStart(2, '0')` */
  function Pad2(n: nat): (r: string)
    ensures |r| >= 2
  {
    var s := NatString(n);
    if |s| < 2 then "0" + s else s
  }

  /** Below 100, the two characters are the tens and the units digit. */
  lemma Pad2Digits(n: nat)
    requires n < 100
    ensures Pad2(n) == [('0' as nat + n / 10) as char, ('0' as nat + n % 10) as char]
  {
    if n >= 10 {
      assert NatString(n / 10) == [('0' as nat + n / 10) as char];
    }
  }

  /** The local time as the scheduler compares it, `HH:mm`. */
  function CurrentTime(hour: nat, minute: nat): (r: string)
    requires hour < 24 && minute < 60
    ensures r == [('0' as nat + hour / 10) as char, ('0' as nat + hour % 10) as char, ':',
                  ('0' as nat + minute / 10) as char, ('0' as nat + minute % 10) as char]
  {
    Pad2Digits(hour);
    Pad2Digits(minute);
    Pad2(hour) + ":" + Pad2(minute)
  }

  /** Different minutes of the day show different clock faces. */
  lemma CurrentTimeInjective(h1: nat, m1: nat, h2: nat, m2: nat)
    requires h1 < 24 && m1 < 60 && h2 < 24 && m2 < 60
    requires CurrentTime(h1, m1) == CurrentTime(h2, m2)
    ensures h1 == h2 && m1 == m2
  {
    var a, b := CurrentTime(h1, m1), CurrentTime(h2, m2);
    assert a[0] == b[0] && a[1] == b[1] && a[3] == b[3] && a[4] == b[4];
  }

  // ---------------------------------------------------------------------
  // The scheduler

  /** Milliseconds a fired task waits before it may fire again. */
  const RefireGap: int := 60000

  /** A task fires on a tick when it is active, its time is the current
      `HH:mm`, and more than a minute has passed since its last run (never
      run counts as time 0). */
  predicate Fires(t: Task, nowMs: int, clock: string)
    // a task that never ran fires only once the clock is past 60000 ms
    ensures t.lastRun.None? ==> (Fires(t, nowMs, clock) <==> t.active && t.time == clock && nowMs > RefireGap)
  {
    t.active && t.time == clock && nowMs - t.lastRun.GetOr(0) > RefireGap
  }

  /** The message a fired task sends in the user's name. */
  function AutoCommand(clock: string, command: string): (r: string)
    ensures StartsWith(r, "[TAREA AUTOMÁTICA " + clock + "] ")
    ensures r[|"[TAREA AUTOMÁTICA " + clock + "] "|..] == command
  {
    "[TAREA AUTOMÁTICA " + clock + "] " + command
  }

  /** The messages a tick sends, one per firing task, in list order. */
  function FiredCommands(ts: seq<Task>, nowMs: int, clock: string): (r: seq<string>)
    ensures |r| <= |ts|
  {
    if ts == [] then []
    else
      var last := ts[|ts| - 1];
      var rest := FiredCommands(ts[..|ts| - 1], nowMs, clock);
      if Fires(last, nowMs, clock) then rest + [AutoCommand(clock, last.command)] else rest
  }

  /** The ids of the tasks that fire. */
  function FiredIds(ts: seq<Task>, nowMs: int, clock: string): (r: set<string>)
    // some id is stamped exactly when some command is sent
    ensures r == {} <==> FiredCommands(ts, nowMs, clock) == []
  {
    if ts == [] then {}
    else
      var last := ts[|ts| - 1];
      var rest := FiredIds(ts[..|ts| - 1], nowMs, clock);
      if Fires(last, nowMs, clock) then rest + {last.id} else rest
  }

  /** A tick sends exactly the commands of the firing tasks. */
  lemma {:induction false} FiredCommandsExactly(ts: seq<Task>, nowMs: int, clock: string)
    ensures forall c :: c in FiredCommands(ts, nowMs, clock) ==>
      exists t :: t in ts && Fires(t, nowMs, clock) && c == AutoCommand(clock, t.command)
    ensures forall t :: t in ts && Fires(t, nowMs, clock) ==> AutoCommand(clock, t.command) in FiredCommands(ts, nowMs, clock)
  {
    if ts != [] {
      var init := ts[..|ts| - 1];
      FiredCommandsExactly(init, nowMs, clock);
      assert forall t :: t in ts ==> t in init || t == ts[|ts| - 1];
      assert forall t :: t in init ==> t in ts;
    }
  }

  /** The ids stamped are exactly those of the firing tasks. */
  lemma {:induction false} FiredIdsExactly(ts: seq<Task>, nowMs: int, clock: string)
    ensures forall id :: id in FiredIds(ts, nowMs, clock) <==>
      exists t :: t in ts && Fires(t, nowMs, clock) && t.id == id
  {
    if ts != [] {
      var init := ts[..|ts| - 1];
      FiredIdsExactly(init, nowMs, clock);
      assert forall t :: t in ts ==> t in init || t == ts[|ts| - 1];
      assert forall t :: t in init ==> t in ts;
    }
  }

  /** One more task checked: its command and its id join if it fires. */
  lemma TickStep(ts: seq<Task>, i: nat, nowMs: int, clock: string)
    requires i < |ts|
    ensures FiredCommands(ts[..i + 1], nowMs, clock) ==
      FiredCommands(ts[..i], nowMs, clock) + (if Fires(ts[i], nowMs, clock) then [AutoCommand(clock, ts[i].command)] else [])
    ensures FiredIds(ts[..i + 1], nowMs, clock) ==
      FiredIds(ts[..i], nowMs, clock) + (if Fires(ts[i], nowMs, clock) then {ts[i].id} else {})
  {
    assert ts[..i + 1][..i] == ts[..i];
  }

  /** One task of a tick: the commands and the list after checking it. */
  lemma TickAdvance(ts: seq<Task>, i: nat, nowMs: int, clock: string)
    requires i < |ts|
    ensures FiredCommands(ts[..i + 1], nowMs, clock) ==
      FiredCommands(ts[..i], nowMs, clock) + (if Fires(ts[i], nowMs, clock) then [AutoCommand(clock, ts[i].command)] else [])
    ensures Restamp(ts, FiredIds(ts[..i + 1], nowMs, clock), nowMs) ==
      if Fires(ts[i], nowMs, clock)
      then StampId(Restamp(ts, FiredIds(ts[..i], nowMs, clock), nowMs), ts[i].id, nowMs)
      else Restamp(ts, FiredIds(ts[..i], nowMs, clock), nowMs)
  {
    TickStep(ts, i, nowMs, clock);
    if Fires(ts[i], nowMs, clock) {
      StampIdRestamp(ts, FiredIds(ts[..i], nowMs, clock), ts[i].id, nowMs);
    }
  }

  /** The setter a firing task runs: every task with that id gets `lastRun`
      set to now. */
  function StampId(ts: seq<Task>, id: string, nowMs: int): (r: seq<Task>)
    ensures |r| == |ts|
    ensures forall k :: 0 <= k < |ts| ==>
      r[k] == if ts[k].id == id then ts[k].(lastRun := Some(nowMs)) else ts[k]
  {
    seq(|ts|, k requires 0 <= k < |ts| => if ts[k].id == id then ts[k].(lastRun := Some(nowMs)) else ts[k])
  }

  /** The list after a whole tick: the tasks whose id fired carry now as
      their last run, and nothing else differs. */
  function Restamp(ts: seq<Task>, ids: set<string>, nowMs: int): (r: seq<Task>)
    ensures |r| == |ts|
    ensures forall k :: 0 <= k < |ts| ==>
      r[k] == if ts[k].id in ids then ts[k].(lastRun := Some(nowMs)) else ts[k]
  {
    seq(|ts|, k requires 0 <= k < |ts| => if ts[k].id in ids then ts[k].(lastRun := Some(nowMs)) else ts[k])
  }

  /** Restamping no id changes nothing. */
  lemma RestampNothing(ts: seq<Task>, nowMs: int)
    ensures Restamp(ts, {}, nowMs) == ts
  {
    var r := Restamp(ts, {}, nowMs);
    assert |r| == |ts|;
    forall k | 0 <= k < |ts| ensures r[k] == ts[k] {
    }
  }

  /** Stamping one more id is restamping with it added. */
  lemma StampIdRestamp(ts: seq<Task>, ids: set<string>, id: string, nowMs: int)
    ensures StampId(Restamp(ts, ids, nowMs), id, nowMs) == Restamp(ts, ids + {id}, nowMs)
  {
    var a, b := StampId(Restamp(ts, ids, nowMs), id, nowMs), Restamp(ts, ids + {id}, nowMs);
    assert |a| == |b|;
    forall k | 0 <= k < |a| ensures a[k] == b[k] {
    }
  }

  /** A tick changes nothing but the last run of the fired ids' tasks: same
      length, same ids, times, commands and active flags. */
  lemma TickOnlyStamps(ts: seq<Task>, nowMs: int, clock: string)
    ensures var r := Restamp(ts, FiredIds(ts, nowMs, clock), nowMs);
      |r| == |ts| &&
      forall k :: 0 <= k < |ts| ==>
        r[k].id == ts[k].id && r[k].time == ts[k].time && r[k].command == ts[k].command &&
        r[k].active == ts[k].active &&
        (r[k].lastRun != ts[k].lastRun ==> r[k].lastRun == Some(nowMs)) &&
        (Fires(ts[k], nowMs, clock) ==> r[k].lastRun == Some(nowMs))
  {
    var ids := FiredIds(ts, nowMs, clock);
    FiredIdsExactly(ts, nowMs, clock);
    forall k | 0 <= k < |ts| && Fires(ts[k], nowMs, clock) ensures ts[k].id in ids {
      assert ts[k] in ts;
    }
  }

  /** A task that fired does not fire again on any tick within the next
      minute, whatever the clock face says then. */
  lemma {:induction false} NoRefireWithinMinute(ts: seq<Task>, nowMs: int, clock: string,
                                                laterMs: int, laterClock: string)
    requires laterMs <= nowMs + RefireGap
    ensures var r := Restamp(ts, FiredIds(ts, nowMs, clock), nowMs);
      forall k :: 0 <= k < |ts| && Fires(ts[k], nowMs, clock) ==> !Fires(r[k], laterMs, laterClock)
  {
    TickOnlyStamps(ts, nowMs, clock);
  }

  // ---------------------------------------------------------------------
  // Task list, log and transcript transforms

  /** `handleDeleteTask`: every task with that id goes, the rest keep their order. */
  function RemoveTask(ts: seq<Task>, id: string): (r: seq<Task>)
    ensures IsSubsequence(r, ts)
    ensures forall t :: t in r <==> t in ts && t.id != id
    ensures forall t :: multiset(r)[t] == if t.id != id then multiset(ts)[t] else 0
  {
    if ts == [] then []
    else
      assert ts == [ts[0]] + ts[1..];
      if ts[0].id == id then RemoveTask(ts[1..], id)
      else [ts[0]] + RemoveTask(ts[1..], id)
  }

  /** `handleToggleTask`: the tasks with that id flip `active`; nothing else changes. */
  function Toggled(ts: seq<Task>, id: string): (r: seq<Task>)
    ensures |r| == |ts|
    ensures forall k :: 0 <= k < |ts| ==>
      r[k] == if ts[k].id == id then ts[k].(active := !ts[k].active) else ts[k]
  {
    seq(|ts|, k requires 0 <= k < |ts| => if ts[k].id == id then ts[k].(active := !ts[k].active) else ts[k])
  }

  /** Toggling twice restores the list. */
  lemma ToggleTwice(ts: seq<Task>, id: string)
    ensures Toggled(Toggled(ts, id), id) == ts
  {
    var r := Toggled(Toggled(ts, id), id);
    assert |r| == |ts|;
    forall k | 0 <= k < |ts| ensures r[k] == ts[k] {
    }
  }

  /** The log after adding `entries` one by one, each in front. */
  function LogAfter(logs: seq<LogEntry>, entries: seq<LogEntry>): (r: seq<LogEntry>)
    ensures |r| == |logs| + |entries|
    decreases |entries|
  {
    if entries == [] then logs else LogAfter([entries[0]] + logs, entries[1..])
  }

  function Reverse<T>(s: seq<T>): (r: seq<T>)
    ensures |r| == |s|
    ensures forall k :: 0 <= k < |s| ==> r[k] == s[|s| - 1 - k]
  {
    if s == [] then [] else Reverse(s[1..]) + [s[0]]
  }

  /** Newest first: the entries added appear latest-first ahead of the old
      log, which keeps its order. */
  lemma {:induction false} LogNewestFirst(logs: seq<LogEntry>, entries: seq<LogEntry>)
    ensures LogAfter(logs, entries) == Reverse(entries) + logs
    decreases |entries|
  {
    if entries != [] {
      LogNewestFirst([entries[0]] + logs, entries[1..]);
      assert Reverse(entries) == Reverse(entries[1..]) + [entries[0]];
    }
  }

  /** The history handed to the model: user and assistant lines whose text
      is not blank, in order, as `user` and `model` turns. */
  function HistoryForModel(ms: seq<Message>): (h: seq<Turn>)
    ensures |h| <= |ms|
    ensures forall k :: 0 <= k < |h| ==> (h[k].role == "user" || h[k].role == "model") && !IsBlank(h[k].text)
  {
    if ms == [] then []
    else
      var m := ms[0];
      var rest := HistoryForModel(ms[1..]);
      if IsBlank(m.text) || m.sender == System then rest
      else [Turn(if m.sender == User then "user" else "model", m.text)] + rest
  }

  /** The retry filter: every system line goes (errors and tool lines alike). */
  function DropSystem(ms: seq<Message>): (r: seq<Message>)
    ensures IsSubsequence(r, ms)
    ensures forall m :: m in r <==> m in ms && m.sender != System
    ensures forall m :: multiset(r)[m] == if m.sender != System then multiset(ms)[m] else 0
  {
    if ms == [] then []
    else
      assert ms == [ms[0]] + ms[1..];
      if ms[0].sender == System then DropSystem(ms[1..])
      else [ms[0]] + DropSystem(ms[1..])
  }

  /** Dropping system lines does not change what the model is shown. */
  lemma {:induction false} HistoryIgnoresSystemLines(ms: seq<Message>)
    ensures HistoryForModel(DropSystem(ms)) == HistoryForModel(ms)
  {
    if ms != [] {
      HistoryIgnoresSystemLines(ms[1..]);
      if ms[0].sender != System {
        assert ([ms[0]] + DropSystem(ms[1..]))[1..] == DropSystem(ms[1..]);
      }
    }
  }

  /** Appending one line to the transcript appends at most one turn: its
      own, when it is a non-blank user or assistant line. */
  lemma {:induction false} HistoryOfAppended(ms: seq<Message>, m: Message)
    ensures HistoryForModel(ms + [m]) ==
      HistoryForModel(ms) +
      (if IsBlank(m.text) || m.sender == System then []
       else [Turn(if m.sender == User then "user" else "model", m.text)])
  {
    if ms != [] {
      HistoryOfAppended(ms[1..], m);
      assert (ms + [m])[1..] == ms[1..] + [m];
    }
  }

  // ---------------------------------------------------------------------
  // Error copy

  const ProtocolCopy := "Error de Protocolo. Reintentando..."
  const NetworkCopy := "Error de Red: Verifique el servidor backend."
  const MissingKeyCopy := "Falta API Key."
  const UnknownCopy := "Error desconocido."

  /** `String(error)` for an `Error` carrying `message`. */
  function ErrorString(message: string): string {
    "Error: " + message
  }

  /** The copy shown for a failed send: "Protocolo" wins over "fetch",
      which wins over "API Key"; anything else is unknown. */
  function Classify(error: string): (copy: string)
    ensures copy == ProtocolCopy <==> Contains(error, "Protocolo")
    ensures copy == NetworkCopy <==> !Contains(error, "Protocolo") && Contains(error, "fetch")
    ensures copy == MissingKeyCopy <==>
      !Contains(error, "Protocolo") && !Contains(error, "fetch") && Contains(error, "API Key")
    ensures copy == UnknownCopy <==>
      !Contains(error, "Protocolo") && !Contains(error, "fetch") && !Contains(error, "API Key")
  {
    if Contains(error, "Protocolo") then ProtocolCopy
    else if Contains(error, "fetch") then NetworkCopy
    else if Contains(error, "API Key") then MissingKeyCopy
    else UnknownCopy
  }

  /** Whatever else an error says, mentioning "Protocolo" selects the protocol copy. */
  lemma ProtocolWins(before: string, after: string)
    ensures Classify(before + "Protocolo" + after) == ProtocolCopy
  {
    ContainsInfix(before, "Protocolo", after);
  }

  /** A failed send of tool results reaches the user as the protocol copy. */
  lemma ProtocolFailureCopy()
    ensures Classify(ErrorString(ProtocolErrorMessage)) == ProtocolCopy
  {
    var before, after := "Error: Error de ", " IA (Tool Response).";
    assert ErrorString(ProtocolErrorMessage) == before + "Protocolo" + after;
    ProtocolWins(before, after);
  }

  /** The line the transcript gets when the model loop fails. */
  function ErrorLine(message: string): (m: Message)
    ensures m.sender == System && !m.isToolOutput
    ensures StartsWith(m.text, "\U{26A0}\U{FE0F} ")
    ensures m.text[|"\U{26A0}\U{FE0F} "|..] == Classify(ErrorString(message))
  {
    Message(System, "\U{26A0}\U{FE0F} " + Classify(ErrorString(message)), false, None)
  }

  /** The line the transcript gets when the loop ends: the answer, or the error copy. */
  function ClosingLine(outcome: Result<string, string>): (m: Message)
    ensures outcome.Ok? ==> m == Message(Ai, outcome.value, false, None)
    ensures outcome.Err? ==> m == ErrorLine(outcome.error)
  {
    match outcome
    case Ok(text) => Message(Ai, text, false, None)
    case Err(message) => ErrorLine(message)
  }

  // ---------------------------------------------------------------------
  // Tool dispatch

  /** What answering one tool call amounts to: a request to the server, or
      a text produced on the spot. */
  datatype Handler =
    | NavigateRequest(url: Option<string>)
    | ActionRequest(kind: string, selector: Option<string>, value: Option<string>)
    | DownloadsRequest
    | Answer(text: string)

  const ToolNotFound := "Herramienta no encontrada"
  const MemoryPrefix := "Contenido de texto actual (memoria): "
  /** Characters of the remembered page text an `extract` call returns. */
  const MemoryBudget: nat := 500

  /** `args.url || args.selector || ''` */
  function ToolTarget(args: ToolArgs): (r: string)
    ensures Given(args.url) ==> r == args.url.value
    ensures !Given(args.url) && Given(args.selector) ==> r == args.selector.value
    ensures !Given(args.url) && !Given(args.selector) ==> r == ""
  {
    if Given(args.url) then args.url.value
    else if Given(args.selector) then args.selector.value
    else ""
  }

  /** The system line announcing a tool call. */
  function ToolLine(call: FunctionCall): (m: Message)
    ensures m.sender == System && m.isToolOutput && m.toolName == Some(call.name)
    ensures m.text == "Ejecutando: " + call.name + " " + ToolTarget(call.args)
  {
    Message(System, "Ejecutando: " + call.name + " " + ToolTarget(call.args), true, Some(call.name))
  }

  /** The names `onToolCall` handles: the declared tools and `extract`. */
  const HandledNames: seq<string> := ["navigate", "click", "type", "select", "wait", "check_downloads", "extract"]

  /** `onToolCall`'s switch over the tool name. */
  function Dispatch(name: string, args: ToolArgs, pageContent: string): (h: Handler)
    ensures h == Answer(ToolNotFound) <==> name !in HandledNames
    ensures name == "navigate" ==> h == NavigateRequest(args.url)
    // a click sends no value
    ensures name == "click" ==> h == ActionRequest("click", args.selector, None)
    // the text to type travels as the server's `value`
    ensures name == "type" ==> h == ActionRequest("type", args.selector, args.text)
    ensures name == "select" ==> h == ActionRequest("select", args.selector, args.value)
    // a wait sends an empty selector and the duration as its value
    ensures name == "wait" ==> h == ActionRequest("wait", Some(""), args.duration)
    ensures name == "check_downloads" ==> h == DownloadsRequest
    // extract answers at once from the remembered page text
    ensures name == "extract" ==>
      h == Answer(MemoryPrefix + Take(pageContent, MemoryBudget) + "...") &&
      |h.text| <= |MemoryPrefix| + MemoryBudget + 3 &&
      (|pageContent| <= MemoryBudget ==> h.text == MemoryPrefix + pageContent + "...")
  {
    match name
    case "navigate" => NavigateRequest(args.url)
    case "click" => ActionRequest("click", args.selector, None)
    case "type" => ActionRequest("type", args.selector, args.text)
    case "select" => ActionRequest("select", args.selector, args.value)
    case "wait" => ActionRequest("wait", Some(""), args.duration)
    case "check_downloads" => DownloadsRequest
    case "extract" => Answer(MemoryPrefix + Take(pageContent, MemoryBudget) + "...")
    case _ => Answer(ToolNotFound)
  }

  /** Every tool the model is told about has a handler. */
  lemma DeclaredToolsAreHandled(args: ToolArgs, pageContent: string)
    ensures forall i :: 0 <= i < |DeclaredTools| ==>
      Dispatch(DeclaredTools[i].name, args, pageContent) != Answer(ToolNotFound)
  {
    DeclaredToolsWellFormed();
    assert forall i :: 0 <= i < |DeclaredTools| ==> DeclaredTools[i].name in HandledNames;
  }

  /** A `wait` call reaches the server as a wait of the duration the model
      gave, or of 2000 ms when that is not a non-zero number. */
  lemma WaitCallPlansWait(args: ToolArgs, pageContent: string)
    ensures var h := Dispatch("wait", args, pageContent);
      h.ActionRequest? && PlanAction(h.kind, h.selector, h.value) == Ok(Wait(WaitMillis(args.duration)))
  {
  }

  /** A `type` call with a selector and a text reaches the server as typing
      that text, pressing Enter when it holds backslash-n or `Enter`; without
      either it is refused with the type message. */
  lemma TypeCallPlansType(args: ToolArgs, pageContent: string)
    ensures var h := Dispatch("type", args, pageContent);
      h.ActionRequest? &&
      (Given(args.selector) && args.text.Some? ==>
         PlanAction(h.kind, h.selector, h.value) ==
           Ok(Type(args.selector.value, args.text.value, PressesEnter(args.text.value)))) &&
      (!Given(args.selector) || args.text.None? ==>
         PlanAction(h.kind, h.selector, h.value) == Err(TypeNeedsSelectorAndText))
  {
  }

  /** A `click` call without a selector is refused by the server with its
      message; one with a selector is a click on it. */
  lemma ClickCallPlansClick(args: ToolArgs, pageContent: string)
    ensures var h := Dispatch("click", args, pageContent);
      h.ActionRequest? &&
      (!Given(args.selector) ==> PlanAction(h.kind, h.selector, h.value) == Err(ClickNeedsSelector)) &&
      (Given(args.selector) ==> PlanAction(h.kind, h.selector, h.value) == Ok(Click(args.selector.value)))
  {
  }

  // ---------------------------------------------------------------------
  // The calls a conversation makes

  /** The calls of the first `n` replies, in order. */
  function CallsOf(replies: seq<Reply>, n: nat): (r: seq<FunctionCall>)
    ensures n == 0 ==> r == []
    ensures 0 < n && replies != [] ==> r == replies[0].calls + CallsOf(replies[1..], n - 1)
  {
    if n == 0 || replies == [] then [] else replies[0].calls + CallsOf(replies[1..], n - 1)
  }

  /** The calls a conversation ran: those of every reply a batch answered. */
  function CallsMade(c: Conversation): seq<FunctionCall> {
    CallsOf(c.replies, |c.batches|)
  }

  /** One announcement line per call, in call order. */
  function ToolLines(calls: seq<FunctionCall>): (r: seq<Message>)
    ensures |r| == |calls|
    ensures forall k :: 0 <= k < |calls| ==> r[k] == ToolLine(calls[k])
  {
    seq(|calls|, k requires 0 <= k < |calls| => ToolLine(calls[k]))
  }

  /** Sum of the sizes of the batches. */
  function ResponsesSent(batches: seq<seq<FunctionResponse>>): nat {
    if batches == [] then 0 else |batches[0]| + ResponsesSent(batches[1..])
  }

  /** Batches as long as the replies they answer hold as many results as
      those replies hold calls. */
  lemma {:induction false} CallsCountResponses(replies: seq<Reply>, batches: seq<seq<FunctionResponse>>)
    requires |batches| <= |replies|
    requires forall i :: 0 <= i < |batches| ==> |batches[i]| == |replies[i].calls|
    ensures |CallsOf(replies, |batches|)| == ResponsesSent(batches)
    decreases batches
  {
    if batches != [] {
      assert |batches[0]| == |replies[0].calls|;
      forall i | 0 <= i < |batches[1..]| ensures |batches[1..][i]| == |replies[1..][i].calls| {
        assert batches[1..][i] == batches[i + 1] && replies[1..][i] == replies[i + 1];
      }
      CallsCountResponses(replies[1..], batches[1..]);
    }
  }

  /** The transcript gets exactly one announcement per result sent back to
      the model. */
  lemma OneLinePerResponse(hasKey: bool, history: seq<Turn>, userText: string,
                           chat: (nat, Outgoing) -> SendResult,
                           tool: (nat, nat, FunctionCall) -> ToolOutcome)
    ensures var c := Converse(hasKey, history, userText, chat, tool);
      |ToolLines(CallsMade(c))| == ResponsesSent(c.batches)
  {
    var c := Converse(hasKey, history, userText, chat, tool);
    ConversationAnswers(hasKey, history, userText, chat, tool);
    CallsCountResponses(c.replies, c.batches);
  }

  // ---------------------------------------------------------------------
  // The log lines of the request handlers

  /** The server's answer to one request as the dashboard sees it: none when
      the fetch or the JSON parse throws, otherwise whether the HTTP status
      was `ok`, and the body's `title`. */
  datatype ServerReply = NoJson | JsonReply(ok: bool, title: string)

  /** A log entry before it gets its random id and its time. */
  datatype LogLine = LogLine(action: string, details: string, status: Status)

  /** A field as a template literal prints it: a missing one is `undefined`. */
  function Printed(field: Option<string>): (r: string)
    ensures field.Some? ==> r == field.value
    ensures field.None? ==> r == "undefined"
  {
    if field.Some? then field.value else "undefined"
  }

  /** `selector || value || ''` */
  function ActionTarget(selector: Option<string>, value: Option<string>): (r: string)
    ensures Given(selector) ==> r == selector.value
    ensures !Given(selector) && Given(value) ==> r == value.value
    ensures !Given(selector) && !Given(value) ==> r == ""
  {
    if Given(selector) then selector.value else if Given(value) then value.value else ""
  }

  /** The lines one handler adds, oldest first. `handleNavigate` and
      `handleAction` log a pending line naming their target and then the
      outcome; the downloads check and the answers given on the spot log
      nothing. */
  function HandlerLog(h: Handler, reply: ServerReply): (r: seq<LogLine>)
    ensures |r| == (if h.NavigateRequest? || h.ActionRequest? then 2 else 0)
    ensures |r| == 2 ==> r[0].status == Pending && r[1].status != Pending && r[1].action == r[0].action
  {
    match h
    case NavigateRequest(url) =>
      [LogLine("navigate", Printed(url), Pending),
       if reply.JsonReply? && reply.ok then LogLine("navigate", "Navegado a: " + reply.title, Success)
       else LogLine("navigate", "Fallo: " + Printed(url), Failure)]
    case ActionRequest(kind, selector, value) =>
      [LogLine(kind, ActionTarget(selector, value), Pending),
       if reply.JsonReply? then LogLine(kind, "Acción completada", Success)
       else LogLine(kind, "Error", Failure)]
    case DownloadsRequest => []
    case Answer(_) => []
  }

  /** A navigation is logged as done exactly when the server answers with
      an `ok` status, and the line then names the page's title; otherwise
      the line names the address. */
  lemma NavigationLogged(url: Option<string>, reply: ServerReply)
    ensures var r := HandlerLog(NavigateRequest(url), reply);
      r[0] == LogLine("navigate", Printed(url), Pending) &&
      (r[1].status == Success <==> reply.JsonReply? && reply.ok) &&
      (r[1].status == Success ==> r[1].details == "Navegado a: " + reply.title) &&
      (r[1].status != Success ==> r[1] == LogLine("navigate", "Fallo: " + Printed(url), Failure))
  {
  }

  /** `handleAction` never looks at the HTTP status: an action the server
      refuses with a JSON error answer is still logged as completed. Only a
      request that gets no JSON answer is logged as an error. */
  lemma RefusedActionLoggedAsDone(kind: string, selector: Option<string>, value: Option<string>, title: string)
    ensures HandlerLog(ActionRequest(kind, selector, value), JsonReply(false, title))[1] ==
      LogLine(kind, "Acción completada", Success)
    ensures HandlerLog(ActionRequest(kind, selector, value), NoJson)[1] == LogLine(kind, "Error", Failure)
  {
  }

  /** The lines the handlers of `calls` add, oldest first; the request of
      call `k` of the send is answered by `server(k)`, this list starting at
      call `from`. */
  function CallsLog(calls: seq<FunctionCall>, pageContent: string, server: nat -> ServerReply, from: nat): seq<LogLine>
    decreases |calls|
  {
    if calls == [] then []
    else HandlerLog(Dispatch(calls[0].name, calls[0].args, pageContent), server(from)) +
         CallsLog(calls[1..], pageContent, server, from + 1)
  }

  /** The tools answered by a request to `/navigate` or `/action`. */
  const RequestNames: seq<string> := ["navigate", "click", "type", "select", "wait"]

  /** How many of `calls` name one of those tools. */
  function RequestCount(calls: seq<FunctionCall>): nat {
    if calls == [] then 0
    else (if calls[0].name in RequestNames then 1 else 0) + RequestCount(calls[1..])
  }

  /** Every navigate, click, type, select or wait call adds exactly two log
      lines, and every other call none. */
  lemma {:induction false} TwoLinesPerRequest(calls: seq<FunctionCall>, pageContent: string,
                                              server: nat -> ServerReply, from: nat)
    ensures |CallsLog(calls, pageContent, server, from)| == 2 * RequestCount(calls)
    decreases |calls|
  {
    if calls != [] {
      var h := Dispatch(calls[0].name, calls[0].args, pageContent);
      assert h.NavigateRequest? || h.ActionRequest? <==> calls[0].name in RequestNames;
      TwoLinesPerRequest(calls[1..], pageContent, server, from + 1);
    }
  }

  /** Pending lines at the even positions and only there. */
  predicate Alternates(lines: seq<LogLine>) {
    forall j :: 0 <= j < |lines| ==> (lines[j].status == Pending <==> j % 2 == 0)
  }

  /** Alternating runs of even length join into one. */
  lemma AlternatesAppend(a: seq<LogLine>, b: seq<LogLine>)
    requires Alternates(a) && Alternates(b) && |a| % 2 == 0
    ensures Alternates(a + b)
  {
    forall j | 0 <= j < |a + b| ensures ((a + b)[j].status == Pending <==> j % 2 == 0) {
      if j >= |a| {
        assert (a + b)[j] == b[j - |a|];
      }
    }
  }

  /** A single handler's lines alternate. */
  lemma HandlerLogAlternates(h: Handler, reply: ServerReply)
    ensures Alternates(HandlerLog(h, reply))
  {
    var r := HandlerLog(h, reply);
    assert |r| == 0 || (r[0].status == Pending && r[1].status != Pending);
  }

  /** The lines alternate: each request's pending line is followed by its
      outcome. */
  lemma {:induction false} PendingThenOutcome(calls: seq<FunctionCall>, pageContent: string,
                                              server: nat -> ServerReply, from: nat)
    ensures Alternates(CallsLog(calls, pageContent, server, from))
    decreases |calls|
  {
    if calls != [] {
      var head := HandlerLog(Dispatch(calls[0].name, calls[0].args, pageContent), server(from));
      PendingThenOutcome(calls[1..], pageContent, server, from + 1);
      HandlerLogAlternates(Dispatch(calls[0].name, calls[0].args, pageContent), server(from));
      AlternatesAppend(head, CallsLog(calls[1..], pageContent, server, from + 1));
    }
  }

  /** The entries of `lines`, the j-th with the j-th id and time drawn. */
  function Stamped(lines: seq<LogLine>, stamp: nat -> (string, int)): (r: seq<LogEntry>)
    ensures |r| == |lines|
    ensures forall j :: 0 <= j < |lines| ==>
      r[j] == LogEntry(stamp(j).0, stamp(j).1, lines[j].action, lines[j].details, lines[j].status)
  {
    seq(|lines|, j requires 0 <= j < |lines| =>
      LogEntry(stamp(j).0, stamp(j).1, lines[j].action, lines[j].details, lines[j].status))
  }

  // ---------------------------------------------------------------------
  // The dashboard state

  /** The state the handlers change: the scheduled tasks, the log (newest
      first), the transcript and the last text the user sent. */
  class Console {
    var tasks: seq<Task>
    var logs: seq<LogEntry>
    var messages: seq<Message>
    var lastInput: string

    constructor()
      ensures tasks == [] && logs == [] && messages == [] && lastInput == ""
    {
      tasks := [];
      logs := [];
      messages := [];
      lastInput := "";
    }

    /** `handleAddTask`: appended at the end. */
    method AddTask(t: Task)
      modifies this
      ensures tasks == old(tasks) + [t]
      ensures logs == old(logs) && messages == old(messages) && lastInput == old(lastInput)
    {
      tasks := tasks + [t];
    }

    /** `handleDeleteTask` */
    method DeleteTask(id: string)
      modifies this
      ensures tasks == RemoveTask(old(tasks), id)
      ensures logs == old(logs) && messages == old(messages) && lastInput == old(lastInput)
    {
      tasks := RemoveTask(tasks, id);
    }

    /** `handleToggleTask` */
    method ToggleTask(id: string)
      modifies this
      ensures tasks == Toggled(old(tasks), id)
      ensures logs == old(logs) && messages == old(messages) && lastInput == old(lastInput)
    {
      tasks := Toggled(tasks, id);
    }

    /** `addLog`: the new entry goes in front. */
    method AddLog(id: string, timestamp: int, action: string, details: string, status: Status)
      modifies this
      ensures logs == [LogEntry(id, timestamp, action, details, status)] + old(logs)
      ensures tasks == old(tasks) && messages == old(messages) && lastInput == old(lastInput)
    {
      logs := [LogEntry(id, timestamp, action, details, status)] + logs;
    }

    /** `onToolCall`: the announcement line first, then the handler the name selects. */
    method ToolCall(call: FunctionCall, pageContent: string) returns (h: Handler)
      modifies this
      ensures messages == old(messages) + [ToolLine(call)]
      ensures h == Dispatch(call.name, call.args, pageContent)
      ensures tasks == old(tasks) && logs == old(logs) && lastInput == old(lastInput)
    {
      messages := messages + [ToolLine(call)];
      h := Dispatch(call.name, call.args, pageContent);
    }

    /** `handleSendMessage`: the user's line, the model loop over the
        history as it stood before that line, one announcement per tool
        call, the log lines of the requests those calls make, and the
        closing line (answer or error copy). `onToolCall` reads the page text
        of the render the send started from, `pageContent`. */
    method SendMessage(text: string, hasKey: bool,
                       chat: (nat, Outgoing) -> SendResult,
                       tool: (nat, nat, FunctionCall) -> ToolOutcome,
                       pageContent: string, server: nat -> ServerReply, stamp: nat -> (string, int))
      returns (c: Conversation)
      modifies this
      ensures c == Converse(hasKey, HistoryForModel(old(messages)), text, chat, tool)
      ensures lastInput == text
      ensures messages ==
        old(messages) + [Message(User, text, false, None)] + ToolLines(CallsMade(c)) + [ClosingLine(c.outcome)]
      ensures logs == LogAfter(old(logs), Stamped(CallsLog(CallsMade(c), pageContent, server, 0), stamp))
      ensures |logs| == |old(logs)| + 2 * RequestCount(CallsMade(c))
      ensures logs[|logs| - |old(logs)|..] == old(logs)
      ensures tasks == old(tasks)
    {
      lastInput := text;
      var history := HistoryForModel(messages);
      messages := messages + [Message(User, text, false, None)];
      c := GenerateResponse(hasKey, history, text, chat, tool);
      messages := messages + ToolLines(CallsMade(c));
      var added := Stamped(CallsLog(CallsMade(c), pageContent, server, 0), stamp);
      TwoLinesPerRequest(CallsMade(c), pageContent, server, 0);
      LogNewestFirst(logs, added);
      logs := LogAfter(logs, added);
      messages := messages + [ClosingLine(c.outcome)];
    }

    /** `handleRetry`: with no previous input nothing happens; otherwise
        every system line is removed and the same input is sent again. */
    method Retry(hasKey: bool, chat: (nat, Outgoing) -> SendResult,
                 tool: (nat, nat, FunctionCall) -> ToolOutcome,
                 pageContent: string, server: nat -> ServerReply, stamp: nat -> (string, int))
      returns (c: Option<Conversation>)
      modifies this
      ensures old(lastInput) == "" ==>
        c == None && messages == old(messages) && lastInput == old(lastInput) && logs == old(logs)
      ensures old(lastInput) != "" ==>
        c == Some(Converse(hasKey, HistoryForModel(old(messages)), old(lastInput), chat, tool)) &&
        lastInput == old(lastInput) &&
        messages == DropSystem(old(messages)) + [Message(User, old(lastInput), false, None)] +
                    ToolLines(CallsMade(c.value)) + [ClosingLine(c.value.outcome)] &&
        logs == LogAfter(old(logs), Stamped(CallsLog(CallsMade(c.value), pageContent, server, 0), stamp))
      ensures tasks == old(tasks)
    {
      if lastInput == "" {
        return None;
      }
      HistoryIgnoresSystemLines(messages);
      messages := DropSystem(messages);
      var sent := SendMessage(lastInput, hasKey, chat, tool, pageContent, server, stamp);
      c := Some(sent);
    }

    /** One scheduler tick at `nowMs`, local time `hour:minute`: the clock
        face is read once and the tasks are checked against it. Returns the
        commands, in order, that are handed to `SendMessage`. */
    method Tick(nowMs: int, hour: nat, minute: nat) returns (sent: seq<string>)
      requires hour < 24 && minute < 60
      modifies this
      ensures sent == FiredCommands(old(tasks), nowMs, CurrentTime(hour, minute))
      ensures tasks == Restamp(old(tasks), FiredIds(old(tasks), nowMs, CurrentTime(hour, minute)), nowMs)
      ensures logs == old(logs) && messages == old(messages) && lastInput == old(lastInput)
    {
      sent := CheckTasks(nowMs, CurrentTime(hour, minute));
    }

    /** The `forEach` of a tick: every task of the list as it stood when the
        tick began is checked; each that fires sends its command and stamps
        its id. */
    method CheckTasks(nowMs: int, clock: string) returns (sent: seq<string>)
      modifies this
      ensures sent == FiredCommands(old(tasks), nowMs, clock)
      ensures tasks == Restamp(old(tasks), FiredIds(old(tasks), nowMs, clock), nowMs)
      ensures logs == old(logs) && messages == old(messages) && lastInput == old(lastInput)
    {
      var snapshot := tasks;
      sent := [];
      RestampNothing(snapshot, nowMs);
      assert snapshot[..0] == [];
      var i := 0;
      while i < |snapshot|
        invariant 0 <= i <= |snapshot|
        invariant sent == FiredCommands(snapshot[..i], nowMs, clock)
        invariant tasks == Restamp(snapshot, FiredIds(snapshot[..i], nowMs, clock), nowMs)
        invariant logs == old(logs) && messages == old(messages) && lastInput == old(lastInput)
      {
        var t := snapshot[i];
        TickAdvance(snapshot, i, nowMs, clock);
        if Fires(t, nowMs, clock) {
          sent := sent + [AutoCommand(clock, t.command)];
          tasks := StampId(tasks, t.id, nowMs);
        }
        i := i + 1;
      }
      assert snapshot[..i] == snapshot;
    }
  }

  /** Two ticks in the same minute send a task's command only once. */
  method SchedulerScenario() {
    var console := new Console();
    console.AddTask(Task("t1", "09:05", "abrir correo", true, None));
    var first := console.Tick(1000000, 9, 5);
    assert CurrentTime(9, 5) == "09:05";
    assert first == [AutoCommand("09:05", "abrir correo")];
    var second := console.Tick(1030000, 9, 5);
    assert second == [];
  }
}
