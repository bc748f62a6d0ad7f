/** The action dispatcher (`handle_action`) and the interaction loop
    (`main_loop`) over the session's state: the event store, the event
    history handed to every interpreter call, and the effects a session has
    on the outside world (interpreter requests, timer starts, printed lines,
    spreadsheet exports), each recorded in order. */
module Assistant {
  import opened Values
  import opened Interpreter
  import opened EventLog
  import opened Commands

  const FollowUpPrompt := "下一步我該做什麼"
  const DefaultEvent := "事件"
  const DefaultNote := ""
  const DefaultSeconds := 60
  const DefaultLabel := "計時器"
  const NoSuggestion := "無法提供建議，請手動處理。"
  const CannotParse := "無法解析動作，請重新描述。"
  const Banner := "ACLS Assistant CLI\n輸入 'help' 查看可用指令。"
  const HelpText := "可用指令:\n  show logs | 顯示記錄\n  export logs | 匯出紀錄\n  exit"
  const Bye := "bye"

  /** A request to the timer service: `start_timer(sec, label=label, ...)`.
      The countdown and its completion callback are not part of this model. */
  datatype TimerRequest = TimerRequest(seconds: Value, name: Value)

  /** One spreadsheet written by the export command: its file name and the
      rows it holds. */
  datatype Export = Export(filename: string, rows: seq<Row>)

  /** `data.get("action")`. */
  function ActionOf(data: Record): Value {
    Get(data, "action", Null)
  }

  predicate LogsEvent(data: Record) {
    ActionOf(data) == Str("log_event")
  }

  predicate StartsTimer(data: Record) {
    ActionOf(data) == Str("start_timer")
  }

  /** The row a `log_event` record adds to the store under id `id` at time
      `ts`: the event name defaults to "事件" and the note to "" only when
      the key is absent, and `extra` (absent: `None`) is passed on as given. */
  function LoggedRow(data: Record, id: nat, ts: string): (r: Row)
    ensures r.id == id && r.ts == ts
    ensures "event" in data ==> r.name == data["event"]
    ensures "event" !in data ==> r.name == Str(DefaultEvent)
    ensures "note" in data ==> r.note == data["note"]
    ensures "note" !in data ==> r.note == Str(DefaultNote)
    ensures "extra" in data ==> r.extra == data["extra"]
    ensures "extra" !in data ==> r.extra == Null
  {
    Row(id, Get(data, "event", Str(DefaultEvent)), Get(data, "note", Str(DefaultNote)), ts,
        Get(data, "extra", Null))
  }

  /** The history line kept for a logged event: "{ts} {event} - {note}". */
  function Summary(r: Row): string {
    r.ts + " " + Text(r.name) + " - " + Text(r.note)
  }

  /** The history a store's rows give: one summary per row, in row order. */
  function Summaries(rows: seq<Row>): seq<string> {
    if rows == [] then [] else Summaries(rows[..|rows| - 1]) + [Summary(rows[|rows| - 1])]
  }

  /** Storing one more row adds its summary to the history. */
  lemma SummariesSnoc(rows: seq<Row>, row: Row)
    ensures Summaries(rows + [row]) == Summaries(rows) + [Summary(row)]
  {
    assert (rows + [row])[..|rows|] == rows;
  }

  /** The history mirrors the store line for line. */
  lemma {:induction false} SummariesAt(rows: seq<Row>, i: nat)
    requires i < |rows|
    ensures |Summaries(rows)| == |rows| && Summaries(rows)[i] == Summary(rows[i])
    decreases |rows|
  {
    var init := rows[..|rows| - 1];
    if i < |init| {
      SummariesAt(init, i);
      assert init[i] == rows[i];
    } else if init != [] {
      SummariesAt(init, 0);
    }
  }

  /** The timer a `start_timer` record asks for: 60 seconds and the label
      "計時器" only when the key is absent; any given value, 0 or negative
      included, is passed on. */
  function TimerOf(data: Record): (t: TimerRequest)
    ensures "seconds" in data ==> t.seconds == data["seconds"]
    ensures "seconds" !in data ==> t.seconds == Int(DefaultSeconds)
    ensures "label" in data ==> t.name == data["label"]
    ensures "label" !in data ==> t.name == Str(DefaultLabel)
  {
    TimerRequest(Get(data, "seconds", Int(DefaultSeconds)), Get(data, "label", Str(DefaultLabel)))
  }

  /** What is printed for the follow-up suggestion: its message when it is
      a reply (`None` when the reply has no message), otherwise a fixed
      notice. The suggestion itself is never dispatched. */
  function FollowUpLine(next: Record): (line: string)
    ensures IsReply(next) ==> line == "建議步驟：" + Text(Get(next, "message", Null))
    ensures !IsReply(next) ==> line == NoSuggestion
  {
    if IsReply(next) then "建議步驟：" + Text(Get(next, "message", Null)) else NoSuggestion
  }

  /** The confirmation printed once an event is stored. */
  function ConfirmLine(ts: string, name: Value): string {
    "已紀錄事件：" + ts + " " + Text(name) + "，並提供後續建議。"
  }

  /** The confirmation printed once a timer is started. */
  function TimerLine(t: TimerRequest): string {
    "已開始計時器: " + Text(t.seconds) + "秒 (" + Text(t.name) + ")"
  }

  /** The lines `handle_action` prints for `data`, given the follow-up
      suggestion `next` (only read for `log_event`). */
  function ActionLines(data: Record, ts: string, next: Record): seq<string> {
    var action := ActionOf(data);
    if action == Str("log_event") then
      [ConfirmLine(ts, Get(data, "event", Str(DefaultEvent))), FollowUpLine(next)]
    else if action == Str("start_timer") then
      [TimerLine(TimerOf(data))]
    else if action == Str("reply") then
      [Text(Get(data, "message", Str("")))]
    else
      [CannotParse]
  }

  /** The file name of an export made at `stamp` (`%Y%m%d_%H%M%S`). */
  function ExportFile(stamp: string): string {
    "ACLS_logs_" + stamp + ".xlsx"
  }

  function ExportNotice(stamp: string): string {
    "已匯出紀錄到 " + ExportFile(stamp)
  }

  /** The index of the first exit line at or after `from`, or `|lines|`
      when there is none. */
  function FirstQuit(lines: seq<string>, from: nat): (k: nat)
    requires from <= |lines|
    ensures from <= k <= |lines|
    ensures k < |lines| ==> Classify(lines[k]).Quit?
    decreases |lines| - from
  {
    if from == |lines| then from
    else if Classify(lines[from]).Quit? then from
    else FirstQuit(lines, from + 1)
  }

  /** No line between `from` and the one `FirstQuit` finds is an exit line. */
  lemma {:induction false} FirstQuitIsFirst(lines: seq<string>, from: nat, k: nat)
    requires from <= |lines| && from <= k < FirstQuit(lines, from)
    ensures !Classify(lines[k]).Quit?
    decreases |lines| - from
  {
    if k > from {
      FirstQuitIsFirst(lines, from + 1, k);
    }
  }

  // ----- The session's state and what each operation does to it -----

  /** Everything a session holds or has done: the store's rows in insertion
      order and the id the next one gets, `previous_events`, and, in order,
      every interpreter request, timer start, printed line and export. */
  datatype State = State(
    rows: seq<Row>,
    nextId: nat,
    history: seq<string>,
    calls: seq<Request>,
    timers: seq<TimerRequest>,
    out: seq<string>,
    exports: seq<Export>)

  /** Ids increase along the store and the last stays below the next one
      (so by `AscendingIds` every id is below it), and the history is the
      summary of each stored row, in order. */
  predicate Inv(st: State) {
    && Ascending(st.rows) && (st.rows != [] ==> st.rows[|st.rows| - 1].id < st.nextId)
    && st.history == Summaries(st.rows)
  }

  /** Nothing of `a` is lost in `b`: every part of the state only grows. */
  predicate Extends(a: State, b: State) {
    && a.rows <= b.rows && a.history <= b.history && a.nextId <= b.nextId
    && a.calls <= b.calls && a.timers <= b.timers && a.out <= b.out && a.exports <= b.exports
  }

  lemma ExtendsTrans(a: State, b: State, c: State)
    requires Extends(a, b) && Extends(b, c)
    ensures Extends(a, c)
  {
  }

  /** `b` grows from `a` by at most `n` rows and `2 * n` requests. */
  predicate GrowsBy(a: State, b: State, n: nat) {
    Extends(a, b) && |b.rows| <= |a.rows| + n && |b.calls| <= |a.calls| + 2 * n
  }

  lemma GrowsByTrans(a: State, b: State, c: State, m: nat, n: nat)
    requires GrowsBy(a, b, m) && GrowsBy(b, c, n)
    ensures GrowsBy(a, c, m + n)
  {
    ExtendsTrans(a, b, c);
  }

  /** The state right after `main_loop` started: an empty cleared store
      whose next id is `firstId`, an empty history, and the banner. */
  function Started(firstId: nat): (st: State)
    ensures Inv(st) && st.rows == [] && st.history == [] && st.calls == []
  {
    State([], firstId, [], [], [], [Banner], [])
  }

  /** The effect of `parse_openai_input(text, history)`: the request it
      sends, if any. */
  function Ask(st: State, client: Client, text: string): State {
    st.(calls := st.calls + RequestsFor(client, text, st.history))
  }

  /** The `log_event` branch: store the row, append its summary to the
      history, confirm, then ask once with the new history for a follow-up
      that is printed and nothing else. */
  function LogEventOf(st: State, client: Client, data: Record, ts: string): State {
    var row := LoggedRow(data, st.nextId, ts);
    var stored := st.(rows := st.rows + [row], nextId := st.nextId + 1,
                      history := st.history + [Summary(row)],
                      out := st.out + [ConfirmLine(ts, row.name)]);
    var next := Interpretation(client, FollowUpPrompt, stored.history);
    var asked := Ask(stored, client, FollowUpPrompt);
    asked.(out := asked.out + [FollowUpLine(next)])
  }

  /** The `start_timer` branch: one timer and its confirmation. */
  function StartTimerOf(st: State, data: Record): State {
    st.(timers := st.timers + [TimerOf(data)], out := st.out + [TimerLine(TimerOf(data))])
  }

  /** `handle_action(data, previous_events)` at time `ts`. */
  function Dispatch(st: State, client: Client, data: Record, ts: string): State {
    var action := ActionOf(data);
    if action == Str("log_event") then LogEventOf(st, client, data, ts)
    else if action == Str("start_timer") then StartTimerOf(st, data)
    else if action == Str("reply") then st.(out := st.out + [Text(Get(data, "message", Str("")))])
    else st.(out := st.out + [CannotParse])
  }

  /** A `log_event` adds exactly one row and one history line, and asks the
      interpreter once, with the new history, for a follow-up that is only
      printed, never dispatched; a `start_timer` starts exactly one timer;
      a reply or an unknown action only prints. Nothing is exported. */
  lemma DispatchEffects(st: State, client: Client, data: Record, ts: string)
    ensures var r := Dispatch(st, client, data, ts);
            var logged := if LogsEvent(data) then [LoggedRow(data, st.nextId, ts)] else [];
            && r.rows == st.rows + logged
            && r.nextId == st.nextId + |logged|
            && r.history == st.history + (if LogsEvent(data) then [Summary(logged[0])] else [])
            && r.calls == st.calls + (if LogsEvent(data) then RequestsFor(client, FollowUpPrompt, r.history) else [])
            && r.timers == st.timers + (if StartsTimer(data) then [TimerOf(data)] else [])
            && r.exports == st.exports
            && r.out == st.out + ActionLines(data, ts, Interpretation(client, FollowUpPrompt, r.history))
  {
    var r := Dispatch(st, client, data, ts);
    if LogsEvent(data) {
      var row := LoggedRow(data, st.nextId, ts);
      assert r.out == st.out + [ConfirmLine(ts, row.name)]
                     + [FollowUpLine(Interpretation(client, FollowUpPrompt, r.history))];
    }
  }

  /** Printing a line touches neither the store nor the history. */
  lemma KeepsInvPrinting(st: State, line: string)
    requires Inv(st)
    ensures Inv(st.(out := st.out + [line]))
  {
    var r := st.(out := st.out + [line]);
    assert r.rows == st.rows && r.nextId == st.nextId && r.history == st.history;
  }

  /** Dispatching keeps the store's ids ascending and the history in step
      with the store. */
  lemma DispatchKeepsInv(st: State, client: Client, data: Record, ts: string)
    requires Inv(st)
    ensures Inv(Dispatch(st, client, data, ts))
  {
    var action := ActionOf(data);
    if action == Str("log_event") {
      var row := LoggedRow(data, st.nextId, ts);
      var r := LogEventOf(st, client, data, ts);
      assert Dispatch(st, client, data, ts) == r;
      assert r.rows == st.rows + [row] && r.nextId == st.nextId + 1;
      assert r.history == st.history + [Summary(row)];
      AscendingSnoc(st.rows, row);
      SummariesSnoc(st.rows, row);
    } else if action == Str("start_timer") {
      var r := StartTimerOf(st, data);
      assert Dispatch(st, client, data, ts) == r;
      assert r.rows == st.rows && r.nextId == st.nextId && r.history == st.history;
    } else if action == Str("reply") {
      KeepsInvPrinting(st, Text(Get(data, "message", Str(""))));
    } else {
      KeepsInvPrinting(st, CannotParse);
    }
  }

  /** The log commands run after dispatch: `show logs` prints the XML of
      the listing, `export logs` writes the listing to a spreadsheet named
      after `stamp` and says so. */
  function LogCmds(st: State, showLogs: bool, exportLogs: bool, stamp: string): State {
    var shown := ListLogs(st.rows, ListLimit);
    var st' := if showLogs then st.(out := st.out + [Xml(shown)]) else st;
    if exportLogs then
      st'.(exports := st'.exports + [Export(ExportFile(stamp), shown)],
           out := st'.out + [ExportNotice(stamp)])
    else st'
  }

  /** The log commands read the store and touch nothing but the console
      and the exports. */
  lemma LogCmdsEffects(st: State, showLogs: bool, exportLogs: bool, stamp: string)
    ensures var r := LogCmds(st, showLogs, exportLogs, stamp);
            var shown := ListLogs(st.rows, ListLimit);
            && r.rows == st.rows && r.nextId == st.nextId && r.history == st.history
            && r.calls == st.calls && r.timers == st.timers
            && r.exports == st.exports + (if exportLogs then [Export(ExportFile(stamp), shown)] else [])
            && r.out == st.out + (if showLogs then [Xml(shown)] else [])
                       + (if exportLogs then [ExportNotice(stamp)] else [])
  {
    var shown := ListLogs(st.rows, ListLimit);
    Regroup3(st.out, if showLogs then [Xml(shown)] else [],
             if exportLogs then [ExportNotice(stamp)] else []);
  }

  /** A routed line: interpreted with the current history, dispatched, and
      then the log commands its prefix asks for. */
  function Routed(st: State, client: Client, text: string, showLogs: bool, exportLogs: bool,
                  ts: string, stamp: string): State {
    var data := Interpretation(client, text, st.history);
    var dispatched := Dispatch(Ask(st, client, text), client, data, ts);
    LogCmds(dispatched, showLogs, exportLogs, stamp)
  }

  /** A routed line gives one request with the current history, then what
      the dispatcher does with the answer, then the log commands, which
      depend only on the line's prefix and read the store after dispatch. */
  lemma RoutedEffects(st: State, client: Client, text: string, showLogs: bool, exportLogs: bool,
                      ts: string, stamp: string)
    ensures var data := Interpretation(client, text, st.history);
            var r := Routed(st, client, text, showLogs, exportLogs, ts, stamp);
            var logged := if LogsEvent(data) then [LoggedRow(data, st.nextId, ts)] else [];
            var shown := ListLogs(r.rows, ListLimit);
            && r.rows == st.rows + logged
            && r.nextId == st.nextId + |logged|
            && r.history == st.history + (if LogsEvent(data) then [Summary(logged[0])] else [])
            && r.calls == st.calls + RequestsFor(client, text, st.history)
                          + (if LogsEvent(data) then RequestsFor(client, FollowUpPrompt, r.history) else [])
            && r.timers == st.timers + (if StartsTimer(data) then [TimerOf(data)] else [])
            && r.exports == st.exports + (if exportLogs then [Export(ExportFile(stamp), shown)] else [])
            && r.out == st.out + ActionLines(data, ts, Interpretation(client, FollowUpPrompt, r.history))
                        + (if showLogs then [Xml(shown)] else [])
                        + (if exportLogs then [ExportNotice(stamp)] else [])
  {
    var data := Interpretation(client, text, st.history);
    var asked := Ask(st, client, text);
    var dispatched := Dispatch(asked, client, data, ts);
    DispatchEffects(asked, client, data, ts);
    LogCmdsEffects(dispatched, showLogs, exportLogs, stamp);
    Regroup3(st.calls, RequestsFor(client, text, st.history),
             if LogsEvent(data) then RequestsFor(client, FollowUpPrompt, dispatched.history) else []);
  }

  /** One turn of `main_loop` on a line classified as `cmd`. */
  function TurnOf(st: State, client: Client, cmd: Command, ts: string, stamp: string): State {
    match cmd
    case Blank => st
    case Quit => st.(out := st.out + [Bye])
    case Help => st.(out := st.out + [HelpText])
    case Route(text, showLogs, exportLogs) => Routed(st, client, text, showLogs, exportLogs, ts, stamp)
  }

  /** Blank, exit and help lines touch neither the store, the history, the
      interpreter, the timers nor the exports, and print at most one line. */
  lemma NonRoutedTurn(st: State, client: Client, cmd: Command, ts: string, stamp: string)
    requires !cmd.Route?
    ensures var r := TurnOf(st, client, cmd, ts, stamp);
            && r.rows == st.rows && r.nextId == st.nextId && r.history == st.history
            && r.calls == st.calls && r.timers == st.timers && r.exports == st.exports
            && r.out == st.out + (if cmd.Quit? then [Bye] else if cmd.Help? then [HelpText] else [])
  {
  }

  /** Dispatching loses nothing, adds at most one row and one history
      line, and sends at most one request. */
  lemma DispatchGrows(st: State, client: Client, data: Record, ts: string)
    ensures var r := Dispatch(st, client, data, ts);
            && Extends(st, r)
            && |r.rows| <= |st.rows| + 1 && |r.history| <= |st.history| + 1
            && |r.calls| <= |st.calls| + 1
  {
    DispatchEffects(st, client, data, ts);
  }

  /** A routed line keeps the invariant. */
  lemma RoutedKeepsInv(st: State, client: Client, text: string, showLogs: bool, exportLogs: bool,
                       ts: string, stamp: string)
    requires Inv(st)
    ensures Inv(Routed(st, client, text, showLogs, exportLogs, ts, stamp))
  {
    var data := Interpretation(client, text, st.history);
    var asked := Ask(st, client, text);
    DispatchKeepsInv(asked, client, data, ts);
    LogCmdsEffects(Dispatch(asked, client, data, ts), showLogs, exportLogs, stamp);
  }

  /** A routed line loses nothing, adds at most one row and one history
      line, and sends at most two requests. */
  lemma RoutedGrows(st: State, client: Client, text: string, showLogs: bool, exportLogs: bool,
                    ts: string, stamp: string)
    ensures var r := Routed(st, client, text, showLogs, exportLogs, ts, stamp);
            && Extends(st, r)
            && |r.rows| <= |st.rows| + 1 && |r.history| <= |st.history| + 1
            && |r.calls| <= |st.calls| + 2
  {
    var data := Interpretation(client, text, st.history);
    var asked := Ask(st, client, text);
    var dispatched := Dispatch(asked, client, data, ts);
    assert Extends(st, asked);
    DispatchGrows(asked, client, data, ts);
    LogCmdsEffects(dispatched, showLogs, exportLogs, stamp);
    ExtendsTrans(st, asked, dispatched);
    ExtendsTrans(st, dispatched, LogCmds(dispatched, showLogs, exportLogs, stamp));
  }

  /** Every turn keeps the invariant. */
  lemma TurnKeepsInv(st: State, client: Client, cmd: Command, ts: string, stamp: string)
    requires Inv(st)
    ensures Inv(TurnOf(st, client, cmd, ts, stamp))
  {
    match cmd
    case Blank =>
      assert TurnOf(st, client, cmd, ts, stamp) == st;
    case Quit =>
      KeepsInvPrinting(st, Bye);
    case Help =>
      KeepsInvPrinting(st, HelpText);
    case Route(text, showLogs, exportLogs) =>
      assert TurnOf(st, client, cmd, ts, stamp) == Routed(st, client, text, showLogs, exportLogs, ts, stamp);
      RoutedKeepsInv(st, client, text, showLogs, exportLogs, ts, stamp);
  }

  /** A turn loses nothing, adds at most one row and one history line, and
      sends at most two requests. */
  lemma TurnGrows(st: State, client: Client, cmd: Command, ts: string, stamp: string)
    ensures var r := TurnOf(st, client, cmd, ts, stamp);
            && Extends(st, r)
            && |r.rows| <= |st.rows| + 1 && |r.history| <= |st.history| + 1
            && |r.calls| <= |st.calls| + 2
  {
    if cmd.Route? {
      RoutedGrows(st, client, cmd.text, cmd.showLogs, cmd.exportLogs, ts, stamp);
    }
  }

  /** Where a run over a sequence of input lines ends: the final state, how
      many lines were read, and whether an exit line stopped it. */
  datatype Outcome = Outcome(final: State, read: nat, quit: bool)

  /** `main_loop` from line `i` of `lines` on, the `j`-th line read at time
      `clock[j]` and `stamps[j]`, until an exit line or the end of the
      input. */
  function RunFrom(st: State, client: Client, lines: seq<string>, clock: seq<string>,
                   stamps: seq<string>, i: nat): (o: Outcome)
    requires i <= |lines| && |clock| == |lines| && |stamps| == |lines|
    ensures i <= o.read <= |lines|
    decreases |lines| - i
  {
    if i == |lines| then Outcome(st, i, false)
    else
      var cmd := Classify(lines[i]);
      var next := TurnOf(st, client, cmd, clock[i], stamps[i]);
      if cmd.Quit? then Outcome(next, i + 1, true)
      else RunFrom(next, client, lines, clock, stamps, i + 1)
  }

  /** The loop stops right after the first exit line and reads every line
      when there is none: no line after an exit line is ever read. */
  lemma {:induction false} RunStopsAtFirstQuit(st: State, client: Client, lines: seq<string>,
                                               clock: seq<string>, stamps: seq<string>, i: nat)
    requires i <= |lines| && |clock| == |lines| && |stamps| == |lines|
    ensures var o := RunFrom(st, client, lines, clock, stamps, i);
            && (o.quit <==> FirstQuit(lines, i) < |lines|)
            && o.read == if o.quit then FirstQuit(lines, i) + 1 else |lines|
    decreases |lines| - i
  {
    if i < |lines| && !Classify(lines[i]).Quit? {
      var next := TurnOf(st, client, Classify(lines[i]), clock[i], stamps[i]);
      RunStopsAtFirstQuit(next, client, lines, clock, stamps, i + 1);
    }
  }

  /** The invariant holds along a whole run. */
  lemma {:induction false} RunKeepsInv(st: State, client: Client, lines: seq<string>,
                                       clock: seq<string>, stamps: seq<string>, i: nat)
    requires i <= |lines| && |clock| == |lines| && |stamps| == |lines|
    requires Inv(st)
    ensures Inv(RunFrom(st, client, lines, clock, stamps, i).final)
    decreases |lines| - i
  {
    if i < |lines| {
      TurnKeepsInv(st, client, Classify(lines[i]), clock[i], stamps[i]);
      if !Classify(lines[i]).Quit? {
        var next := TurnOf(st, client, Classify(lines[i]), clock[i], stamps[i]);
        RunKeepsInv(next, client, lines, clock, stamps, i + 1);
      }
    }
  }

  /** Nothing is lost along a run, and each line read adds at most one row
      and sends at most two requests. */
  lemma {:induction false} RunGrows(st: State, client: Client, lines: seq<string>,
                                    clock: seq<string>, stamps: seq<string>, i: nat)
    requires i <= |lines| && |clock| == |lines| && |stamps| == |lines|
    ensures var o := RunFrom(st, client, lines, clock, stamps, i);
            GrowsBy(st, o.final, o.read - i)
    decreases |lines| - i
  {
    if i < |lines| {
      var next := TurnOf(st, client, Classify(lines[i]), clock[i], stamps[i]);
      TurnGrows(st, client, Classify(lines[i]), clock[i], stamps[i]);
      assert GrowsBy(st, next, 1);
      if !Classify(lines[i]).Quit? {
        var o := RunFrom(next, client, lines, clock, stamps, i + 1);
        RunGrows(next, client, lines, clock, stamps, i + 1);
        GrowsByTrans(st, next, o.final, 1, o.read - (i + 1));
      }
    }
  }

  // ----- The session object -----

  /** One session of the assistant, from `main_loop`'s start on. */
  class Session {
    /** The interpretation client fixed at start-up. */
    const client: Client
    /** The store's rows in insertion order, and the id the next one gets. */
    var rows: seq<Row>
    var nextId: nat
    /** `previous_events`: one summary line per logged event. */
    var history: seq<string>
    /** Every request sent to the interpreter, in order. */
    var calls: seq<Request>
    /** Every timer started, in order. */
    var timers: seq<TimerRequest>
    /** Every line printed to the console, in order. */
    var out: seq<string>
    /** Every spreadsheet written, in order. */
    var exports: seq<Export>

    /** The session's fields as one value. */
    function Snapshot(): State
      reads this
    {
      State(rows, nextId, history, calls, timers, out, exports)
    }

    ghost predicate Valid()
      reads this
    {
      Inv(Snapshot())
    }

    /** `init_db()`, `clear_logs()`, the banner and `previous_events = []`;
        the store's next id after clearing is `firstId`. */
    constructor (client: Client, firstId: nat)
      ensures Valid()
      ensures this.client == client && Snapshot() == Started(firstId)
    {
      this.client := client;
      rows, nextId, history := [], firstId, [];
      calls, timers, exports := [], [], [];
      out := [Banner];
    }

    /** `parse_openai_input(text, previous_events)`: exactly one request to
        the service when a client is configured, none otherwise. */
    method Interpret(text: string) returns (data: Record)
      modifies this`calls
      ensures data == Interpretation(client, text, history)
      ensures Snapshot() == Ask(old(Snapshot()), client, text)
    {
      if client.NoClient? {
        data := Reply(Str(NotConfigured));
        return;
      }
      calls := calls + [Request(text, history)];
      var resp := client.respond(text, history);
      data := Normalize(resp);
    }

    /** The `log_event` branch of `handle_action`; the history is
        appended to in place before the follow-up request sees it. */
    method LogEvent(data: Record, ts: string)
      modifies this`rows, this`nextId, this`history, this`calls, this`out
      ensures Snapshot() == LogEventOf(old(Snapshot()), client, data, ts)
    {
      var event := Get(data, "event", Str(DefaultEvent));
      var note := Get(data, "note", Str(DefaultNote));
      var extra := Get(data, "extra", Null);
      var row := Row(nextId, event, note, ts, extra);
      rows := rows + [row];
      nextId := nextId + 1;
      history := history + [Summary(row)];
      out := out + [ConfirmLine(ts, event)];
      var next := Interpret(FollowUpPrompt);
      out := out + [FollowUpLine(next)];
    }

    /** The `start_timer` branch of `handle_action`. */
    method StartTimer(data: Record)
      modifies this`timers, this`out
      ensures Snapshot() == StartTimerOf(old(Snapshot()), data)
    {
      var sec := Get(data, "seconds", Int(DefaultSeconds));
      var name := Get(data, "label", Str(DefaultLabel));
      var t := TimerRequest(sec, name);
      timers := timers + [t];
      out := out + [TimerLine(t)];
    }

    /** `handle_action(data, previous_events)` at time `ts`. */
    method HandleAction(data: Record, ts: string)
      requires Valid()
      modifies this`rows, this`nextId, this`history, this`calls, this`timers, this`out
      ensures Valid()
      ensures Snapshot() == Dispatch(old(Snapshot()), client, data, ts)
    {
      DispatchKeepsInv(Snapshot(), client, data, ts);
      var action := ActionOf(data);
      if action == Str("log_event") {
        LogEvent(data, ts);
      } else if action == Str("start_timer") {
        StartTimer(data);
      } else if action == Str("reply") {
        out := out + [Text(Get(data, "message", Str("")))];
      } else {
        out := out + [CannotParse];
      }
    }

    /** `logs_to_xml()`: the XML of `list_logs(1000)`, built element by
        element; it only reads the store. */
    method LogsToXml() returns (xml: string)
      ensures xml == Xml(ListLogs(rows, ListLimit))
    {
      var shown := ListLogs(rows, ListLimit);
      xml := "<logs>\n";
      EventsXmlEmpty();
      assert shown[..0] == [];
      for i := 0 to |shown|
        invariant xml == "<logs>\n" + EventsXml(shown[..i])
      {
        var r := shown[i];
        ghost var before := xml;
        xml := xml + OpenLine(r);
        xml := xml + NameLine(r);
        xml := xml + NoteLine(r);
        xml := xml + ExtraLine(r);
        xml := xml + CloseLine;
        Regroup6(before, OpenLine(r), NameLine(r), NoteLine(r), ExtraLine(r), CloseLine);
        EventsXmlSnoc(shown, i);
        Regroup3("<logs>\n", EventsXml(shown[..i]), EventXml(r));
      }
      assert shown[..|shown|] == shown;
      xml := xml + "</logs>";
    }

    /** The two log commands, run after dispatch. Neither changes the
        store. */
    method LogCommands(showLogs: bool, exportLogs: bool, stamp: string)
      modifies this`out, this`exports
      ensures Snapshot() == LogCmds(old(Snapshot()), showLogs, exportLogs, stamp)
    {
      if showLogs {
        var xml := LogsToXml();
        out := out + [xml];
      }
      if exportLogs {
        var shown := ListLogs(rows, ListLimit);
        exports := exports + [Export(ExportFile(stamp), shown)];
        out := out + [ExportNotice(stamp)];
      }
    }

    /** A routed line: interpret it with the current history, dispatch the
        result, then run the log commands its prefix asks for, whatever the
        interpreter made of it. */
    method RouteLine(text: string, showLogs: bool, exportLogs: bool, ts: string, stamp: string)
      requires Valid()
      modifies this`rows, this`nextId, this`history, this`calls, this`timers, this`out,
               this`exports
      ensures Valid()
      ensures Snapshot() == Routed(old(Snapshot()), client, text, showLogs, exportLogs, ts, stamp)
    {
      var data := Interpret(text);
      HandleAction(data, ts);
      LogCommands(showLogs, exportLogs, stamp);
    }

    /** One turn of `main_loop` on the raw line `line`; `ts` is the
        timestamp a logged event gets and `stamp` the one an export's file
        name gets. The loop goes on unless the line is an exit line. */
    method Step(line: string, ts: string, stamp: string) returns (running: bool)
      requires Valid()
      modifies this`rows, this`nextId, this`history, this`calls, this`timers, this`out,
               this`exports
      ensures Valid()
      ensures running <==> !Classify(line).Quit?
      ensures Snapshot() == TurnOf(old(Snapshot()), client, Classify(line), ts, stamp)
    {
      var cmd := Classify(line);
      match cmd
      case Blank =>
        running := true;
      case Quit =>
        out := out + [Bye];
        running := false;
      case Help =>
        out := out + [HelpText];
        running := true;
      case Route(text, showLogs, exportLogs) =>
        RouteLine(text, showLogs, exportLogs, ts, stamp);
        running := true;
    }

    /** `main_loop` over the input `lines`, until an exit line or the end
        of the input; `read` lines were read and `quit` says whether an
        exit line ended the loop. */
    method Run(lines: seq<string>, clock: seq<string>, stamps: seq<string>)
      returns (read: nat, quit: bool)
      requires Valid() && |clock| == |lines| && |stamps| == |lines|
      modifies this`rows, this`nextId, this`history, this`calls, this`timers, this`out,
               this`exports
      ensures Valid()
      ensures Outcome(Snapshot(), read, quit) == RunFrom(old(Snapshot()), client, lines, clock, stamps, 0)
    {
      read, quit := 0, false;
      while read < |lines| && !quit
        invariant Valid() && read <= |lines|
        invariant !quit ==>
          RunFrom(Snapshot(), client, lines, clock, stamps, read)
          == RunFrom(old(Snapshot()), client, lines, clock, stamps, 0)
        invariant quit ==>
          Outcome(Snapshot(), read, true) == RunFrom(old(Snapshot()), client, lines, clock, stamps, 0)
        decreases |lines| - read
      {
        var running := Step(lines[read], clock[read], stamps[read]);
        read := read + 1;
        quit := !running;
      }
    }
  }
}
