# ACLS assistant: dispatcher, history, interpreter adapter and XML log

This project models the command-line ACLS (advanced cardiac life support)
assistant in `main.py`. The user types free text. An external interpretation
service turns it into an action record, and the assistant then does one of
three things: it logs an event, starts a timer or prints a reply. Every logged
event also goes into an in-memory history. The history is handed to each later
interpretation, and a logged event triggers one more interpretation that asks
what to do next.

The model has five modules:

- `Values` holds the Python values the dispatcher meets. It covers `None`,
  booleans, ints and strings. Floats, lists and dicts appear only as printed
  text. The module also gives the text `str()` produces for each value.
  Row ids are written in decimal and proved to read back.
- `Interpreter` is `parse_openai_input`. The service is an oracle: either a
  function from (text, history) to a response, or no client at all. A
  response is either an exception diagnostic, or a content string together
  with what `json.loads` made of it, held as an `Option`. The normaliser is
  total and never raises.
- `EventLog` holds the store's rows `(id, name, note, timestamp, extra)` in
  insertion order, `list_logs(limit)`, and the XML document `logs_to_xml`
  builds.
- `Commands` is `strip()` with Python's whitespace set, the exit and help
  tokens, the two log-command prefixes, and the classification of one input
  line.
- `Assistant` holds the session:
  - A pure `State` with the store, the next id and `previous_events`, plus
    every effect in order: interpreter requests, timers started, printed
    lines and exports.
  - The transition functions of `handle_action` and of one `main_loop` turn,
    and of a whole run over a sequence of input lines.
  - A `Session` class whose methods update those fields in place. Each
    method is proved to move its `Snapshot()` exactly as the transition
    function says.
  - `Valid()`: store ids ascend, the last id is below the next id, and the
    history is the summary of each stored row, in order. `HandleAction`,
    `RouteLine`, `Step` and `Run` keep it; the branch methods they call
    (`Interpret`, `LogEvent`, `StartTimer`, `LogCommands`) are specified by
    their exact new state, and the invariant is proved about that state.

Timestamps are parameters: `ts` is the `%Y/%m/%d %H:%M` text a logged event
gets, and `stamp` is the `%Y%m%d_%H%M%S` text in an export's file name. The
store's first id after `clear_logs()` is a parameter too.

## Model

| member | source | states |
|---|---|---|
| Values.Get | main.py:101-106 | `d.get(k, default)`: the stored value when the key is present, the default only when it is absent |
| Values.NatText | main.py:40 | the decimal numeral of an id: non-empty, all digits, longer than one digit exactly from 10 on |
| Values.ParseNatText | main.py:40 | the id written into an `<event>` element reads back as that id |
| Values.TextOfInt | main.py:125 | an int prints as its numeral, with a leading `-` when negative, and the numeral reads back as the int |
| Interpreter.Reply | main.py:53 | the reply record has exactly the keys `action` and `message`, with action `reply` |
| Interpreter.Interpretation | main.py:51-53 | with no client the result is the fixed reply "OpenAI 尚未設定"; with a client it is the normalised answer of the service to this text and this history |
| Interpreter.RequestsFor | main.py:52-53 | with no client no request is sent; otherwise exactly one, carrying the text and the history |
| Interpreter.Normalize | main.py:88-96 | a parsed object is passed on unchanged; content that does not parse becomes a reply carrying the content verbatim; an exception becomes a reply with "OpenAI解析錯誤: " and the diagnostic; every case other than a parsed object is a reply with a string message |
| Interpreter.NormalizeAsWritten | main.py:90-94 | as written, whatever `json.loads` returns is passed on; when that is a dict it equals the corrected normaliser's result, and a parsed object always is one |
| Interpreter.AsWrittenAgreesWhenDispatchable | main.py:90-96 | the as-written result can be dispatched exactly when the content did not parse to a non-object, and then it agrees with the corrected normaliser |
| Interpreter.NonObjectContentCrashesAsWritten | main.py:91-94 | the content `42` parses to an int, which `handle_action` cannot dispatch; the corrected normaliser turns it into a reply carrying "42" |
| EventLog.AscendingIds | main.py:109 | if ids increase from each stored row to the next, they increase across the whole store, so they are unique |
| EventLog.AscendingSnoc | main.py:109 | a row stored with an id above the last one keeps the ids ascending |
| EventLog.ListLogs | main.py:37 | `list_logs(limit)` gives the most recent `min(n, limit)` rows, in insertion order |
| EventLog.Blocks | main.py:39-44 | exactly one element per row |
| EventLog.XmlShape | main.py:38-45 | the document starts with `<logs>` and a newline, ends with `</logs>`, and holds exactly the events in between |
| EventLog.EventXmlHeader | main.py:40 | each element opens with the row's id, written so that it reads back, and the row's timestamp |
| EventLog.XmlBlockOfRow | main.py:39-44 | the element of row `i` stands between the elements of the rows before it and the rows after it |
| Commands.SkipSpaceStops | main.py:146 | the leading scan skips only whitespace and stops at the first non-space |
| Commands.SkipSpaceBackStops | main.py:146 | the trailing scan drops only whitespace and stops at the last non-space |
| Commands.StripSpec | main.py:146 | `strip()` keeps the slice between the leading and the trailing whitespace, and neither end of that slice is whitespace |
| Commands.StrippedIsFixed | main.py:146 | a line with no whitespace at either end strips to itself |
| Commands.StripIdempotent | main.py:146 | stripping twice is stripping once |
| Commands.ClassifyCases | main.py:146-163 | the line is blank exactly when it strips to nothing. It exits exactly when the lowered stripped line is `exit`, `quit` or `q`. It asks for help exactly when the stripped line is `help`, `h` or `?` as typed and is not an exit token. Every other line is routed stripped, with the show and export flags set by prefix |
| Commands.ClassifyIgnoresSurroundingSpace | main.py:146 | whitespace around a line never changes its classification |
| Commands.ExitTestIgnoresCase | main.py:149-151 | two lines with equal lowered stripped forms both exit or neither does |
| Commands.ExitIgnoresCase | main.py:149-151 | `QUIT` ends the session |
| Commands.HelpIsCaseSensitive | main.py:152-158 | `HELP` is not a help token; it is routed to the interpreter with no log command |
| Commands.ShowLogsByPrefix | main.py:161-162 | `show logs now` is routed and also shows the logs: the trigger is a prefix test |
| Assistant.LoggedRow | main.py:103-109 | the stored row gets the next id and the timestamp. Event and note are the given values, or "事件" and "" only when the key is absent. Extra is passed through, `None` when absent |
| Assistant.SummariesSnoc | main.py:110 | storing one more row appends `"{ts} {event} - {note}"` for it to the history |
| Assistant.SummariesAt | main.py:110 | the history has one line per stored row, and line `i` is the summary of row `i` |
| Assistant.TimerOf | main.py:121-124 | seconds is 60 and label is "計時器" only when the key is absent; any supplied value, 0 or negative included, is passed through |
| Assistant.FollowUpLine | main.py:116-119 | the follow-up prints "建議步驟：" and its message (`None` when missing) when it is a reply, and the fixed "無法提供建議" notice otherwise |
| Assistant.FirstQuit | main.py:144-151 | the index found is an exit line, or the end of the input |
| Assistant.FirstQuitIsFirst | main.py:144-151 | no line before that index is an exit line |
| Assistant.Started | main.py:138-142 | the session starts with the invariant, an empty store, an empty history and no request sent |
| Assistant.DispatchEffects | main.py:100-131 | `log_event` adds exactly one row and one history line and asks exactly once more, with the new history; `start_timer` starts exactly one timer; reply and unknown actions change none of these; nothing is exported; the printed lines are the confirmation and follow-up, the timer line, the message (default ""), or the fixed "無法解析動作" notice |
| Assistant.DispatchKeepsInv | main.py:103-110 | dispatching keeps ids ascending and the history in step with the store |
| Assistant.DispatchGrows | main.py:100-131 | dispatching loses nothing, adds at most one row and one history line, and sends at most one request |
| Assistant.LogCmdsEffects | main.py:161-168 | the log commands leave the store, the history, the requests and the timers unchanged; `show logs` prints the XML of the listing and `export logs` records one export of the listing |
| Assistant.RoutedEffects | main.py:157-168 | a routed line sends one request with the current history and then dispatches its answer; after that come the log commands, which depend only on the line's prefix and not on the answer, and read the store as dispatch left it |
| Assistant.NonRoutedTurn | main.py:146-154 | blank, exit and help lines touch nothing but the console, and print at most one line |
| Assistant.RoutedKeepsInv | main.py:157-168 | a routed line keeps the invariant |
| Assistant.RoutedGrows | main.py:157-168 | a routed line loses nothing, adds at most one row and one history line, and sends at most two requests |
| Assistant.TurnKeepsInv | main.py:146-168 | every turn keeps the invariant |
| Assistant.TurnGrows | main.py:146-168 | every turn loses nothing, adds at most one row and one history line, and sends at most two requests |
| Assistant.RunFrom | main.py:144-168 | a run reads between zero lines and the whole input |
| Assistant.RunStopsAtFirstQuit | main.py:144-151 | the loop stops right after the first exit line, and reads every line when there is none |
| Assistant.RunKeepsInv | main.py:144-168 | the invariant holds along a whole run |
| Assistant.RunGrows | main.py:144-168 | nothing is lost along a run, and each line read adds at most one row and sends at most two requests |
| Assistant.Session.constructor | main.py:138-142 | after start-up the store is cleared, the history is empty and the banner is printed |
| Assistant.Session.Interpret | main.py:51-96 | returns the interpretation of the text under the current history, and records exactly the requests it sends |
| Assistant.Session.LogEvent | main.py:103-119 | stores the row, appends its summary to the history in place, confirms, then asks for and prints the follow-up |
| Assistant.Session.StartTimer | main.py:121-125 | records one timer start with defaulted seconds and label, and its confirmation |
| Assistant.Session.HandleAction | main.py:100-131 | moves the session exactly as `Dispatch` says, and keeps `Valid()` |
| Assistant.Session.LogsToXml | main.py:36-46 | the loop builds exactly `Xml` of `list_logs(1000)`, and changes nothing |
| Assistant.Session.LogCommands | main.py:161-168 | moves the session exactly as `LogCmds` says |
| Assistant.Session.RouteLine | main.py:157-168 | moves the session exactly as `Routed` says, and keeps `Valid()` |
| Assistant.Session.Step | main.py:146-168 | one loop turn: keeps going exactly when the line is not an exit line, moves the session as `TurnOf` says for the line's classification, and keeps `Valid()` |
| Assistant.Session.Run | main.py:144-172 | the loop over the input lines ends in the state, the line count and the exit flag that `RunFrom` gives, and keeps `Valid()` |

## Left out

- The interpretation service itself is an oracle parameter (main.py:56-87): the OpenAI client, the model name, the temperature and the system prompt are not modelled.
- The interpretation oracle (`Interpreter.Client`) is a function of the text and the history, so two identical requests get the same answer. The real service samples at temperature 0.5 (main.py:86) and can answer them differently. No proved property depends on the answers being repeatable: every property holds for every oracle.
- Assistant.LogEventOf, Assistant.Routed, Assistant.RunFrom and Assistant.Session.Run are built on the corrected normaliser `Interpreter.Normalize` (see Findings), not on the code as written. As written, an answer that parses to JSON other than an object ends the session with `AttributeError`. For a routed line this happens at `data.get` (main.py:101); for the follow-up, at `next_step.get` (main.py:116). So on such answers the loop as written stops where the model's loop reads on, and `Assistant.RunStopsAtFirstQuit` describes the corrected loop.
- `json.loads` internals: only its outcome is modelled, as an `Option` of a parsed value.
- `utils.logger` is not part of this model. The store is a sequence of rows whose ids rise by one from a given first id. `list_logs(limit)` is taken to return the most recent `limit` rows in insertion order. How `extra` is stored and printed back is taken to be the value as given.
- The timer service `utils.timer` is not part of this model. It runs background threads with a finish callback (main.py:28-31). The model only records the start request; the countdown and `on_timer_finish` are left out.
- Wall-clock time, the `Asia/Taipei` time zone and `strftime` (main.py:107-108, 164) are left out. The formatted timestamps are parameters.
- The pandas data frame and the Excel file (main.py:166-167) are left out: an export is recorded as its file name and rows.
- Console I/O is modelled as a sequence of input lines and a sequence of printed lines. The Ctrl-C handler (main.py:170-172) and end-of-input behaviour are left out: a run simply ends when the lines run out.
- `load_dotenv` and reading the API key (main.py:14-17) are left out: the client is given.
- Values.Text: floats, lists and dicts are carried as the text Python prints for them, not computed from their structure.
- Commands.Lower: lowers ASCII letters only. That is exact for the exit test, because no other character lowers to a string made only of the letters of `exit`, `quit` and `q`. In general it is narrower than Python's `lower()`.
- Interpreter.Interpretation: a message whose `content` is `None` is not modelled. Content is always a string.
- XML values are not escaped, as in the source; the model does not escape them either.
- A supplied `seconds`, 0 or negative included, is passed to the timer unchanged (main.py:122-124), and the exit test accepts `exit`, `quit` and `q` in any case (main.py:149). The model follows main.py in both.

## Findings

| source | as written | input that shows it | evidently intended | confidence | as-written member | corrected member |
|---|---|---|---|---|---|---|
| main.py:90-94, 101, 115-116 | `json.loads` can succeed without returning a dict. `handle_action` then calls `data.get` (line 101, or `next_step.get` at line 116 for the follow-up), which raises `AttributeError`. `main_loop` catches only `KeyboardInterrupt`, so the session ends | the service answers with the content `42` | content that is not a JSON object is degraded to a reply carrying it, like content that does not parse | high, not executed | Interpreter.NormalizeAsWritten (shown by Interpreter.NonObjectContentCrashesAsWritten) | Interpreter.Normalize |
