# Desktop-assistant decision core, modelled in Dafny

This project models the three parts of the desktop assistant that hold real
logic. It also proves properties of each.

- **The behaviour classifier** (`BehaviorAnalysis`, `behavior_analyzer.dfy`).
  It fuses one screen sample, one transcript and the recent input events into
  a context record. A fixed chain of case-insensitive substring rules maps the
  context to a task label, its steps, an automation tier (High, Medium or Low)
  and a confidence. The screen rules come first: Excel, then browser, then file
  management, else general use. A spoken command then overrides the task,
  tier and confidence, but never the steps. A command is one of three word
  pairs, each pair heard in any order: "open" and "excel", "save" and
  "file", or "create" and "document". A result with confidence above 0.7 becomes an
  automation suggestion. The classifier is pure, so it is modelled as
  functions over datatypes. The string helpers it needs are in `text.dfy`
  (module `Text`): ASCII lower-casing, substring search, and rendering an
  integer in decimal together with a parser for it.
- **The workflow ledger** (`Workflows`, `workflow_manager.dfy`). This is a
  class whose `learnedWorkflows` field is a sequence of workflow records keyed
  by name. Saving a workflow replaces the first record with that name in
  place, or appends the record. Recording an execution bumps the first
  record with the name. A query returns the records at or above a confidence
  floor, in list order. Each method is proved against a specification
  function: `Upsert`, `Incremented` or `HighConfidence`.
- **The bounded input-event buffer** (`InputTracking`, `input_tracker.dfy`).
  This is a class with an `events` sequence, a capacity of 1000 and an
  `isTracking` flag. The mouse and keyboard handlers record one event each,
  but only while tracking is on. The buffer then keeps only its newest 1000
  events, in arrival order. The event record and its four kinds are in
  `models.dfy` (module `Models`).

Timestamps are parameters. A test such as `"excel" in name` is `Contains(name,
"excel")`. Confidences are Dafny `real` literals; they are only ever compared.

Three facts about the source shape the model:

- Saving under an existing name replaces the whole record. The execution
  count restarts at 0 and `last_executed` is dropped
  (`src/automation/workflow_manager.py:27-36, 47`).
  `Workflows.SaveThenIncrement` states the consequence.
- The classifier uses the fixed labels and constants of
  `src/processing/behavior_analyzer.py:48-84`.
- The event buffer is a list. After an append that makes it overflow, it is
  trimmed to its newest 1000 entries (`src/observation/input_tracker.py:87-89`).

## Model

| member | source | states |
|---|---|---|
| `Text.Lower` | src/processing/behavior_analyzer.py:44-46 | lower-casing keeps the length and lower-cases each character on its own |
| `Text.LowerIdempotent` | src/processing/behavior_analyzer.py:44-46 | lower-casing an already lower-cased string changes nothing |
| `Text.ContainsIffOccurs` | src/processing/behavior_analyzer.py:48-84 | the substring test used by every rule holds exactly when the pattern occurs at some position |
| `Text.NatToString` | src/processing/behavior_analyzer.py:34 | a non-negative coordinate renders as decimal digits: 0 as exactly "0", any other value with no leading zero, as `str(n)` writes it |
| `Text.IntToStringRoundTrip` | src/processing/behavior_analyzer.py:34 | the decimal rendering of a coordinate, sign included, parses back to the same integer |
| `Text.FormatPairRoundTrip` | src/processing/behavior_analyzer.py:34 | the "x,y" mouse-position string determines both coordinates: splitting at the first comma reads them back |
| `Models.MouseMoveEvent` | src/observation/input_tracker.py:43-47 | a move event has type "mouse_move", the given time, and details x and y |
| `Models.MouseClickEvent` | src/observation/input_tracker.py:52-56 | a click event has type "mouse_click" and details x, y, button and pressed |
| `Models.MouseScrollEvent` | src/observation/input_tracker.py:61-65 | a scroll event has type "mouse_scroll" and details x, y, dx and dy |
| `Models.KeyPressEvent` | src/observation/input_tracker.py:75-79 | a key event has type "key_press" and the single detail key |
| `BehaviorAnalysis.RecentActions` | src/processing/behavior_analyzer.py:36 | the event types of the last min(5, n) events, in order |
| `BehaviorAnalysis.BuildContext` | src/processing/behavior_analyzer.py:29-38 | a missing sample gives "Unknown" window and title and position "0,0"; missing keys take the same defaults; the position parses back to the sample's coordinates; missing audio gives ""; recent actions are `RecentActions` of the events, the last five event types in order |
| `BehaviorAnalysis.MousePosition` | src/processing/behavior_analyzer.py:34 | without a sample the position is "0,0"; with one, the string reads back to its coordinates, a missing one read as 0 |
| `BehaviorAnalysis.GenerateAnalysis` | src/processing/behavior_analyzer.py:40-92 | each task label comes with a fixed tier and confidence; confidence is one of 0.3, 0.6, 0.7, 0.8, 0.9; the label is chosen, as an if-and-only-if per label, by voice rules in their order and then screen rules with Excel first; the steps depend only on the screen rules; the recommendation is "Consider automating this <task> workflow" |
| `BehaviorAnalysis.CheckAutomationPatterns` | src/processing/behavior_analyzer.py:94-103 | a suggestion exists iff confidence > 0.7; it names the task, describes it as "Automate <task>", and copies the confidence and the steps |
| `BehaviorAnalysis.AnalyzeBehavior` | src/processing/behavior_analyzer.py:10-27 | one call chains the builder, the rules and the threshold; a suggestion appears exactly when Excel is on screen or a command is spoken |
| `BehaviorAnalysis.AnalysisIgnoresCase` | src/processing/behavior_analyzer.py:44-46 | lower-casing window, title and audio before the analysis changes nothing, so matching ignores case |
| `BehaviorAnalysis.SpeechKeepsSteps` | src/processing/behavior_analyzer.py:72-86 | replacing the spoken text never changes the observed steps |
| `BehaviorAnalysis.UpperCaseExcelWindow` | src/processing/behavior_analyzer.py:44-52 | a window named "EXCEL" selects the Excel rule and yields a suggestion |
| `BehaviorAnalysis.NoScreenMeansGeneralUse` | src/processing/behavior_analyzer.py:32-70 | without a screen sample and without a command the task is general computer usage |
| `Workflows.NewRecord` | src/automation/workflow_manager.py:25-36 | the id is name + "_" + stamp; the count is 0 and there is no last execution; missing fields default to "", 0, [] and [] |
| `Workflows.IndexOfName` | src/automation/workflow_manager.py:39-43 | the result is the first index carrying the name, or -1 when no record has it |
| `Workflows.Upsert` | src/automation/workflow_manager.py:38-50 | an unknown name is appended at the end (length + 1); a known one replaces its first record at the same index (length unchanged); records with other names are untouched; the saved record is present |
| `Workflows.Incremented` | src/automation/workflow_manager.py:71-77 | the length and names never change; an unknown name changes nothing; the first record with the name gets count + 1 (missing count read as 0) and the stamp, and nothing else changes |
| `Workflows.HighConfidence` | src/automation/workflow_manager.py:67-69 | a record is in the result iff it is in the ledger with confidence at least the floor |
| `Workflows.WorkflowManager.constructor` | src/automation/workflow_manager.py:8-11 | the ledger starts as the loaded list |
| `Workflows.WorkflowManager.SaveWorkflow` | src/automation/workflow_manager.py:23-53 | the search loop with break and the replace-or-append leave the ledger equal to `Upsert` of the new record; unique names stay unique |
| `Workflows.WorkflowManager.GetWorkflows` | src/automation/workflow_manager.py:63-65 | returns the whole ledger in order |
| `Workflows.WorkflowManager.GetHighConfidenceWorkflows` | src/automation/workflow_manager.py:67-69 | the filtering loop returns exactly `HighConfidence` of the ledger and changes nothing |
| `Workflows.WorkflowManager.IncrementExecutionCount` | src/automation/workflow_manager.py:71-78 | the search loop with break leaves the ledger equal to `Incremented`; unique names stay unique |
| `Workflows.UpsertKeepsNamesUnique` | src/automation/workflow_manager.py:38-50 | if names were unique before a save, they are unique after it, and the only record with the saved name is the saved record |
| `Workflows.IncrementKeepsNamesUnique` | src/automation/workflow_manager.py:71-77 | an increment keeps names unique |
| `Workflows.HighConfidenceAppend` | src/automation/workflow_manager.py:69 | the filter distributes over concatenation, so records keep their original order |
| `Workflows.HighConfidenceSnoc` | src/automation/workflow_manager.py:69 | filtering a ledger extended by one record appends that record to the filtered result exactly when it clears the floor |
| `Workflows.DefaultFloor` | src/automation/workflow_manager.py:67-69 | with the default floor 0.8, a ledger record is returned exactly when its confidence is at least 0.8 |
| `Workflows.HighConfidenceKeepsAll` | src/automation/workflow_manager.py:69 | when every record clears the floor, the whole ledger comes back unchanged |
| `Workflows.SaveThenIncrement` | src/automation/workflow_manager.py:25-77 | after saving a known name and one execution, its count is 1 whatever it was before, and it carries the new detection time |
| `InputTracking.Keep` | src/observation/input_tracker.py:88-89 | the result is the suffix of length min(n, length) |
| `InputTracking.Admit` | src/observation/input_tracker.py:85-89 | one arrival keeps the bound; the new event is last; below capacity it only appends; at capacity it drops exactly the oldest |
| `InputTracking.AdmitAllKeepsNewest` | src/observation/input_tracker.py:85-89 | after any series of arrivals the buffer holds the newest n events of everything seen, in arrival order |
| `InputTracking.FifteenHundredEvents` | src/observation/input_tracker.py:85-89 | 1500 arrivals into an empty buffer leave exactly the last 1000 |
| `InputTracking.SliceStart` | src/observation/input_tracker.py:93 | Python's normalisation of a slice start: a negative start counts from the end; a start past the end gives the length, and one before the beginning gives 0 |
| `InputTracking.InputTracker.constructor` | src/observation/input_tracker.py:8-11 | an empty buffer, not tracking |
| `InputTracking.InputTracker.StartTracking` | src/observation/input_tracker.py:13-15 | sets the tracking flag, changes nothing else, and keeps the 1000-event bound |
| `InputTracking.InputTracker.StopTracking` | src/observation/input_tracker.py:33-35 | clears the tracking flag, changes nothing else, and keeps the 1000-event bound |
| `InputTracking.InputTracker.AddEvent` | src/observation/input_tracker.py:85-89 | the buffer becomes `Admit` of the old buffer and the event, and holds at most 1000 events |
| `InputTracking.InputTracker.OnMouseMove` | src/observation/input_tracker.py:41-48 | records one "mouse_move" event when tracking, and nothing otherwise; the 1000-event bound is kept |
| `InputTracking.InputTracker.OnMouseClick` | src/observation/input_tracker.py:50-57 | records one "mouse_click" event when tracking, and nothing otherwise; the 1000-event bound is kept |
| `InputTracking.InputTracker.OnMouseScroll` | src/observation/input_tracker.py:59-66 | records one "mouse_scroll" event when tracking, and nothing otherwise; the 1000-event bound is kept |
| `InputTracking.InputTracker.OnKeyPress` | src/observation/input_tracker.py:68-80 | records one "key_press" event when tracking, and nothing otherwise; the 1000-event bound is kept |
| `InputTracking.InputTracker.OnKeyRelease` | src/observation/input_tracker.py:82-83 | never changes anything |
| `InputTracking.InputTracker.GetRecentEvents` | src/observation/input_tracker.py:91-93 | for count ≥ 1, the newest min(count, length) events in order; count 0 gives every event; a negative count drops that many of the oldest; the buffer is not changed |

## Left out

- Lower-casing covers ASCII letters only. Python's `str.lower` also folds non-ASCII letters, and that is not modelled.
- Timestamps from `datetime.now()` are parameters: the report time, the record's compact creation stamp and ISO detection time, the execution time and each event's time.
- The pynput listener objects are not modelled: creating, starting and stopping them in `start_tracking`/`stop_tracking`. Neither is the fallback that takes a key's name when it has no character. The handlers receive the key text and `str(button)` already extracted.
- Reading and writing `learned_workflows.json` (`_load_workflows`, `_save_workflows`) is not modelled, and neither is the console output. The constructor takes the loaded list instead.
- Aliasing is not captured. `get_workflows` returns the live list, and `increment_execution_count` mutates a record in place, which a caller holding the list would see. Here records are values: the method returns a snapshot, and an increment replaces the record at its index.
- A `workflow_data` without `workflow_name`, or a stored record without `name` or `confidence`, raises `KeyError` in the source. The model makes those fields mandatory.
- Python default arguments have no Dafny form. The default confidence floor of `get_high_confidence_workflows` is the constant `Workflows.DefaultMinConfidence` (0.8), and the default `count` of `get_recent_events` (10) is left to the caller.
- Event details hold Python values of any type. The model has integers, strings and booleans, which is all the handlers store.
- `max_events` is a constant 1000. The source never reassigns the attribute, and a reassignment is not modelled.
- The source takes no locks. The pynput listener threads run the handlers and append to `events` while the observation loop reads it (`src/main.py:86`), and the GUI queries the ledger (`src/gui/components/workflow_panel.py:46`). This interleaving is not modelled: each method here runs on its own.
- The workflow executor (keystroke playback, process launching), screen and audio capture, speech recognition, long-term storage and the GUI are not part of this model. Nor is the keep-last-five transcript trim in the main loop.
- The automation enable/disable switch (`enable_automation`, `automation_enabled`) that `run_interactive.py` and the GUI call is not part of this model, and neither is the conversation-context history of the audio capture.
