/**
 * The rule-based behaviour classifier.
 *
 * One screen sample, one transcript and a list of input events are fused
 * into a context record; a fixed chain of case-insensitive substring rules
 * maps the context to a task label, its steps, an automation tier and a
 * confidence; a threshold turns a confident result into an automation
 * suggestion. Screen rules are tried first (Excel, then browsers, then file
 * management, else general use); a spoken command then overrides the task,
 * tier and confidence, but never the steps.
 */
module BehaviorAnalysis {
  import opened Text
  import opened Models

  // ---------------------------------------------------------------------
  // Data model
  // ---------------------------------------------------------------------

  /** The screen-capture dictionary; each key may be missing. */
  datatype ScreenSample = ScreenSample(
    activeWindow: Option<string>,
    windowTitle: Option<string>,
    mouseX: Option<int>,
    mouseY: Option<int>)

  /** The transcript dictionary; only its text is read. */
  datatype Transcript = Transcript(text: Option<string>)

  /** The fused observation of one tick. */
  datatype Context = Context(
    currentWindow: string,
    windowTitle: string,
    mousePosition: string,
    audioCommand: string,
    recentActions: seq<string>)

  datatype Potential = High | Medium | Low

  datatype Analysis = Analysis(
    currentTask: string,
    observedSteps: seq<string>,
    automationPotential: Potential,
    confidence: real,
    recommendation: string)

  datatype Suggestion = Suggestion(
    workflowName: string,
    description: string,
    confidence: real,
    recommendedActions: seq<string>)

  /** What one call of the analyser returns; the timestamp is supplied by the caller. */
  datatype Report = Report(
    timestamp: string,
    analysis: Analysis,
    automationSuggestion: Option<Suggestion>,
    context: Context)

  // ---------------------------------------------------------------------
  // Constants of the rule table
  // ---------------------------------------------------------------------

  /** How many of the latest input events the context keeps. */
  const RecentWindow: nat := 5

  /** A result becomes a suggestion only strictly above this confidence. */
  const SuggestionThreshold: real := 0.7

  const ExcelTask: string := "Excel Data Processing"
  const WebTask: string := "Web Browsing"
  const FileTask: string := "File Management"
  const GeneralTask: string := "General Computer Usage"
  const OpenExcelTask: string := "Opening Excel Application"
  const SaveTask: string := "Saving Document"
  const CreateTask: string := "Creating New Document"

  const ExcelSteps: seq<string> := ["Opening Excel", "Entering data", "Applying formulas", "Saving file"]
  const WebSteps: seq<string> := ["Navigating websites", "Filling forms", "Searching information"]
  const FileSteps: seq<string> := ["Opening files", "Moving files", "Renaming files"]
  const GeneralSteps: seq<string> := ["Various desktop activities"]

  /** The tier and confidence that go with every task label the rules can produce. */
  const TaskTiers: map<string, (Potential, real)> := map[
    ExcelTask := (High, 0.8),
    WebTask := (Medium, 0.6),
    FileTask := (High, 0.7),
    GeneralTask := (Low, 0.3),
    OpenExcelTask := (High, 0.9),
    SaveTask := (High, 0.9),
    CreateTask := (High, 0.8)]

  // ---------------------------------------------------------------------
  // Keyword tests, each on the lower-cased context fields
  // ---------------------------------------------------------------------

  predicate ExcelInView(ctx: Context) {
    Contains(Lower(ctx.currentWindow), "excel") || Contains(Lower(ctx.windowTitle), "excel")
  }

  predicate BrowserInView(ctx: Context) {
    var w := Lower(ctx.currentWindow);
    Contains(w, "chrome") || Contains(w, "browser") || Contains(w, "mozilla")
  }

  predicate FilesInView(ctx: Context) {
    Contains(Lower(ctx.currentWindow), "explorer")
    || Contains(Lower(ctx.windowTitle), "folder")
    || Contains(Lower(ctx.windowTitle), "file")
  }

  predicate OpenExcelSaid(ctx: Context) {
    var a := Lower(ctx.audioCommand);
    Contains(a, "open") && Contains(a, "excel")
  }

  predicate SaveFileSaid(ctx: Context) {
    var a := Lower(ctx.audioCommand);
    Contains(a, "save") && Contains(a, "file")
  }

  predicate CreateDocumentSaid(ctx: Context) {
    var a := Lower(ctx.audioCommand);
    Contains(a, "create") && Contains(a, "document")
  }

  /** Some spoken command overrides the screen result. */
  predicate CommandSaid(ctx: Context) {
    OpenExcelSaid(ctx) || SaveFileSaid(ctx) || CreateDocumentSaid(ctx)
  }

  // ---------------------------------------------------------------------
  // Context builder
  // ---------------------------------------------------------------------

  /** The event types of the last (at most) five events, oldest first. */
  function RecentActions(events: seq<InputEvent>): (r: seq<string>)
    ensures |r| == if |events| < RecentWindow then |events| else RecentWindow
    ensures forall i :: 0 <= i < |r| ==> r[i] == events[|events| - |r| + i].eventType
  {
    var last := if |events| <= RecentWindow then events else events[|events| - RecentWindow..];
    seq(|last|, i requires 0 <= i < |last| => last[i].eventType)
  }

  /** The default position "0,0" is the rendering of the origin. */
  lemma OriginPair()
    ensures ParsePair("0,0") == Some((0, 0))
  {
    assert FormatPair(0, 0) == "0,0";
    FormatPairRoundTrip(0, 0);
  }

  /** The "x,y" mouse position of a sample (a missing coordinate read as 0), or "0,0" without one. */
  function MousePosition(screen: Option<ScreenSample>): (p: string)
    ensures screen.None? ==> p == "0,0"
    ensures ParsePair(p) == Some(if screen.Some? then (screen.value.mouseX.GetOr(0), screen.value.mouseY.GetOr(0)) else (0, 0))
  {
    match screen
    case None =>
      OriginPair();
      "0,0"
    case Some(s) =>
      var x, y := s.mouseX.GetOr(0), s.mouseY.GetOr(0);
      FormatPairRoundTrip(x, y);
      FormatPair(x, y)
  }

  function BuildContext(screen: Option<ScreenSample>, audio: Option<Transcript>, events: seq<InputEvent>): (c: Context)
    ensures screen.None? ==> c.currentWindow == "Unknown" && c.windowTitle == "Unknown" && c.mousePosition == "0,0"
    ensures screen.Some? ==> c.currentWindow == screen.value.activeWindow.GetOr("Unknown")
    ensures screen.Some? ==> c.windowTitle == screen.value.windowTitle.GetOr("Unknown")
    ensures screen.Some? ==>
              ParsePair(c.mousePosition) == Some((screen.value.mouseX.GetOr(0), screen.value.mouseY.GetOr(0)))
    ensures ParsePair(c.mousePosition).Some?
    ensures c.audioCommand == if audio.Some? then audio.value.text.GetOr("") else ""
    ensures c.recentActions == RecentActions(events)
  {
    Context(
      if screen.Some? then screen.value.activeWindow.GetOr("Unknown") else "Unknown",
      if screen.Some? then screen.value.windowTitle.GetOr("Unknown") else "Unknown",
      MousePosition(screen),
      if audio.Some? then audio.value.text.GetOr("") else "",
      RecentActions(events))
  }

  // ---------------------------------------------------------------------
  // Rule chain
  // ---------------------------------------------------------------------

  /** The task, steps, tier and confidence chosen by the screen rules alone. */
  datatype Profile = Profile(task: string, steps: seq<string>, potential: Potential, confidence: real)

  function ScreenProfile(ctx: Context): Profile
  {
    if ExcelInView(ctx) then Profile(ExcelTask, ExcelSteps, High, 0.8)
    else if BrowserInView(ctx) then Profile(WebTask, WebSteps, Medium, 0.6)
    else if FilesInView(ctx) then Profile(FileTask, FileSteps, High, 0.7)
    else Profile(GeneralTask, GeneralSteps, Low, 0.3)
  }

  /** A spoken command replaces task, tier and confidence, keeping the steps. */
  function VoiceOverride(ctx: Context, p: Profile): Profile
  {
    if OpenExcelSaid(ctx) then p.(task := OpenExcelTask, potential := High, confidence := 0.9)
    else if SaveFileSaid(ctx) then p.(task := SaveTask, potential := High, confidence := 0.9)
    else if CreateDocumentSaid(ctx) then p.(task := CreateTask, potential := High, confidence := 0.8)
    else p
  }

  function Recommendation(task: string): string {
    "Consider automating this " + task + " workflow"
  }

  function GenerateAnalysis(ctx: Context): (r: Analysis)
    // tier and confidence are fixed per task label; confidence is one of five constants
    ensures r.currentTask in TaskTiers
    ensures (r.automationPotential, r.confidence) == TaskTiers[r.currentTask]
    ensures r.confidence in {0.3, 0.6, 0.7, 0.8, 0.9} && 0.3 <= r.confidence <= 0.9
    ensures r.recommendation == "Consider automating this " + r.currentTask + " workflow"
    // spoken commands, in their order of precedence, win over the screen
    ensures r.currentTask == OpenExcelTask <==> OpenExcelSaid(ctx)
    ensures r.currentTask == SaveTask <==> !OpenExcelSaid(ctx) && SaveFileSaid(ctx)
    ensures r.currentTask == CreateTask <==> !OpenExcelSaid(ctx) && !SaveFileSaid(ctx) && CreateDocumentSaid(ctx)
    // otherwise the screen rules decide, Excel first
    ensures r.currentTask == ExcelTask <==> !CommandSaid(ctx) && ExcelInView(ctx)
    ensures r.currentTask == WebTask <==> !CommandSaid(ctx) && !ExcelInView(ctx) && BrowserInView(ctx)
    ensures r.currentTask == FileTask <==>
              !CommandSaid(ctx) && !ExcelInView(ctx) && !BrowserInView(ctx) && FilesInView(ctx)
    ensures r.currentTask == GeneralTask <==>
              !CommandSaid(ctx) && !ExcelInView(ctx) && !BrowserInView(ctx) && !FilesInView(ctx)
    // the steps always come from the screen rules
    ensures r.observedSteps == ExcelSteps <==> ExcelInView(ctx)
    ensures r.observedSteps == WebSteps <==> !ExcelInView(ctx) && BrowserInView(ctx)
    ensures r.observedSteps == FileSteps <==> !ExcelInView(ctx) && !BrowserInView(ctx) && FilesInView(ctx)
    ensures r.observedSteps == GeneralSteps <==>
              !ExcelInView(ctx) && !BrowserInView(ctx) && !FilesInView(ctx)
  {
    var p := VoiceOverride(ctx, ScreenProfile(ctx));
    Analysis(p.task, p.steps, p.potential, p.confidence, Recommendation(p.task))
  }

  function CheckAutomationPatterns(a: Analysis): (r: Option<Suggestion>)
    ensures r.Some? <==> a.confidence > SuggestionThreshold
    ensures r.Some? ==> r.value.workflowName == a.currentTask
    ensures r.Some? ==> r.value.description == "Automate " + a.currentTask
    ensures r.Some? ==> r.value.confidence == a.confidence && r.value.recommendedActions == a.observedSteps
  {
    if a.confidence > SuggestionThreshold then
      Some(Suggestion(a.currentTask, "Automate " + a.currentTask, a.confidence, a.observedSteps))
    else
      None
  }

  /** One classification: fuse, analyse, check for a suggestion. */
  function AnalyzeBehavior(screen: Option<ScreenSample>, audio: Option<Transcript>,
                           events: seq<InputEvent>, timestamp: string): (r: Report)
    ensures r.timestamp == timestamp
    ensures r.context == BuildContext(screen, audio, events)
    ensures r.analysis == GenerateAnalysis(r.context)
    ensures r.automationSuggestion == CheckAutomationPatterns(r.analysis)
    // a suggestion appears exactly when Excel is on screen or a command was spoken
    ensures r.automationSuggestion.Some? <==> ExcelInView(r.context) || CommandSaid(r.context)
  {
    var context := BuildContext(screen, audio, events);
    var analysis := GenerateAnalysis(context);
    Report(timestamp, analysis, CheckAutomationPatterns(analysis), context)
  }

  // ---------------------------------------------------------------------
  // Properties relating several calls
  // ---------------------------------------------------------------------

  function LowerContext(ctx: Context): Context {
    ctx.(currentWindow := Lower(ctx.currentWindow),
         windowTitle := Lower(ctx.windowTitle),
         audioCommand := Lower(ctx.audioCommand))
  }

  /** Matching is case-insensitive: lower-casing the inputs first changes nothing. */
  lemma AnalysisIgnoresCase(ctx: Context)
    ensures GenerateAnalysis(LowerContext(ctx)) == GenerateAnalysis(ctx)
  {
    LowerIdempotent(ctx.currentWindow);
    LowerIdempotent(ctx.windowTitle);
    LowerIdempotent(ctx.audioCommand);
  }

  /** Whatever is said, the steps are those of the screen rules. */
  lemma SpeechKeepsSteps(ctx: Context, audio: string)
    ensures GenerateAnalysis(ctx.(audioCommand := audio)).observedSteps == GenerateAnalysis(ctx).observedSteps
  {
  }

  /** An upper-case "EXCEL" as the window name still selects the Excel rule. */
  lemma UpperCaseExcelWindow(title: string)
    ensures var ctx := Context("EXCEL", title, "0,0", "", []);
            GenerateAnalysis(ctx).currentTask == ExcelTask
            && CheckAutomationPatterns(GenerateAnalysis(ctx)).Some?
  {
    var ctx := Context("EXCEL", title, "0,0", "", []);
    assert Lower("EXCEL") == "excel";
    assert ExcelInView(ctx);
    assert Lower("") == "";
    assert !CommandSaid(ctx);
  }

  /** The "Unknown" placeholder lower-cases to "unknown". */
  lemma LowerUnknown()
    ensures Lower("Unknown") == "unknown"
  {
    var r := Lower("Unknown");
    assert |r| == 7 && r[0] == 'u';
    assert r[1..] == "nknown";
  }

  /** A keyword that starts with a letter absent from "unknown" is not found in the placeholder. */
  lemma PlaceholderLacks(w: string, sub: string)
    requires w == "Unknown" && |sub| > 0 && sub[0] !in "unknown"
    ensures !Contains(Lower(w), sub)
  {
    LowerUnknown();
    AbsentFirstCharNotContained("unknown", sub);
  }

  /** The "Unknown" placeholder contains none of the screen keywords. */
  lemma UnknownIsNotExcel(ctx: Context)
    requires ctx.currentWindow == "Unknown" && ctx.windowTitle == "Unknown"
    ensures !ExcelInView(ctx)
  {
    PlaceholderLacks(ctx.currentWindow, "excel");
    PlaceholderLacks(ctx.windowTitle, "excel");
  }

  lemma UnknownIsNotBrowser(ctx: Context)
    requires ctx.currentWindow == "Unknown"
    ensures !BrowserInView(ctx)
  {
    PlaceholderLacks(ctx.currentWindow, "chrome");
    PlaceholderLacks(ctx.currentWindow, "browser");
    PlaceholderLacks(ctx.currentWindow, "mozilla");
  }

  lemma UnknownIsNotFiles(ctx: Context)
    requires ctx.currentWindow == "Unknown" && ctx.windowTitle == "Unknown"
    ensures !FilesInView(ctx)
  {
    PlaceholderLacks(ctx.currentWindow, "explorer");
    PlaceholderLacks(ctx.windowTitle, "folder");
    PlaceholderLacks(ctx.windowTitle, "file");
  }

  /** With no screen sample the general rule fires unless a command is heard. */
  lemma NoScreenMeansGeneralUse(audio: Option<Transcript>, events: seq<InputEvent>)
    ensures var ctx := BuildContext(None, audio, events);
            !CommandSaid(ctx) ==> GenerateAnalysis(ctx).currentTask == GeneralTask
  {
    var ctx := BuildContext(None, audio, events);
    UnknownIsNotExcel(ctx);
    UnknownIsNotBrowser(ctx);
    UnknownIsNotFiles(ctx);
  }
}
