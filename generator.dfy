/** The stateful half of the panel: the component's four fields, the handlers
    that change them, and the processing lifecycle, with the remote call
    reduced to its settled outcome. */
module Generator {
  import opened Text
  import opened Table

  /** An event the component dispatches: a toast, or the data table's
      refresh signal. */
  datatype Event = Toast(title: string, message: string, variant: string) | Refresh

  /** The request handed to the processing service: the pasted text and the
      picked schema (`input` and `type` in the call). */
  datatype Request = Request(input: string, schema: string)

  /** How the processing call settled: with the records it produced, or with
      an error whose cause is not inspected. */
  datatype CallOutcome = Resolved(records: seq<Row>) | Rejected

  /** How the legacy copy command ended: it reported success, it reported
      failure, or it raised. */
  datatype CopyCommand = Copied | NotCopied | Threw

  /** How handing the text to the clipboard ended: the secure clipboard
      accepted it, or it refused it or was unavailable and the legacy copy
      command ran instead. */
  datatype ClipboardOutcome =
    | Written
    | WriteRejected(command: CopyCommand)
    | NoSecureClipboard(command: CopyCommand)

  const ProcessedToast := Toast("Success", "Data processed successfully!", "success")
  const ProcessFailedToast := Toast("Error", "Error processing data. Please try again.", "error")
  const NoDataToast := Toast("Error", "No data to copy!", "error")
  const CopiedToast := Toast("Success", "Table content copied to clipboard!", "success")
  const CopyFailedToast := Toast("Error", "Failed to copy table content.", "error")

  /** The toast of the legacy copy path: success exactly when the command
      reported success; a refusal and a raised error read the same. */
  function FallbackToast(command: CopyCommand): (e: Event)
    ensures e.Toast? && (e.variant == "success" <==> command == Copied)
    ensures command != Copied ==> e == CopyFailedToast
  {
    if command == Copied then CopiedToast else CopyFailedToast
  }

  /** The toast that ends a copy of a non-empty table: success exactly when
      the secure clipboard took the text or the legacy command reported
      success. */
  function ClipboardToast(outcome: ClipboardOutcome): (e: Event)
    ensures e.Toast?
    ensures e == CopiedToast <==> outcome.Written? || outcome.command == Copied
    ensures e != CopiedToast ==> e == CopyFailedToast
  {
    match outcome
    case Written => CopiedToast
    case WriteRejected(command) => FallbackToast(command)
    case NoSecureClipboard(command) => FallbackToast(command)
  }

  /** The test-case generator panel. */
  class TestCaseGenerator {
    /** The pasted free-form text. */
    var inputData: string
    /** The picked schema, "" until one is picked. */
    var selectedOption: string
    /** The rows shown in the data table. */
    var tableData: seq<Row>
    /** The busy flag: set when a processing call starts, cleared when any
        call settles. */
    var isProcessing: bool
    /** The events dispatched so far, oldest first. */
    ghost var events: seq<Event>
    /** Processing calls started and not yet settled. */
    ghost var inFlight: nat
    /** Set once the success or the failure branch of a settling call has run,
        until the branch that always runs follows it. */
    ghost var branchTaken: bool

    constructor ()
      ensures inputData == "" && selectedOption == "" && tableData == [] && !isProcessing
      ensures events == [] && inFlight == 0 && !branchTaken
      ensures Quiet()
    {
      inputData := "";
      selectedOption := "";
      tableData := [];
      isProcessing := false;
      events := [];
      inFlight := 0;
      branchTaken := false;
    }

    /** What the process button's guard maintains when every call is started
        from the enabled button: at most one call is outstanding, and the busy
        flag is set exactly while it is. (`ProcessData` itself has no guard,
        so an unguarded second start can leave one call outstanding with the
        flag already cleared.) */
    ghost predicate Quiet()
      reads this
    {
      inFlight <= 1 && (isProcessing <==> inFlight == 1)
    }

    /** The process button is disabled exactly while the busy flag is set,
        while the text is blank, or while no schema is picked. While the panel
        is quiet, an enabled button means no call is outstanding. */
    function IsProcessButtonDisabled(): (disabled: bool)
      reads this
      ensures disabled <==> isProcessing || AllWhitespace(inputData) || selectedOption == ""
      ensures Quiet() && !disabled ==> inFlight == 0
    {
      isProcessing || Trim(inputData) == "" || selectedOption == ""
    }

    /** The copy button is disabled exactly when the table is empty, which is
        exactly when the export would be refused. */
    function IsCopyButtonDisabled(): (disabled: bool)
      reads this
      ensures disabled <==> tableData == []
      ensures disabled <==> Export(tableData, ExportColumns(selectedOption)).Failure?
    {
      |tableData| == 0
    }

    /** The text area changed: only the stored text follows it. */
    method HandleInputChange(value: string)
      modifies this`inputData
      ensures inputData == value
      ensures selectedOption == old(selectedOption) && tableData == old(tableData)
      ensures isProcessing == old(isProcessing) && events == old(events)
      ensures old(Quiet()) ==> Quiet()
    {
      inputData := value;
    }

    /** The schema picker changed: the choice is stored, the table is
        emptied whatever it held, and the data table is told to refresh. */
    method HandleOptionChange(value: string)
      modifies this`selectedOption, this`tableData, this`events
      ensures selectedOption == value && tableData == []
      ensures events == old(events) + [Refresh]
      ensures inputData == old(inputData) && isProcessing == old(isProcessing)
      ensures IsCopyButtonDisabled()
      ensures old(Quiet()) ==> Quiet()
    {
      selectedOption := value;
      tableData := [];
      ShowRefresh();
    }

    /** Starts a processing call: the panel is marked busy and the table is
        emptied before the request goes out, so both buttons are disabled
        until the call settles. Returns the request handed to the service.
        Started from the enabled button of a quiet panel, it leaves exactly one
        call outstanding, so no second call can start before it settles. */
    method ProcessData() returns (request: Request)
      modifies this`isProcessing, this`tableData, this`inFlight
      ensures isProcessing && tableData == []
      ensures inFlight == old(inFlight) + 1
      ensures request == Request(inputData, selectedOption)
      ensures IsProcessButtonDisabled() && IsCopyButtonDisabled()
      ensures old(Quiet() && !IsProcessButtonDisabled()) ==> Quiet() && inFlight == 1
    {
      isProcessing := true;
      tableData := [];
      request := Request(inputData, selectedOption);
      inFlight := inFlight + 1;
    }

    /** The call produced records: the table becomes one row per record, in
        order, each carrying its position as `id`. This is the first step of
        `Complete`, which callers use: the continuations of one call run back
        to back, before any user event. */
    method ResolveProcessing(records: seq<Row>)
      requires inFlight > 0 && !branchTaken
      modifies this`tableData, this`events, this`branchTaken
      ensures tableData == Tagged(records)
      ensures events == old(events) + [ProcessedToast]
      ensures branchTaken
    {
      tableData := Tagged(records);
      branchTaken := true;
      ShowToast("Success", "Data processed successfully!", "success");
    }

    /** The call failed: an error is reported and the table is left as it is.
        This is the first step of `Complete`, which callers use: the
        continuations of one call run back to back, before any user event. */
    method RejectProcessing()
      requires inFlight > 0 && !branchTaken
      modifies this`events, this`branchTaken
      ensures events == old(events) + [ProcessFailedToast]
      ensures branchTaken
    {
      branchTaken := true;
      ShowToast("Error", "Error processing data. Please try again.", "error");
    }

    /** Runs after the success or the failure branch, whichever way the call
        settled: the panel is no longer busy. This is the last step of
        `Complete`, which callers use: the continuations of one call run back
        to back, before any user event. */
    method SettleProcessing()
      requires inFlight > 0 && branchTaken
      modifies this`isProcessing, this`inFlight, this`branchTaken
      ensures !isProcessing && inFlight == old(inFlight) - 1
      ensures !branchTaken
    {
      isProcessing := false;
      inFlight := inFlight - 1;
      branchTaken := false;
    }

    /** The continuations of one outstanding call, in the order they run: the
        success or the failure branch, then the one that always runs. A quiet
        panel stays quiet, with no call outstanding afterwards. */
    method Complete(outcome: CallOutcome)
      requires inFlight > 0 && !branchTaken
      modifies this`tableData, this`events, this`isProcessing, this`inFlight, this`branchTaken
      ensures tableData == if outcome.Resolved? then Tagged(outcome.records) else old(tableData)
      ensures events == old(events) + [if outcome.Resolved? then ProcessedToast else ProcessFailedToast]
      ensures !isProcessing && inFlight == old(inFlight) - 1
      ensures inputData == old(inputData) && selectedOption == old(selectedOption)
      ensures !branchTaken
      ensures old(Quiet()) ==> Quiet() && inFlight == 0
    {
      match outcome {
        case Resolved(records) => ResolveProcessing(records);
        case Rejected => RejectProcessing();
      }
      SettleProcessing();
    }

    /** The copy button: an empty table is refused with an error and nothing
        reaches the clipboard; otherwise the export of the table under the
        picked schema's columns is handed to the clipboard, and the toast
        follows how the clipboard took it. Returns what was handed over. */
    method CopyTableContent(clipboard: ClipboardOutcome) returns (handed: Result<string, ExportError>)
      modifies this`events
      ensures handed == Export(tableData, ExportColumns(selectedOption))
      ensures handed.Failure? <==> tableData == []
      ensures events == old(events) + [if handed.Failure? then NoDataToast else ClipboardToast(clipboard)]
    {
      if |tableData| == 0 {
        ShowToast("Error", "No data to copy!", "error");
        return Failure(NoData);
      }
      handed := Export(tableData, ExportColumns(selectedOption));
      match clipboard {
        case Written =>
          ShowToast("Success", "Table content copied to clipboard!", "success");
        case WriteRejected(command) =>
          FallbackCopyTextToClipboard(handed.value, command);
        case NoSecureClipboard(command) =>
          FallbackCopyTextToClipboard(handed.value, command);
      }
    }

    /** The legacy copy path for `text`: the toast follows the command's
        result, and a raised error is reported like a refusal. */
    method FallbackCopyTextToClipboard(text: string, command: CopyCommand)
      modifies this`events
      ensures events == old(events) + [FallbackToast(command)]
    {
      match command {
        case Copied =>
          ShowToast("Success", "Table content copied to clipboard!", "success");
        case NotCopied =>
          ShowToast("Error", "Failed to copy table content.", "error");
        case Threw =>
          ShowToast("Error", "Failed to copy table content.", "error");
      }
    }

    /** Dispatches one toast. */
    method ShowToast(title: string, message: string, variant: string)
      modifies this`events
      ensures events == old(events) + [Toast(title, message, variant)]
    {
      events := events + [Toast(title, message, variant)];
    }

    /** Dispatches the data table's refresh signal. */
    method ShowRefresh()
      modifies this`events
      ensures events == old(events) + [Refresh]
    {
      events := events + [Refresh];
    }
  }

  /** A fresh panel, filled in and submitted, whose call fails at once: the
      request carries the text and schema, the table stays empty, and the
      process button is enabled again. */
  method SubmitThenReject(input: string, option: string)
    returns (request: Request, table: seq<Row>, processEnabled: bool)
    requires !AllWhitespace(input) && option != ""
    ensures request == Request(input, option)
    ensures table == [] && processEnabled
  {
    var panel := new TestCaseGenerator();
    panel.HandleInputChange(input);
    panel.HandleOptionChange(option);
    request := panel.ProcessData();
    panel.Complete(Rejected);
    table := panel.tableData;
    processEnabled := !panel.IsProcessButtonDisabled();
  }

  /** A fresh panel, filled in and submitted, whose call returns `records`,
      then copied: one row per record with its index as `id`, and the
      clipboard receives exactly the export of the records themselves under
      the picked schema's columns. */
  method SubmitThenCopy(input: string, option: string, records: seq<Row>)
    returns (table: seq<Row>, handed: Result<string, ExportError>)
    requires !AllWhitespace(input) && option != ""
    ensures |table| == |records|
    ensures table == Tagged(records)
    ensures forall i :: 0 <= i < |table| && "id" !in records[i] ==> "id" in table[i] && table[i]["id"] == Num(i)
    ensures handed == Export(records, ExportColumns(option))
  {
    var panel := new TestCaseGenerator();
    panel.HandleInputChange(input);
    panel.HandleOptionChange(option);
    var request := panel.ProcessData();
    panel.Complete(Resolved(records));
    table := panel.tableData;
    handed := panel.CopyTableContent(Written);
    TaggingNotExported(records, ExportColumns(option));
  }

  /** A schema change while a call is outstanding empties the table, but the
      call's records still land in it when it settles, under the new schema. */
  method OptionChangeWhileProcessing(input: string, records: seq<Row>)
    returns (option: string, table: seq<Row>)
    ensures option == "Narwhale" && table == Tagged(records)
  {
    var panel := new TestCaseGenerator();
    panel.HandleInputChange(input);
    panel.HandleOptionChange("GUS");
    var request := panel.ProcessData();
    panel.HandleOptionChange("Narwhale");
    panel.Complete(Resolved(records));
    option := panel.selectedOption;
    table := panel.tableData;
  }
}
