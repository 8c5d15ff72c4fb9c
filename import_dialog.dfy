/**
 * The realtime database's "Import JSON" dialog: it holds the chosen file,
 * whether database triggers should run, whether an import is in progress
 * and the last import error, and on submit imports the file at the
 * dialog's location.
 */
module ImportDialog {
  import opened Js
  import opened EmulatorConfig

  datatype File = File(name: string)

  /** The database location the dialog imports into. */
  datatype DatabaseRef = DatabaseRef(url: string)

  /** How the import call ends: it resolves, or rejects with an error whose
      `message` may be undefined. */
  datatype ImportOutcome = Imported | ImportFailed(message: Option<string>)

  /** What a handler does, in order: state updates, the import call and the
      `onComplete` callback. */
  datatype DialogEvent =
    | SetIsImporting(importing: bool)
    | ImportFile(reference: DatabaseRef, file: File, disableTriggers: bool)
    | OnComplete(completedAt: Option<DatabaseRef>, completedFile: Option<File>)
    | SetError(message: Option<string>)

  /** `!!useConfig().functions`. */
  predicate FunctionsEmulatorRunning(config: Config) {
    config.functions.Some?
  }

  /** Database triggers run in the functions emulator only when it is
      running and the user asked for them. */
  function DisableTriggers(functionsEmulatorRunning: bool, executeFunctions: bool): (disable: bool)
    ensures !disable <==> functionsEmulatorRunning && executeFunctions
  {
    !functionsEmulatorRunning || !executeFunctions
  }

  /** What `onSubmit` does from a state with this file and checkbox. */
  function SubmitEvents(
    reference: DatabaseRef, file: Option<File>, executeFunctions: bool,
    functionsEmulatorRunning: bool, outcome: ImportOutcome): (events: seq<DialogEvent>)
    ensures file.None? ==> events == []
    ensures file.Some? ==>
      && |events| == 4
      && events[0] == SetIsImporting(true)
      && events[1] == ImportFile(reference, file.value, DisableTriggers(functionsEmulatorRunning, executeFunctions))
      && events[3] == SetIsImporting(false)
    ensures OnComplete(Some(reference), file) in events <==> file.Some? && outcome.Imported?
    ensures forall e :: e in events && e.OnComplete? ==> e == OnComplete(Some(reference), file)
    ensures forall m :: SetError(m) in events <==> file.Some? && outcome == ImportFailed(m)
  {
    if file.None? then []
    else
      [SetIsImporting(true), ImportFile(reference, file.value, DisableTriggers(functionsEmulatorRunning, executeFunctions))]
      + (if outcome.Imported? then [OnComplete(Some(reference), file)] else [SetError(outcome.message)])
      + [SetIsImporting(false)]
  }

  const DROP_HINT := "Drop a file, or click to select"

  class ImportDialogState {
    const reference: DatabaseRef
    var file: Option<File>
    var executeFunctions: bool
    var isImporting: bool
    var error: Option<string>

    /** The dialog opens with the dropped file (if any), triggers off, idle and without error. */
    constructor (reference: DatabaseRef, droppedFile: Option<File>)
      ensures this.reference == reference
      ensures file == droppedFile && !executeFunctions && !isImporting && error.None?
      ensures !ShowsSpinner(this)
    {
      this.reference := reference;
      file := droppedFile;
      executeFunctions := false;
      isImporting := false;
      error := None;
    }

    /** `onSubmit`, with the import call's outcome given. Without a file it
        does nothing; otherwise it imports, calls `onComplete` on success or
        keeps the error message on failure, and ends idle. */
    method Submit(functionsEmulatorRunning: bool, outcome: ImportOutcome) returns (events: seq<DialogEvent>)
      modifies this
      ensures events == SubmitEvents(reference, old(file), old(executeFunctions), functionsEmulatorRunning, outcome)
      ensures file == old(file) && executeFunctions == old(executeFunctions)
      ensures old(file).None? ==> isImporting == old(isImporting) && error == old(error)
      ensures old(file).Some? ==> !isImporting && !ShowsSpinner(this)
      ensures old(file).Some? && outcome.ImportFailed? ==> error == outcome.message
      ensures outcome.Imported? ==> error == old(error)
    {
      events := [];
      if file.Some? {
        isImporting := true;
        events := events + [SetIsImporting(true)];
        var disableTriggers := !functionsEmulatorRunning || !executeFunctions;
        events := events + [ImportFile(reference, file.value, disableTriggers)];
        if outcome.Imported? {
          events := events + [OnComplete(Some(reference), file)];
        } else {
          error := outcome.message;
          events := events + [SetError(outcome.message)];
        }
        isImporting := false;
        events := events + [SetIsImporting(false)];
      }
    }

    /** The file field's `onFiles`: the first file chosen, `undefined` for none. */
    method SelectFiles(files: seq<File>)
      modifies this`file
      ensures file == (if |files| > 0 then Some(files[0]) else None)
    {
      file := if |files| > 0 then Some(files[0]) else None;
    }

    /** The checkbox's `onChange`. */
    method SetExecuteFunctions(checked: bool)
      modifies this`executeFunctions
      ensures executeFunctions == checked
    {
      executeFunctions := checked;
    }

    /** Closing the dialog reports completion without a location or a file,
        and changes nothing. */
    method Close() returns (events: seq<DialogEvent>)
      ensures events == [OnComplete(None, None)]
    {
      events := [OnComplete(None, None)];
    }

    /** The file field shows the chosen file's name, or a hint. */
    function FileFieldText(): (text: string)
      reads this
      ensures file.Some? && file.value.name != "" ==> text == file.value.name
      ensures file.None? || file.value.name == "" ==> text == DROP_HINT
    {
      OrElse(if file.Some? then Some(file.value.name) else None, DROP_HINT)
    }
  }

  /** The checkbox is offered only when the functions emulator is running. */
  predicate ShowsTriggerCheckbox(config: Config) {
    FunctionsEmulatorRunning(config)
  }

  /** The "Importing..." spinner covers the dialog exactly while importing. */
  predicate ShowsSpinner(dialog: ImportDialogState)
    reads dialog
  {
    dialog.isImporting
  }

  /** Where the checkbox is not offered, because the functions emulator is
      not running, an import never runs database triggers. */
  lemma HiddenCheckboxDisablesTriggers(
    config: Config, reference: DatabaseRef, file: File, executeFunctions: bool, outcome: ImportOutcome)
    requires !ShowsTriggerCheckbox(config)
    ensures SubmitEvents(reference, Some(file), executeFunctions, FunctionsEmulatorRunning(config), outcome)[1].disableTriggers
  {
  }
}
