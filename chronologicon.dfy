/**
 * The log lifecycle of chronologicon: the single in-progress slot temp.json,
 * the logs.json collection StopLog appends to, and the statistics it
 * recomputes afterwards. One object is one process: the module-level
 * CUR_LOG and CUR_STATS start from their initial values, the files hold
 * whatever earlier invocations left.
 */
module Chronologicon {
  import opened Wrappers
  import opened Entries
  import opened LogsFile
  import opened Statistics
  import opened LocalTime

  /**
   * temp.json, by its size in bytes (what StartLog tests) and by the log
   * `json.load` reads from it (what Status and StopLog use); `log` is None
   * when the file is empty, missing or holds no log.
   */
  datatype SlotFile = SlotFile(size: nat, log: Option<Log>)

  /** temp.json after CancelLog has written the empty string into it. */
  const EmptySlot := SlotFile(0, None)

  /** The slot counts as occupied above this many bytes. */
  const OccupiedThreshold := 10

  /**
   * A slot that holds a log is larger than ten bytes, as every serialization
   * of the six-key dict is; only an empty or unparseable file is smaller.
   */
  predicate WellSized(s: SlotFile)
  {
    s.log.Some? ==> s.size > OccupiedThreshold
  }

  datatype StartOutcome =
    | NotEnoughInformation   // fewer than two arguments
    | AlreadyInProgress      // temp.json is larger than ten bytes
    | StartFailed            // temp.json could not be written
    | Started(log: Log)

  datatype StopOutcome =
    | NoLogInProgress        // temp.json holds no log
    | SaveFailed             // logs.json cannot be opened for update, or is missing or empty
    | Recorded(entry: Log)

  datatype StatusReport = Idle | InProgress(disc: string, proj: string)

  /**
   * Serializations are opaque; what the code relies on is that a log is
   * written into temp.json in more than ten bytes and into logs.json in more
   * than eight, which holds of every `json.dumps` of the six-key dict.
   */
  ghost predicate LongEncodings(dumps: Log -> string, dumpsIndented: Log -> string)
  {
    forall l :: |dumps(l)| > OccupiedThreshold && |dumpsIndented(l)| > 8
  }

  class Chron {
    /** `json.dumps(log)`, the text StartLog writes into temp.json. */
    const dumps: Log -> string
    /** `json.dumps(log, indent=4)`, the text StopLog appends to logs.json. */
    const dumpsIndented: Log -> string
    /** The local hour of an instant, `strftime("%H", localtime(...))`. */
    const hourOf: int -> string
    /** Whether temp.json can be opened for writing. */
    const tempWritable: bool
    /** Whether logs.json can be opened for update ('rb+'), when it exists. */
    const logsWritable: bool
    /** The module-level CUR_STATS. */
    const stats: Stats

    /** The module-level CUR_LOG. */
    var curLog: Log
    var slot: SlotFile
    /** The bytes of logs.json; empty when the file is empty or missing. */
    var logsText: string
    /** The entries `json.load` reads from logs.json. */
    var logs: seq<Log>
    /** The snapshot last written to stat.json, if any. */
    var statsFile: Option<Snapshot>

    ghost predicate Valid()
      reads this
    {
      && LongEncodings(dumps, dumpsIndented)
      && IsHourFunction(hourOf)
      && WellSized(slot)
      && (if logsText == [] then logs == [] else logsText == CollectionText(logs, dumpsIndented))
    }

    /** Loading the module: CUR_LOG and CUR_STATS take their initial values; the files are as found. */
    constructor (dumps: Log -> string, dumpsIndented: Log -> string, hourOf: int -> string,
                 tempWritable: bool, logsWritable: bool, slot: SlotFile, logs: Option<seq<Log>>, statsFile: Option<Snapshot>)
      requires LongEncodings(dumps, dumpsIndented)
      requires IsHourFunction(hourOf)
      requires WellSized(slot)
      ensures Valid() && fresh(stats)
      ensures this.dumps == dumps && this.dumpsIndented == dumpsIndented
      ensures this.hourOf == hourOf && this.tempWritable == tempWritable && this.logsWritable == logsWritable
      ensures curLog == ZeroLog && stats.Value() == Zero
      ensures this.slot == slot && this.statsFile == statsFile
      ensures this.logs == (if logs.Some? then logs.value else [])
      ensures logsText == (if logs.Some? then CollectionText(logs.value, dumpsIndented) else [])
    {
      this.dumps, this.dumpsIndented := dumps, dumpsIndented;
      this.hourOf, this.tempWritable, this.logsWritable := hourOf, tempWritable, logsWritable;
      stats := new Stats();
      curLog := ZeroLog;
      this.slot, this.statsFile := slot, statsFile;
      this.logs := if logs.Some? then logs.value else [];
      logsText := if logs.Some? then CollectionText(logs.value, dumpsIndented) else [];
    }

    /** What Status reports: the discipline and project of the log in temp.json, if it holds one. */
    function Status(): (r: StatusReport)
      reads this
      ensures r.InProgress? <==> slot.log.Some?
      ensures r.InProgress? ==> r.disc == slot.log.value.disc && r.proj == slot.log.value.proj
    {
      match slot.log
      case None => Idle
      case Some(l) => InProgress(l.disc, l.proj)
    }

    /**
     * `chron -s <discipline> <project> [<note>]` at clock `nowMs`. With fewer
     * than two arguments, or with a slot larger than ten bytes, nothing
     * changes; otherwise CUR_LOG takes the start stamp and the labels, keeping
     * its previous note when none is given, and is written into the slot.
     */
    method StartLog(args: seq<string>, nowMs: int) returns (outcome: StartOutcome)
      requires Valid()
      modifies this`curLog, this`slot
      ensures Valid()
      ensures |args| < 2 ==> outcome == NotEnoughInformation && curLog == old(curLog) && slot == old(slot)
      ensures old(slot).log.Some? ==> slot == old(slot)
      ensures |args| >= 2 && old(slot).size > OccupiedThreshold ==>
        outcome == AlreadyInProgress && curLog == old(curLog) && slot == old(slot)
      ensures |args| >= 2 && old(slot).size <= OccupiedThreshold ==>
        && curLog == old(curLog).(timeStart := nowMs, disc := args[0], proj := args[1],
                                  xnote := if |args| > 2 then args[2] else old(curLog).xnote)
        && (if tempWritable
            then outcome == Started(curLog) && slot == SlotFile(|dumps(curLog)|, Some(curLog))
                 && slot.size > OccupiedThreshold
            else outcome == StartFailed && slot == old(slot))
    {
      if |args| < 2 {
        return NotEnoughInformation;
      }
      if slot.size > OccupiedThreshold {
        return AlreadyInProgress;
      }
      curLog := curLog.(timeStart := nowMs);
      curLog := curLog.(disc := args[0]);
      curLog := curLog.(proj := args[1]);
      if |args| > 2 {
        curLog := curLog.(xnote := args[2]);
      }
      if !tempWritable {
        return StartFailed;
      }
      slot := SlotFile(|dumps(curLog)|, Some(curLog));
      outcome := Started(curLog);
    }

    /** The cancel command: empty temp.json, whatever it held. */
    method CancelLog() returns (ok: bool)
      requires Valid()
      modifies this`slot
      ensures Valid()
      ensures ok == tempWritable
      ensures slot == if ok then EmptySlot else old(slot)
    {
      if !tempWritable {
        return false;
      }
      slot := EmptySlot;
      ok := true;
    }

    /**
     * The truncate-then-append edit of logs.json: fails, leaving the file as
     * it was, when the file cannot be opened for update or has no last byte
     * to cut.
     */
    method AppendToLogsFile(entry: string) returns (ok: bool)
      modifies this`logsText
      ensures ok == (logsWritable && old(logsText) != [])
      ensures logsText == if ok then AppendedText(old(logsText), entry) else old(logsText)
    {
      if !logsWritable || logsText == [] {
        return false;
      }
      logsText := logsText[..|logsText| - 1];
      if |logsText| > CommaThreshold {
        logsText := logsText + ",";
      }
      logsText := logsText + "\n" + entry + "]";
      ok := true;
    }

    /**
     * Recompute CUR_STATS from logs.json and write it to stat.json. The dict
     * is not reset first, so the logs are added to whatever it holds.
     */
    method SaveStats() returns (ok: bool)
      requires Valid()
      modifies this`statsFile, stats
      ensures Valid()
      ensures ok == (logsText != [])
      ensures ok ==> stats.Value() == Fold(old(stats.Value()), logs, hourOf) && statsFile == Some(stats.Value())
      ensures !ok ==> stats.Value() == old(stats.Value()) && statsFile == old(statsFile)
    {
      if logsText == [] {
        return false;
      }
      stats.Accumulate(logs, hourOf);
      statsFile := Some(stats.Value());
      ok := true;
    }

    /**
     * The stop command at clock `nowMs`. Without a log in temp.json nothing
     * changes. Otherwise the log is finished and appended to logs.json; only
     * when that succeeds is the slot emptied and are the statistics
     * recomputed, so a failed append leaves the log in progress.
     */
    method StopLog(nowMs: int) returns (outcome: StopOutcome)
      requires Valid()
      modifies this`slot, this`logsText, this`logs, this`statsFile, stats
      ensures Valid()
      ensures old(slot).log.None? ==>
        && outcome == NoLogInProgress && slot == old(slot)
        && logsText == old(logsText) && logs == old(logs)
        && statsFile == old(statsFile) && stats.Value() == old(stats.Value())
      ensures old(slot).log.Some? && (!logsWritable || old(logsText) == []) ==>
        && outcome == SaveFailed && slot == old(slot)
        && logsText == old(logsText) && logs == old(logs)
        && statsFile == old(statsFile) && stats.Value() == old(stats.Value())
      ensures old(slot).log.Some? && logsWritable && old(logsText) != [] ==>
        var entry := Finish(old(slot).log.value, nowMs);
        && outcome == Recorded(entry)
        && logs == old(logs) + [entry]
        && logsText == AppendedText(old(logsText), dumpsIndented(entry))
        && slot == (if tempWritable then EmptySlot else old(slot))
        && stats.Value() == Fold(old(stats.Value()), logs, hourOf)
        && statsFile == Some(stats.Value())
    {
      if slot.log.None? {
        return NoLogInProgress;
      }
      var entry := Finish(slot.log.value, nowMs);
      ghost var before := logs;
      var appended := AppendToLogsFile(dumpsIndented(entry));
      if !appended {
        return SaveFailed;
      }
      AppendExtendsCollection(before, entry, dumpsIndented);
      logs := logs + [entry];
      var cleared := CancelLog();
      var saved := SaveStats();
      outcome := Recorded(entry);
    }
  }

  /**
   * One process of the stop command: the module is loaded, so CUR_STATS starts empty,
   * and StopLog runs once. The statistics written are then exactly the fold
   * of the whole collection from the initial CUR_STATS.
   */
  method StopCommand(dumps: Log -> string, dumpsIndented: Log -> string, hourOf: int -> string,
                     tempWritable: bool, logsWritable: bool, slot: SlotFile, logs: Option<seq<Log>>, nowMs: int)
    returns (c: Chron, outcome: StopOutcome)
    requires LongEncodings(dumps, dumpsIndented)
    requires IsHourFunction(hourOf)
    requires WellSized(slot)
    ensures slot.log.None? ==> outcome == NoLogInProgress
    ensures slot.log.Some? && (!logsWritable || logs.None?) ==>
      outcome == SaveFailed && c.slot == slot && c.statsFile == None
    ensures slot.log.Some? && logsWritable && logs.Some? ==>
      var entry := Finish(slot.log.value, nowMs);
      && outcome == Recorded(entry)
      && c.logs == logs.value + [entry]
      && c.statsFile == Some(Fold(Zero, logs.value + [entry], hourOf))
  {
    c := new Chron(dumps, dumpsIndented, hourOf, tempWritable, logsWritable, slot, logs, None);
    outcome := c.StopLog(nowMs);
  }
}
