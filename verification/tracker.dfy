/**
 * The evaluation tracker: every answered turn is appended to a JSON-lines
 * log as one record (question, answer, contexts, an empty ground truth and
 * a timestamp). The log is modelled as the sequence of records in the file;
 * write failures are reported by a parameter and swallowed.
 */
module Tracker {
  import opened Prelude

  /** The log file used when none is given. */
  const DefaultLogFile: string := "data/evaluation/ragas_dataset.jsonl"

  /** One logged turn. */
  datatype Record = Record(question: string, answer: string, contexts: seq<string>,
                           groundTruth: string, timestamp: string)

  /** The records of the log file, oldest first. */
  type Log = seq<Record>

  datatype Tracker = Tracker(logFile: string)

  /**
   * `RagasTracker(log_file)`: creating the log directory may fail; the
   * failure is swallowed and the tracker is built all the same.
   */
  function NewTracker(logFile: string, mkdirFault: Option<string>): (t: Tracker)
    ensures t.logFile == logFile
  {
    Tracker(logFile)
  }

  /** Whether or not creating the directory failed, the same tracker results. */
  lemma DirectoryFailureSwallowed(logFile: string, fault: string)
    ensures NewTracker(logFile, Some(fault)) == NewTracker(logFile, None)
  {
  }

  /** The record `log_turn` writes: the ground truth is left empty. */
  function Entry(question: string, answer: string, contexts: seq<string>, timestamp: string): (e: Record)
    ensures e.question == question && e.answer == answer && e.contexts == contexts
    ensures e.groundTruth == ""
  {
    Record(question, answer, contexts, "", timestamp)
  }

  /**
   * `RagasTracker.log_turn`: appends exactly one record, or leaves the log
   * as it was when the write fails (`writeFault` is the raised error).
   */
  function LogTurn(log: Log, question: string, answer: string, contexts: seq<string>,
                   timestamp: string, writeFault: Option<string>): (r: Log)
    ensures writeFault.None? ==> |r| == |log| + 1 && r[..|log|] == log
    ensures writeFault.None? ==> r[|log|] == Entry(question, answer, contexts, timestamp)
    ensures writeFault.Some? ==> r == log
  {
    match writeFault
    case Some(_) => log
    case None => log + [Entry(question, answer, contexts, timestamp)]
  }

  /** One call of `log_turn`, with its timestamp and the fault (if any) of its write. */
  datatype Turn = Turn(question: string, answer: string, contexts: seq<string>,
                       timestamp: string, writeFault: Option<string>)

  /** Logs the turns one after another. */
  function LogTurns(log: Log, turns: seq<Turn>): Log
    decreases |turns|
  {
    if |turns| == 0 then log
    else
      var t := turns[0];
      LogTurns(LogTurn(log, t.question, t.answer, t.contexts, t.timestamp, t.writeFault), turns[1..])
  }

  /** The records of the turns whose write succeeds, in turn order. */
  function Written(turns: seq<Turn>): (r: Log)
    ensures |r| <= |turns|
    decreases |turns|
  {
    if |turns| == 0 then []
    else
      var t := turns[0];
      (if t.writeFault.None? then [Entry(t.question, t.answer, t.contexts, t.timestamp)] else [])
        + Written(turns[1..])
  }

  /**
   * The log is append-only: after any series of turns it is the old log
   * followed by exactly the records whose write succeeded, in order.
   */
  lemma {:induction false} LogTurnsAppends(log: Log, turns: seq<Turn>)
    ensures LogTurns(log, turns) == log + Written(turns)
    decreases |turns|
  {
    if |turns| > 0 {
      var t := turns[0];
      var next := LogTurn(log, t.question, t.answer, t.contexts, t.timestamp, t.writeFault);
      LogTurnsAppends(next, turns[1..]);
      if t.writeFault.None? {
        assert next == log + [Entry(t.question, t.answer, t.contexts, t.timestamp)];
      }
    }
  }

  /** Every record ever written has an empty ground truth. */
  lemma {:induction false} WrittenGroundTruthEmpty(turns: seq<Turn>)
    ensures forall i :: 0 <= i < |Written(turns)| ==> Written(turns)[i].groundTruth == ""
    decreases |turns|
  {
    if |turns| > 0 {
      WrittenGroundTruthEmpty(turns[1..]);
    }
  }
}
