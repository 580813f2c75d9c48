/**
  The logging sink the loggers write to, as the test captures it: a list
  of records, each with its level, its logger context and its message,
  and the captured text (every message followed by a line break).
 */
module LogCapture {

  datatype Level = Debug | Info | Warning | Error

  datatype LogRecord = LogRecord(level: Level, context: string, message: string)

  /** Whether `part` occurs in `text` starting at position `i`. */
  predicate OccursAt(text: string, part: string, i: int) {
    0 <= i <= |text| - |part| && text[i..i + |part|] == part
  }

  /** Whether `part` occurs in `text` as a contiguous substring. */
  predicate Contains(text: string, part: string) {
    exists i :: 0 <= i <= |text| - |part| && OccursAt(text, part, i)
  }

  /** The captured text of a list of records; every captured message occurs in it. */
  function Text(records: seq<LogRecord>): (t: string)
    ensures forall k :: 0 <= k < |records| ==> Contains(t, records[k].message)
  {
    if records == [] then ""
    else
      var rest := Text(records[1..]);
      assert forall k :: 1 <= k < |records| ==> records[k] == records[1..][k - 1];
      ExtendText(records, rest);
      records[0].message + "\n" + rest
  }

  /** Putting a record's line in front of a text that holds the later messages gives a text that holds all of them. */
  lemma ExtendText(records: seq<LogRecord>, rest: string)
    requires records != []
    requires forall k :: 1 <= k < |records| ==> Contains(rest, records[k].message)
    ensures forall k :: 0 <= k < |records| ==> Contains(records[0].message + "\n" + rest, records[k].message)
  {
    var head := records[0].message;
    forall k | 0 <= k < |records|
      ensures Contains(head + "\n" + rest, records[k].message)
    {
      if k == 0 {
        assert OccursAt(head, head, 0);
        ContainsBefore(head, "\n" + rest, head);
        assert head + "\n" + rest == head + ("\n" + rest);
      } else {
        ContainsAfter(head + "\n", rest, records[k].message);
      }
    }
  }

  /** The records at warning level, in order. */
  function Warnings(records: seq<LogRecord>): (ws: seq<LogRecord>)
    ensures forall r :: r in ws ==> r in records && r.level == Warning
    ensures forall r :: r in records && r.level == Warning ==> r in ws
    ensures forall r :: multiset(ws)[r] == (if r.level == Warning then multiset(records)[r] else 0)
    ensures |ws| <= |records|
  {
    if records == [] then []
    else
      assert records == [records[0]] + records[1..];
      (if records[0].level == Warning then [records[0]] else []) + Warnings(records[1..])
  }

  /** The shared sink: what the loggers have emitted since the last `Clear`. */
  class LogSink {
    var records: seq<LogRecord>

    constructor ()
      ensures records == []
    {
      records := [];
    }

    method Emit(r: LogRecord)
      modifies this
      ensures records == old(records) + [r]
    {
      records := records + [r];
    }

    method Clear()
      modifies this
      ensures records == []
    {
      records := [];
    }
  }

  lemma ContainsAfter(prefix: string, text: string, part: string)
    requires Contains(text, part)
    ensures Contains(prefix + text, part)
  {
    var i :| 0 <= i <= |text| - |part| && OccursAt(text, part, i);
    assert (prefix + text)[|prefix| + i..|prefix| + i + |part|] == part;
    assert OccursAt(prefix + text, part, |prefix| + i);
  }

  lemma ContainsBefore(text: string, suffix: string, part: string)
    requires Contains(text, part)
    ensures Contains(text + suffix, part)
  {
    var i :| 0 <= i <= |text| - |part| && OccursAt(text, part, i);
    assert (text + suffix)[i..i + |part|] == part;
    assert OccursAt(text + suffix, part, i);
  }

  /** A substring of any captured message is a substring of the captured text. */
  lemma {:induction false} TextContainsMessage(records: seq<LogRecord>, k: nat, part: string)
    requires k < |records| && Contains(records[k].message, part)
    ensures Contains(Text(records), part)
  {
    if k == 0 {
      ContainsBefore(records[0].message, "\n" + Text(records[1..]), part);
      assert records[0].message + "\n" + Text(records[1..]) == records[0].message + ("\n" + Text(records[1..]));
    } else {
      TextContainsMessage(records[1..], k - 1, part);
      ContainsAfter(records[0].message + "\n", Text(records[1..]), part);
    }
  }

  /** Every record in a list of warnings is kept by the filter. */
  lemma {:induction false} AllWarningsKept(records: seq<LogRecord>)
    requires forall r :: r in records ==> r.level == Warning
    ensures Warnings(records) == records
  {
    if records != [] {
      AllWarningsKept(records[1..]);
    }
  }
}
