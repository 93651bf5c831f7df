/** The hourly log files (`rotate_logs`, `log_sensor_data`, `get_log_filename`).
    An hour bucket is a whole number of hours since the epoch; the log directory
    is a map from bucket to the entries written to that bucket's file. */
module LogRotation {
  import opened Base
  import opened Telemetry

  /** One line of a log file: the time of writing and a copy of the snapshot. */
  datatype LogEntry = LogEntry(timestamp: Stamp, sensors: Snapshot)

  /** The log directory: the file of each bucket that exists, with its lines. */
  type Files = map<int, seq<LogEntry>>

  /** The rotator's state: the last bucket seen, the bucket whose file is open
      (the handle), and the directory. */
  datatype RotatorState = RotatorState(lastHour: Option<int>, open: Option<int>, files: Files) {
    /** The handle always belongs to the last bucket seen, and its file exists. */
    predicate Consistent() {
      lastHour == open && (open.Some? ==> open.value in files)
    }
  }

  /** Bucket `k` is the same file with the same lines in both directories, or absent from both. */
  predicate SameFile(a: Files, b: Files, k: int) {
    (k in a <==> k in b) && (k in a ==> a[k] == b[k])
  }

  /** The name of a bucket's file. The date-and-hour text is rendered here as the
      bucket's decimal number; like the source's format it is one-to-one, so a
      directory keyed by bucket loses nothing. */
  function FileName(hour: int): string {
    "logs/sensor_data_" + HourText(hour) + ".json"
  }

  function HourText(hour: int): string {
    if hour < 0 then "-" + DigitsOf(-hour) else DigitsOf(hour)
  }

  function DigitsOf(n: nat): (s: string)
    ensures |s| >= 1 && s[0] != '-'
    decreases n
  {
    if n < 10 then [Digit(n)] else DigitsOf(n / 10) + [Digit(n % 10)]
  }

  function Digit(d: nat): char
    requires d < 10
  {
    "0123456789"[d]
  }

  lemma {:induction false} DigitsInjective(a: nat, b: nat)
    requires DigitsOf(a) == DigitsOf(b)
    ensures a == b
    decreases a
  {
    if a >= 10 && b >= 10 {
      var sa, sb := DigitsOf(a / 10), DigitsOf(b / 10);
      assert sa == DigitsOf(a)[..|sa|];
      assert sb == DigitsOf(b)[..|sb|];
      assert DigitsOf(a)[|sa|] == Digit(a % 10);
      assert DigitsOf(b)[|sb|] == Digit(b % 10);
      DigitsInjective(a / 10, b / 10);
    } else if a < 10 && b < 10 {
      assert DigitsOf(a)[0] == Digit(a);
    }
  }

  /** Distinct buckets have distinct file names. */
  lemma FileNameInjective(h1: int, h2: int)
    requires FileName(h1) == FileName(h2)
    ensures h1 == h2
  {
    var prefix := "logs/sensor_data_";
    var t1, t2 := HourText(h1), HourText(h2);
    assert FileName(h1) == prefix + t1 + ".json";
    assert t1 == FileName(h1)[|prefix|..|FileName(h1)| - 5];
    assert t2 == FileName(h2)[|prefix|..|FileName(h2)| - 5];
    if h1 < 0 && h2 < 0 {
      assert DigitsOf(-h1) == t1[1..];
      assert DigitsOf(-h2) == t2[1..];
      DigitsInjective(-h1, -h2);
    } else if h1 >= 0 && h2 >= 0 {
      DigitsInjective(h1, h2);
    }
  }

  /** Rotation at bucket `hour`. Nothing happens within the same bucket; on a new
      bucket the old handle is closed, the bucket's file is opened for appending
      (created empty when absent) and the file exactly two buckets older is deleted. */
  function Rotated(st: RotatorState, hour: int): (r: RotatorState)
    ensures st.lastHour == Some(hour) ==> r == st
    ensures st.lastHour != Some(hour) ==>
      && r.lastHour == Some(hour)
      && r.open == Some(hour)
      && hour in r.files
      && r.files[hour] == (if hour in st.files then st.files[hour] else [])
      && hour - 2 !in r.files
      && forall k :: k != hour && k != hour - 2 ==> SameFile(st.files, r.files, k)
  {
    if st.lastHour == Some(hour) then st
    else
      var withOpen := if hour in st.files then st.files else st.files[hour := []];
      RotatorState(Some(hour), Some(hour), withOpen - {hour - 2})
  }

  /** Rotation keeps the handle consistent with the directory. */
  lemma RotatedConsistent(st: RotatorState, hour: int)
    requires st.Consistent()
    ensures Rotated(st, hour).Consistent()
  {
  }

  /** Rotation is idempotent within an hour. */
  lemma RotatedIdempotent(st: RotatorState, hour: int)
    ensures Rotated(Rotated(st, hour), hour) == Rotated(st, hour)
  {
  }

  /** Writing one entry: rotate to `hour`, then append the entry to the open file. */
  function Logged(st: RotatorState, hour: int, e: LogEntry): (r: RotatorState)
    requires st.Consistent()
    ensures r.Consistent() && r.lastHour == Some(hour)
    ensures hour in r.files && r.files[hour] == (if hour in st.files then st.files[hour] else []) + [e]
    ensures hour - 2 in r.files <==> hour - 2 in st.files && st.lastHour == Some(hour)
    ensures st.lastHour == Some(hour) ==> SameFile(st.files, r.files, hour - 2)
    ensures forall k :: k != hour && k != hour - 2 ==> SameFile(st.files, r.files, k)
  {
    var rot := Rotated(st, hour);
    match rot.open
    case Some(h) => rot.(files := rot.files[h := rot.files[h] + [e]])
    case None => rot
  }

  /** Rotation at every bucket from `start` to `start + n` in turn. */
  function RotatedThrough(st: RotatorState, start: int, n: nat): RotatorState
    decreases n
  {
    if n == 0 then Rotated(st, start)
    else Rotated(RotatedThrough(st, start, n - 1), start + n)
  }

  /** Which files remain after rotating at every bucket from `start` to `start + n`:
      the last two buckets (those created by the run), and every earlier file outside
      the deleted window `start - 2 .. start + n - 2`. Files older than that window
      are never deleted. */
  lemma {:induction false} RotationWindow(st: RotatorState, start: int, n: nat)
    requires st.lastHour != Some(start)
    ensures RotatedThrough(st, start, n).lastHour == Some(start + n)
    ensures forall k :: k in RotatedThrough(st, start, n).files <==>
      (start <= k && start + n - 1 <= k <= start + n) ||
      (k in st.files && (k < start - 2 || k > start + n - 2))
  {
    if n == 0 {
      var r := Rotated(st, start);
      forall k
        ensures k in r.files <==> (start <= k && start - 1 <= k <= start) || (k in st.files && (k < start - 2 || k > start - 2))
      {
        if k != start && k != start - 2 {
          assert SameFile(st.files, r.files, k);
        }
      }
    } else {
      var prev := RotatedThrough(st, start, n - 1);
      RotationWindow(st, start, n - 1);
      var r := Rotated(prev, start + n);
      assert r == RotatedThrough(st, start, n);
      forall k
        ensures k in r.files <==> (start <= k && start + n - 1 <= k <= start + n) || (k in st.files && (k < start - 2 || k > start + n - 2))
      {
        if k != start + n && k != start + n - 2 {
          assert SameFile(prev.files, r.files, k);
        }
      }
    }
  }

  /** Retention: when no file is older than the window of the first rotation and
      rotation then runs at every consecutive bucket, exactly the current and the
      previous bucket's files remain. */
  lemma {:induction false} ConsecutiveRotationKeepsTwo(st: RotatorState, start: int, n: nat)
    requires st.lastHour != Some(start) && n >= 1
    requires forall k :: k in st.files ==> start - 2 <= k <= start + n
    ensures RotatedThrough(st, start, n).files.Keys == {start + n - 1, start + n}
  {
    RotationWindow(st, start, n);
    var r := RotatedThrough(st, start, n);
    forall k
      ensures k in r.files <==> k in {start + n - 1, start + n}
    {
    }
  }

  /** The rotator's globals and the log directory they act on. */
  class LogRotator {
    var lastHour: Option<int>
    var open: Option<int>
    var files: Files

    function State(): RotatorState
      reads this
    {
      RotatorState(lastHour, open, files)
    }

    ghost predicate Valid()
      reads this
    {
      State().Consistent()
    }

    /** No bucket seen and no handle open; `disk` is what the directory already holds. */
    constructor (disk: Files)
      ensures Valid() && State() == RotatorState(None, None, disk)
    {
      lastHour, open, files := None, None, disk;
    }

    method Rotate(hour: int)
      requires Valid()
      modifies this
      ensures Valid() && State() == Rotated(old(State()), hour)
    {
      if lastHour != Some(hour) {
        open := None;  // close the previous handle
        if hour !in files {
          files := files[hour := []];
        }
        open := Some(hour);
        lastHour := Some(hour);
        if hour - 2 in files {
          files := files - {hour - 2};
        }
      }
    }

    method LogSensorData(hour: int, stamp: Stamp, sensors: Snapshot)
      requires Valid()
      modifies this
      ensures Valid() && State() == Logged(old(State()), hour, LogEntry(stamp, sensors))
    {
      Rotate(hour);
      var entry := LogEntry(stamp, sensors);
      if open.Some? {
        files := files[open.value := files[open.value] + [entry]];
      }
    }
  }
}
