/** The console logger of Logger.cpp: a tag per log mode and the line
    written for a message. */
module Logger {
  import opened Common

  datatype LogMode = Info | Warning | Error | Sys

  /** `getTag(mode)` */
  function GetTag(mode: LogMode): (tag: string)
    ensures |tag| >= 4
    ensures ':' !in tag
  {
    match mode
    case Info => "INFO"
    case Warning => "WARNING"
    case Error => "ERROR"
    case Sys => "SYSTEM"
  }

  /** Distinct modes are written with distinct tags. */
  lemma TagsDistinct(a: LogMode, b: LogMode)
    ensures GetTag(a) == GetTag(b) <==> a == b
  {
  }

  /** The line `log(msg, mode)` writes, without its line terminator. */
  function LogLine(msg: string, mode: LogMode): (line: string)
    ensures |line| == |GetTag(mode)| + 2 + |msg|
    ensures line[..|GetTag(mode)|] == GetTag(mode)
    ensures line[|GetTag(mode)|..] == ": " + msg
  {
    GetTag(mode) + ": " + msg
  }

  /** `log(msg, arg, mode)`: the message directly followed by the GL string. */
  function LogLineWith(msg: string, arg: string, mode: LogMode): (line: string)
    ensures |line| == |GetTag(mode)| + 2 + |msg| + |arg|
    ensures line[..|GetTag(mode)|] == GetTag(mode)
    ensures line[|GetTag(mode)|..] == ": " + msg + arg
  {
    GetTag(mode) + ": " + msg + arg
  }

  /** `log(arg, mode)` forwards to the three-argument form with an empty
      message; the line reads back as the mode and the GL string. */
  function LogArg(arg: string, mode: LogMode): (line: string)
    ensures line == LogLineWith("", arg, mode)
    ensures ParseLine(line) == Some((mode, arg))
  {
    LogLineRoundTrip(arg, mode);
    assert "" + arg == arg;
    LogLineWith("", arg, mode)
  }

  /** Reads the mode and the message back from a written line. */
  function ParseLine(line: string): (r: Option<(LogMode, string)>)
  {
    if |line| >= 6 && line[..6] == "INFO: " then Some((Info, line[6..]))
    else if |line| >= 9 && line[..9] == "WARNING: " then Some((Warning, line[9..]))
    else if |line| >= 7 && line[..7] == "ERROR: " then Some((Error, line[7..]))
    else if |line| >= 8 && line[..8] == "SYSTEM: " then Some((Sys, line[8..]))
    else None
  }

  /** A logged line determines both its mode and its message. */
  lemma LogLineRoundTrip(msg: string, mode: LogMode)
    ensures ParseLine(LogLine(msg, mode)) == Some((mode, msg))
  {
    var line := LogLine(msg, mode);
    assert line == GetTag(mode) + ": " + msg;
    match mode
    case Info =>
      assert line[..6] == "INFO: " && line[6..] == msg;
    case Warning =>
      assert line[..6] != "INFO: " by { assert line[0] == 'W'; }
      assert line[..9] == "WARNING: " && line[9..] == msg;
    case Error =>
      assert line[..6] != "INFO: " by { assert line[0] == 'E'; }
      assert !(|line| >= 9 && line[..9] == "WARNING: ") by { assert line[0] == 'E'; }
      assert line[..7] == "ERROR: " && line[7..] == msg;
    case Sys =>
      assert line[..6] != "INFO: " by { assert line[0] == 'S'; }
      assert !(|line| >= 9 && line[..9] == "WARNING: ") by { assert line[0] == 'S'; }
      assert line[..7] != "ERROR: " by { assert line[0] == 'S'; }
      assert line[..8] == "SYSTEM: " && line[8..] == msg;
  }

  /** The GL-string overload writes the same line as logging the GL string
      as the message. */
  lemma LogArgIsLogLine(arg: string, mode: LogMode)
    ensures LogArg(arg, mode) == LogLine(arg, mode)
  {
    assert "" + arg == arg;
  }
}
