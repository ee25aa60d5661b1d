/** The diagnostic log (src/log.h), as explicit state instead of a process-wide
    singleton: a `Logger` value is an append-only list of entries, and every
    operation that logs takes a logger and returns the extended one. */
module Log {

  import opened Basics

  /** `LogType`: the one real severity plus the enumeration's count sentinel,
      which the switch in `GetTypeString` handles through its default arm. */
  datatype LogType = Info | NumLogTypes

  datatype LogEntry = LogEntry(message: string, logType: LogType)

  datatype Logger = Logger(entries: seq<LogEntry>)

  const INFO_PREFIX: string := "[INFO] "
  const UNKNOWN_PREFIX: string := "[UNKNOWN] "

  /** `LogEntry::GetTypeString`: the severity tag printed before a message. */
  function TypeString(t: LogType): (r: string)
    ensures t == Info <==> r == INFO_PREFIX
    ensures t != Info <==> r == UNKNOWN_PREFIX
  {
    match t
    case Info => INFO_PREFIX
    case _ => UNKNOWN_PREFIX
  }

  /** `LogEntry::AsString`: the tag immediately followed by the message. */
  function AsString(e: LogEntry): (r: string)
    ensures |r| == |TypeString(e.logType)| + |e.message|
    ensures r[..|TypeString(e.logType)|] == TypeString(e.logType)
    ensures r[|TypeString(e.logType)|..] == e.message
  {
    TypeString(e.logType) + e.message
  }

  /** Inverse of `AsString`: recognises the tag and splits the message off. */
  function ParseEntry(s: string): Option<LogEntry> {
    if |INFO_PREFIX| <= |s| && s[..|INFO_PREFIX|] == INFO_PREFIX then
      Some(LogEntry(s[|INFO_PREFIX|..], Info))
    else if |UNKNOWN_PREFIX| <= |s| && s[..|UNKNOWN_PREFIX|] == UNKNOWN_PREFIX then
      Some(LogEntry(s[|UNKNOWN_PREFIX|..], NumLogTypes))
    else
      None
  }

  /** Rendering an entry loses nothing: the entry can be read back from its text. */
  lemma AsStringRoundTrip(e: LogEntry)
    ensures ParseEntry(AsString(e)) == Some(e)
  {
    var s := AsString(e);
    match e.logType
    case Info =>
      assert s[..|INFO_PREFIX|] == INFO_PREFIX;
      assert s[|INFO_PREFIX|..] == e.message;
    case NumLogTypes =>
      assert s[..|INFO_PREFIX|] != INFO_PREFIX by {
        assert s[1] == 'U' && INFO_PREFIX[1] == 'I';
      }
      assert s[..|UNKNOWN_PREFIX|] == UNKNOWN_PREFIX;
      assert s[|UNKNOWN_PREFIX|..] == e.message;
  }

  /** `Logger::LogInfo`: exactly one INFO entry is appended at the end and the
      earlier entries are untouched. */
  function LogInfo(l: Logger, message: string): (r: Logger)
    ensures |r.entries| == |l.entries| + 1
    ensures r.entries[..|l.entries|] == l.entries
    ensures r.entries[|l.entries|] == LogEntry(message, Info)
  {
    Logger(l.entries + [LogEntry(message, Info)])
  }

  /** `Logger::Clear`. */
  function Clear(l: Logger): (r: Logger)
    ensures GetAll(r) == []
  {
    Logger([])
  }

  /** `Logger::GetAll`: the entries, oldest first. */
  function GetAll(l: Logger): seq<LogEntry> {
    l.entries
  }

  /** Logging a list of messages one after the other. */
  function LogInfoAll(l: Logger, messages: seq<string>): Logger
    decreases |messages|
  {
    if messages == [] then l
    else LogInfoAll(LogInfo(l, messages[0]), messages[1..])
  }

  /** `GetAll` reports entries in insertion order: after logging `messages`
      in turn, the list is the earlier entries followed by one INFO entry per
      message, in the order they were logged. */
  lemma {:induction false} GetAllInInsertionOrder(l: Logger, messages: seq<string>)
    ensures |GetAll(LogInfoAll(l, messages))| == |l.entries| + |messages|
    ensures GetAll(LogInfoAll(l, messages))[..|l.entries|] == l.entries
    ensures forall i :: 0 <= i < |messages| ==>
              GetAll(LogInfoAll(l, messages))[|l.entries| + i] == LogEntry(messages[i], Info)
    decreases |messages|
  {
    if messages != [] {
      var l1 := LogInfo(l, messages[0]);
      GetAllInInsertionOrder(l1, messages[1..]);
      var all := GetAll(LogInfoAll(l, messages));
      assert all == GetAll(LogInfoAll(l1, messages[1..]));
      assert all[..|l.entries|] == l1.entries[..|l.entries|];
      forall i | 0 <= i < |messages|
        ensures all[|l.entries| + i] == LogEntry(messages[i], Info)
      {
        if i > 0 {
          assert all[|l1.entries| + (i - 1)] == LogEntry(messages[1..][i - 1], Info);
        }
      }
    }
  }

  /** After `Clear`, the log holds exactly what was logged since, in order:
      nothing logged before the clear survives. */
  lemma ClearForgetsEarlier(l: Logger, messages: seq<string>)
    ensures GetAll(LogInfoAll(Clear(l), messages))
            == seq(|messages|, i requires 0 <= i < |messages| => LogEntry(messages[i], Info))
  {
    GetAllInInsertionOrder(Clear(l), messages);
    assert GetAll(LogInfoAll(Clear(l), messages))[..0] == [];
  }
}
