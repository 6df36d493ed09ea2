/** src/log-file-manager.cc: the log file of a node as the sequence of its lines. */
module LogFile {
  import opened Messages

  class LogFileManager {
    var entries: seq<Value>

    constructor ()
      ensures entries == []
    {
      entries := [];
    }

    method Append(entry: Value)
      modifies this
      ensures entries == old(entries) + [entry]
    {
      entries := entries + [entry];
    }

    method Replace(contents: seq<Value>)
      modifies this
      ensures entries == contents
    {
      entries := contents;
    }

    method Read() returns (contents: seq<Value>)
      ensures contents == entries
    {
      contents := entries;
    }
  }
}
