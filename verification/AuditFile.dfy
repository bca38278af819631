/**
 The append-only audit file: one JSON text per line. A failed append may leave nothing, a part of its line
 or all of it, and a torn line swallows the row that is appended next.
 */
module AuditFile {
  import opened Wrappers
  import opened Protocol
  import Text

  /** The lines that end in a newline. */
  function Lines(data: string): seq<string> {
    var parts := Text.Split(data, '\n');
    parts[..|parts| - 1]
  }

  /** What follows the last newline. */
  function Tail(data: string): string {
    var parts := Text.Split(data, '\n');
    parts[|parts| - 1]
  }

  /** The lines of two texts put together. */
  function Glue(a: seq<string>, b: seq<string>): seq<string>
    requires a != [] && b != []
  {
    a[..|a| - 1] + [a[|a| - 1] + b[0]] + b[1..]
  }

  lemma GlueAfterLine(a: seq<string>, b: seq<string>)
    requires a != [] && b != []
    ensures Glue([""] + a, b) == [""] + Glue(a, b)
  {
    assert ([""] + a)[..|a|] == [""] + a[..|a| - 1];
  }

  lemma GlueAfterChar(c: char, a: seq<string>, b: seq<string>)
    requires a != [] && b != []
    ensures Glue([[c] + a[0]] + a[1..], b) == [[c] + Glue(a, b)[0]] + Glue(a, b)[1..]
  {
    var longer := [[c] + a[0]] + a[1..];
    if |a| == 1 {
      assert ([c] + a[0]) + b[0] == [c] + (a[0] + b[0]);
    } else {
      assert longer[..|a| - 1] == [[c] + a[0]] + a[..|a| - 1][1..];
    }
  }

  lemma {:induction false} SplitAppend(data: string, more: string)
    ensures Text.Split(data + more, '\n') == Glue(Text.Split(data, '\n'), Text.Split(more, '\n'))
  {
    var added := Text.Split(more, '\n');
    if data == "" {
      assert data + more == more && "" + added[0] == added[0];
    } else {
      SplitAppend(data[1..], more);
      assert (data + more)[1..] == data[1..] + more;
      var rest := Text.Split(data[1..], '\n');
      if data[0] == '\n' {
        GlueAfterLine(rest, added);
      } else {
        GlueAfterChar(data[0], rest, added);
      }
    }
  }

  /** Appending a line completes the unfinished one, if any. */
  lemma AppendedLine(data: string, line: string)
    requires '\n' !in line
    ensures Lines(data + line + "\n") == Lines(data) + [Tail(data) + line] && Tail(data + line + "\n") == ""
  {
    Text.SplitFirst(line, "", '\n');
    assert line + ['\n'] + "" == line + "\n";
    SplitAppend(data, line + "\n");
    assert data + (line + "\n") == data + line + "\n";
  }

  /** An appended row can be read back exactly if the file did not end in a torn line. */
  lemma ReadableIffNotTorn(data: string, line: string)
    requires '\n' !in line
    ensures Lines(data + line + "\n") == Lines(data) + [line] <==> Tail(data) == ""
  {
    AppendedLine(data, line);
    assert (Lines(data) + [Tail(data) + line])[|Lines(data)|] == Tail(data) + line;
    assert Tail(data) == "" ==> Tail(data) + line == line;
    assert |Tail(data) + line| == |Tail(data)| + |line|;
  }

  /**
   `render` is the JSON text of a row; time, user, host, duration and detail depend on the position of the
   append only. `disk` tells for each append how much is written before it fails, if it does.
   */
  class AuditLog {
    const render: (nat, Row) -> string
    const disk: nat -> Option<nat>
    var data: string
    var appends: nat

    constructor (render: (nat, Row) -> string, disk: nat -> Option<nat>, data: string)
      ensures this.render == render && this.disk == disk && this.data == data && this.appends == 0
    {
      this.render, this.disk, this.data, this.appends := render, disk, data, 0;
    }

    method Append(row: Row) returns (ok: bool)
      modifies this
      ensures appends == old(appends) + 1
      ensures ok == disk(old(appends)).None?
      ensures ok ==> data == old(data) + render(old(appends), row) + "\n"
      ensures old(data) <= data <= old(data) + render(old(appends), row) + "\n"
    {
      var line := render(appends, row) + "\n";
      var fate := disk(appends);
      appends := appends + 1;
      if fate.None? {
        data := data + line;
        return true;
      }
      data := data + if fate.value <= |line| then line[..fate.value] else line;
      return false;
    }
  }

}
