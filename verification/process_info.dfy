/** Per-process records the client keeps for the server's `process_info`
    replies: the command line as reported, the executable path (its first
    space-separated word) and the process name (the path's last component). */
module Processes {
  import opened Strings

  datatype ProcessInfo = ProcessInfo(
    pid: nat,
    processName: string,
    cmdLine: string,
    active: bool,
    processPath: string,
    contextIds: seq<nat>,
    init: bool)

  /** A record for a pid the server has not yet described. */
  function NewProcessInfo(): (p: ProcessInfo)
    ensures p.pid == 0 && !p.active && !p.init && p.contextIds == []
    ensures p.processName == p.cmdLine == p.processPath == "empty"
  {
    ProcessInfo(0, "empty", "empty", false, "empty", [], false)
  }

  /** `path` is the executable path of a command line: its first word,
      which runs up to the first space or to the end. */
  ghost predicate IsPathOf(cmdLine: string, path: string)
    decreases |path|
  {
    if |path| == 0 then |cmdLine| == 0 || cmdLine[0] == ' '
    else |cmdLine| > 0 && path[0] == cmdLine[0] && path[0] != ' ' && IsPathOf(cmdLine[1..], path[1..])
  }

  /** `name` is the name of a path: everything after its last slash. */
  ghost predicate IsNameOf(path: string, name: string)
    decreases |name|
  {
    if |name| == 0 then |path| == 0 || path[|path| - 1] == '/'
    else
      && |path| > 0
      && name[|name| - 1] == path[|path| - 1]
      && name[|name| - 1] != '/'
      && IsNameOf(path[..|path| - 1], name[..|name| - 1])
  }

  /** A path is a prefix of the command line, holds no space, and is
      followed by a space unless it is the whole line. */
  lemma {:induction false} IsPathOfMeans(cmdLine: string, path: string)
    ensures IsPathOf(cmdLine, path) <==>
      StartsWith(cmdLine, path) && ' ' !in path && (|path| < |cmdLine| ==> cmdLine[|path|] == ' ')
    decreases |path|
  {
    if |path| > 0 && |cmdLine| > 0 {
      IsPathOfMeans(cmdLine[1..], path[1..]);
      assert path == [path[0]] + path[1..];
      if |path| <= |cmdLine| {
        assert cmdLine[..|path|] == [cmdLine[0]] + cmdLine[1..][..|path| - 1];
      }
      if |path| < |cmdLine| {
        assert cmdLine[|path|] == cmdLine[1..][|path| - 1];
      }
    }
  }

  /** A name is a suffix of the path, holds no slash, and is preceded by a
      slash unless it is the whole path. */
  lemma {:induction false} IsNameOfMeans(path: string, name: string)
    ensures IsNameOf(path, name) <==>
      |name| <= |path| && path[|path| - |name|..] == name && '/' !in name
      && (|name| < |path| ==> path[|path| - |name| - 1] == '/')
    decreases |name|
  {
    if |name| > 0 && |path| > 0 {
      var init := path[..|path| - 1];
      var ninit := name[..|name| - 1];
      IsNameOfMeans(init, ninit);
      assert name == ninit + [name[|name| - 1]];
      if |name| <= |path| {
        assert path[|path| - |name|..] == init[|init| - |ninit|..] + [path[|path| - 1]];
      }
      if |name| < |path| {
        assert path[|path| - |name| - 1] == init[|init| - |ninit| - 1];
      }
    }
  }

  /** `cmd_line.split(" ", 2)[0]`: the text before the first space. */
  function FirstWord(s: string): string
    decreases |s|
  {
    if |s| == 0 || s[0] == ' ' then "" else [s[0]] + FirstWord(s[1..])
  }

  /** `path.split("/")` and its last part: the text after the last slash. */
  function LastComponent(s: string): string
    decreases |s|
  {
    if |s| == 0 || s[|s| - 1] == '/' then "" else LastComponent(s[..|s| - 1]) + [s[|s| - 1]]
  }

  /** The first word of a command line is its path. */
  lemma {:induction false} FirstWordIsPath(cmdLine: string)
    ensures IsPathOf(cmdLine, FirstWord(cmdLine))
    decreases |cmdLine|
  {
    if |cmdLine| > 0 && cmdLine[0] != ' ' {
      FirstWordIsPath(cmdLine[1..]);
      assert FirstWord(cmdLine)[1..] == FirstWord(cmdLine[1..]);
    }
  }

  /** The last component of a path is its name. */
  lemma {:induction false} LastComponentIsName(path: string)
    ensures IsNameOf(path, LastComponent(path))
    decreases |path|
  {
    if |path| > 0 && path[|path| - 1] != '/' {
      var n := LastComponent(path);
      LastComponentIsName(path[..|path| - 1]);
      assert n[..|n| - 1] == LastComponent(path[..|path| - 1]);
    }
  }

  /** A command line has one path. */
  lemma {:induction false} PathUnique(cmdLine: string, p: string, q: string)
    requires IsPathOf(cmdLine, p) && IsPathOf(cmdLine, q)
    ensures p == q
    decreases |p|
  {
    if |p| > 0 && |q| > 0 {
      PathUnique(cmdLine[1..], p[1..], q[1..]);
      assert p == [p[0]] + p[1..] && q == [q[0]] + q[1..];
    }
  }

  /** A path has one name. */
  lemma {:induction false} NameUnique(path: string, m: string, n: string)
    requires IsNameOf(path, m) && IsNameOf(path, n)
    ensures m == n
    decreases |m|
  {
    if |m| > 0 && |n| > 0 {
      NameUnique(path[..|path| - 1], m[..|m| - 1], n[..|n| - 1]);
      assert m == m[..|m| - 1] + [m[|m| - 1]] && n == n[..|n| - 1] + [n[|n| - 1]];
    }
  }

  /** The first word is the first part of the client's `split(" ")`. */
  lemma FirstWordIsSplitHead(cmdLine: string)
    ensures FirstWord(cmdLine) == Split(cmdLine, ' ')[0]
  {
    FirstWordIsPath(cmdLine);
    IsPathOfMeans(cmdLine, FirstWord(cmdLine));
    HeadUnique(cmdLine, ' ', FirstWord(cmdLine));
  }

  /** The last component is the last part of the client's `split("/")`. */
  lemma LastComponentIsSplitLast(path: string)
    ensures var parts := Split(path, '/'); LastComponent(path) == parts[|parts| - 1]
  {
    LastComponentIsName(path);
    IsNameOfMeans(path, LastComponent(path));
    LastUnique(path, '/', LastComponent(path));
  }

  /** Fill a record from a `process_info` reply: the reported pid and
      command line, the path read off the command line (its first
      space-separated word) and the name read off the path (its last `/`
      component), and the record's other fields kept. */
  function Update(p: ProcessInfo, pid: nat, cmdLine: string): (r: ProcessInfo)
    ensures r.pid == pid && r.cmdLine == cmdLine
    ensures IsPathOf(cmdLine, r.processPath) && IsNameOf(r.processPath, r.processName)
    ensures r.active == p.active && r.contextIds == p.contextIds && r.init == p.init
  {
    var path := FirstWord(cmdLine);
    FirstWordIsPath(cmdLine);
    LastComponentIsName(path);
    ProcessInfo(pid, LastComponent(path), cmdLine, p.active, path, p.contextIds, p.init)
  }

  /** The path and name `Update` records are the only ones meeting their
      descriptions: any other reading of the command line disagrees. */
  lemma UpdateIsDetermined(p: ProcessInfo, pid: nat, cmdLine: string, path: string, name: string)
    requires IsPathOf(cmdLine, path) && IsNameOf(path, name)
    ensures Update(p, pid, cmdLine).processPath == path
    ensures Update(p, pid, cmdLine).processName == name
  {
    FirstWordIsPath(cmdLine);
    PathUnique(cmdLine, path, FirstWord(cmdLine));
    LastComponentIsName(path);
    NameUnique(path, name, LastComponent(path));
  }

  /** Records by pid. */
  type ProcessTable = map<nat, ProcessInfo>

  /** Look a pid up, creating (and caching) a blank record on first use. */
  function ProcessByPid(table: ProcessTable, pid: nat): (r: (ProcessTable, ProcessInfo))
    ensures pid in r.0 && r.0[pid] == r.1
    ensures pid in table ==> r.0 == table
    ensures pid !in table ==> r.0 == table[pid := NewProcessInfo()]
  {
    if pid in table then (table, table[pid])
    else (table[pid := NewProcessInfo()], NewProcessInfo())
  }

  /** A `process_info` reply: the record for its pid (created when missing)
      is updated, every other record is untouched. */
  function OnProcessInfo(table: ProcessTable, pid: nat, cmdLine: string): (r: ProcessTable)
    ensures r.Keys == table.Keys + {pid}
    ensures pid in table ==> r[pid] == Update(table[pid], pid, cmdLine)
    ensures pid !in table ==> r[pid] == Update(NewProcessInfo(), pid, cmdLine)
    ensures forall q :: q in table && q != pid ==> r[q] == table[q]
  {
    var looked := ProcessByPid(table, pid);
    looked.0[pid := Update(looked.1, pid, cmdLine)]
  }
}
