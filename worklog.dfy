/**
  The worklog tool: `read_input` turns the lines of an input file into a
  name, a task list and a commit list, and `build_worklog` assembles the
  report text from them.  The input arrives already split into lines; the
  date and the meeting hours arrive already formatted as text.
 */
module Worklog {
  import opened Text

  /** The section the parser is in: before any header, under `[tasks]`, under `[commits]`. */
  datatype Section = NoSection | Tasks | Commits

  /** The section a line switches to when it is a header (any case), or `NoSection` when it is not a header. */
  function HeaderOf(ln: string): (s: Section)
    ensures s == Tasks <==> Lower(ln) == "[tasks]"
    ensures s == Commits <==> Lower(ln) == "[commits]"
    ensures s != NoSection ==> ln != ""
  {
    if Lower(ln) == "[tasks]" then Tasks
    else if Lower(ln) == "[commits]" then Commits
    else NoSection
  }

  /** The section in effect before line `i`: the last header among `ls[..i]`, or none. */
  function SectionAt(ls: seq<string>, i: nat): Section
    requires i <= |ls|
  {
    if i == 0 then NoSection
    else if ls[i - 1] != "" && HeaderOf(ls[i - 1]) != NoSection then HeaderOf(ls[i - 1])
    else SectionAt(ls, i - 1)
  }

  /** Line `i` is recorded under section `sec`: it is not blank, not a header, and `sec` is in effect. */
  predicate Recorded(ls: seq<string>, i: nat, sec: Section)
    requires i < |ls|
  {
    ls[i] != "" && HeaderOf(ls[i]) == NoSection && SectionAt(ls, i) == sec
  }

  /** The lines among `ls[..n]` recorded under `sec`, in input order. */
  function Selected(ls: seq<string>, n: nat, sec: Section): seq<string>
    requires n <= |ls|
  {
    if n == 0 then []
    else Selected(ls, n - 1, sec) + (if Recorded(ls, n - 1, sec) then [ls[n - 1]] else [])
  }

  /** `[ln.strip() for ln in lines]`. */
  function StripAll(raw: seq<string>): (ls: seq<string>)
    ensures |ls| == |raw|
    ensures forall i :: 0 <= i < |raw| ==> ls[i] == Strip(raw[i])
  {
    seq(|raw|, i requires 0 <= i < |raw| => Strip(raw[i]))
  }

  /** The lines after the name line, stripped. */
  function Body(raw: seq<string>): seq<string> {
    if raw == [] then [] else StripAll(raw)[1..]
  }

  /**
    `read_input`: the name is the first stripped line, or "Your Name" for an
    empty file; the remaining lines are walked once, recording each under the
    section of the last header seen.
   */
  method ReadInput(raw: seq<string>) returns (name: string, tasks: seq<string>, commits: seq<string>)
    ensures name == if raw == [] then "Your Name" else Strip(raw[0])
    ensures tasks == Selected(Body(raw), |Body(raw)|, Tasks)
    ensures commits == Selected(Body(raw), |Body(raw)|, Commits)
  {
    var lines := StripAll(raw);
    name := if |lines| > 0 then lines[0] else "Your Name";
    var body := if |lines| > 0 then lines[1..] else [];
    assert body == Body(raw);
    tasks, commits := Walk(body);
  }

  /** The loop of `read_input` over the stripped lines after the name. */
  method Walk(body: seq<string>) returns (tasks: seq<string>, commits: seq<string>)
    ensures tasks == Selected(body, |body|, Tasks)
    ensures commits == Selected(body, |body|, Commits)
  {
    tasks := [];
    commits := [];
    var section := NoSection;
    var i := 0;
    while i < |body|
      invariant 0 <= i <= |body|
      invariant section == SectionAt(body, i)
      invariant tasks == Selected(body, i, Tasks)
      invariant commits == Selected(body, i, Commits)
    {
      var ln := body[i];
      var header := HeaderOf(ln);
      ReadStep(body, i);
      if ln == "" {
      } else if header == Tasks {
        section := Tasks;
      } else if header == Commits {
        section := Commits;
      } else if section == Tasks {
        tasks := tasks + [ln];
      } else if section == Commits {
        commits := commits + [ln];
      }
      i := i + 1;
    }
  }

  /** One line of the walk: the section and both lists after line `i`, from those before it. */
  lemma ReadStep(ls: seq<string>, i: nat)
    requires i < |ls|
    ensures var h := HeaderOf(ls[i]);
      SectionAt(ls, i + 1) == if ls[i] != "" && h != NoSection then h else SectionAt(ls, i)
    ensures forall sec :: Selected(ls, i + 1, sec) ==
                          Selected(ls, i, sec) + (if Recorded(ls, i, sec) then [ls[i]] else [])
  {
  }

  // ---------------------------------------------------------------------------
  // What the parser records

  /** Every recorded line is non-blank and not a header. */
  lemma {:induction false} SelectedLines(ls: seq<string>, n: nat, sec: Section)
    requires n <= |ls|
    ensures forall k :: 0 <= k < |Selected(ls, n, sec)| ==>
      Selected(ls, n, sec)[k] != "" && HeaderOf(Selected(ls, n, sec)[k]) == NoSection
    ensures |Selected(ls, n, sec)| <= n
  {
    if n > 0 {
      SelectedLines(ls, n - 1, sec);
    }
  }

  /** Every task and commit is one of the input lines, stripped. */
  lemma {:induction false} SelectedFrom(ls: seq<string>, n: nat, sec: Section, k: nat)
    requires n <= |ls| && k < |Selected(ls, n, sec)|
    ensures exists j :: 0 <= j < n && Selected(ls, n, sec)[k] == ls[j] && Recorded(ls, j, sec)
  {
    if k < |Selected(ls, n - 1, sec)| {
      SelectedFrom(ls, n - 1, sec, k);
    } else {
      assert Selected(ls, n, sec)[k] == ls[n - 1];
    }
  }

  /** Lines before the first header are recorded nowhere. */
  lemma {:induction false} NothingBeforeHeader(ls: seq<string>, m: nat, sec: Section)
    requires m <= |ls|
    requires forall i :: 0 <= i < m ==> HeaderOf(ls[i]) == NoSection
    ensures SectionAt(ls, m) == NoSection
    ensures sec != NoSection ==> Selected(ls, m, sec) == []
  {
    if m > 0 {
      NothingBeforeHeader(ls, m - 1, sec);
    }
  }

  /** Reading more lines only appends: the lists read so far are prefixes of the final lists. */
  lemma {:induction false} SelectedGrows(ls: seq<string>, m: nat, n: nat, sec: Section)
    requires m <= n <= |ls|
    ensures HasPrefixSeq(Selected(ls, n, sec), Selected(ls, m, sec))
    decreases n - m
  {
    if m < n {
      SelectedGrows(ls, m, n - 1, sec);
    }
  }

  predicate HasPrefixSeq(xs: seq<string>, p: seq<string>) {
    |p| <= |xs| && xs[..|p|] == p
  }

  /**
    A header line records nothing and clears nothing: after `[tasks]` appears
    a second time, the tasks read before it are still there and new ones are
    added after them.
   */
  lemma HeaderKeepsLists(ls: seq<string>, j: nat, sec: Section)
    requires j < |ls| && HeaderOf(ls[j]) != NoSection
    ensures Selected(ls, j + 1, sec) == Selected(ls, j, sec)
    ensures SectionAt(ls, j + 1) == HeaderOf(ls[j])
  {
  }

  /** A non-blank, non-header line under `sec` is appended to that section's list and to no other. */
  lemma RecordedAppends(ls: seq<string>, j: nat)
    requires j < |ls| && ls[j] != "" && HeaderOf(ls[j]) == NoSection
    ensures SectionAt(ls, j) == Tasks ==>
      Selected(ls, j + 1, Tasks) == Selected(ls, j, Tasks) + [ls[j]] &&
      Selected(ls, j + 1, Commits) == Selected(ls, j, Commits)
    ensures SectionAt(ls, j) == Commits ==>
      Selected(ls, j + 1, Commits) == Selected(ls, j, Commits) + [ls[j]] &&
      Selected(ls, j + 1, Tasks) == Selected(ls, j, Tasks)
    ensures SectionAt(ls, j) == NoSection ==>
      Selected(ls, j + 1, Tasks) == Selected(ls, j, Tasks) &&
      Selected(ls, j + 1, Commits) == Selected(ls, j, Commits)
  {
  }

  /** No line is recorded twice: tasks and commits together are at most the number of lines. */
  lemma {:induction false} SelectedCount(ls: seq<string>, n: nat)
    requires n <= |ls|
    ensures |Selected(ls, n, Tasks)| + |Selected(ls, n, Commits)| <= n
  {
    if n > 0 {
      SelectedCount(ls, n - 1);
    }
  }

  // ---------------------------------------------------------------------------
  // Assembling the report

  /** The report's lines, in the order `build_worklog` appends them. */
  function WorklogLines(name: string, day: string, hours: string, tasks: seq<string>, commits: seq<string>): seq<string> {
    [name + "'s Worklog - " + day, "Team Meeting: " + hours + "h", ""]
    + (if tasks != [] then ["Task:"] + tasks + [""] else [])
    + (if commits != [] then ["Commit Links:"] + commits else [])
  }

  /**
    `build_worklog`: the title, the meeting line and a blank line, then the
    task block when there are tasks, then the commit block when there are
    commits, joined with newlines.  The hours arrive already formatted.
   */
  method BuildWorklog(name: string, day: string, hours: string, tasks: seq<string>, commits: seq<string>)
    returns (text: string)
    ensures text == Join(WorklogLines(name, day, hours, tasks, commits), '\n')
  {
    var lines := [name + "'s Worklog - " + day];
    lines := lines + ["Team Meeting: " + hours + "h"];
    lines := lines + [""];
    if tasks != [] {
      lines := lines + ["Task:"];
      lines := lines + tasks;
      lines := lines + [""];
    }
    if commits != [] {
      lines := lines + ["Commit Links:"];
      lines := lines + commits;
    }
    assert lines == WorklogLines(name, day, hours, tasks, commits);
    text := Join(lines, '\n');
  }

  /** The report always opens with the title, the meeting line and a blank line. */
  lemma WorklogOpening(name: string, day: string, hours: string, tasks: seq<string>, commits: seq<string>)
    ensures var ls := WorklogLines(name, day, hours, tasks, commits);
      |ls| >= 3 && ls[0] == name + "'s Worklog - " + day && ls[1] == "Team Meeting: " + hours + "h" && ls[2] == ""
  {
  }

  /** The task block: "Task:", the tasks in order, a blank line; absent without tasks. */
  lemma WorklogTaskBlock(name: string, day: string, hours: string, tasks: seq<string>, commits: seq<string>)
    ensures var ls := WorklogLines(name, day, hours, tasks, commits);
      tasks != [] ==> |ls| >= 5 + |tasks| && ls[3] == "Task:" && ls[4..4 + |tasks|] == tasks && ls[4 + |tasks|] == ""
    ensures var ls := WorklogLines(name, day, hours, tasks, commits);
      tasks == [] && commits != [] ==> ls[3] == "Commit Links:"
    ensures "Task:" in WorklogLines(name, day, hours, tasks, commits) ==> tasks != [] || "Task:" in commits
  {
    var ls := WorklogLines(name, day, hours, tasks, commits);
    if tasks != [] {
      assert ls[4..4 + |tasks|] == tasks;
    }
  }

  /** The commit block: "Commit Links:" then the commits in order, closing the report; absent without commits. */
  lemma WorklogCommitBlock(name: string, day: string, hours: string, tasks: seq<string>, commits: seq<string>)
    ensures var ls := WorklogLines(name, day, hours, tasks, commits);
      commits != [] ==> |ls| > |commits| && ls[|ls| - |commits|..] == commits && ls[|ls| - |commits| - 1] == "Commit Links:"
    ensures var ls := WorklogLines(name, day, hours, tasks, commits);
      commits == [] ==> ls[|ls| - 1] == ""
  {
    var ls := WorklogLines(name, day, hours, tasks, commits);
    if commits != [] {
      assert ls[|ls| - |commits|..] == commits;
    }
  }

  /** Splitting the text on newlines gives back the report's lines when no part holds a newline. */
  lemma WorklogSplits(name: string, day: string, hours: string, tasks: seq<string>, commits: seq<string>)
    requires '\n' !in name && '\n' !in day && '\n' !in hours
    requires forall i :: 0 <= i < |tasks| ==> '\n' !in tasks[i]
    requires forall i :: 0 <= i < |commits| ==> '\n' !in commits[i]
    ensures var ls := WorklogLines(name, day, hours, tasks, commits);
      Split(Join(ls, '\n'), '\n') == ls &&
      |ls| == 3 + (if tasks != [] then |tasks| + 2 else 0) + (if commits != [] then |commits| + 1 else 0)
  {
    var ls := WorklogLines(name, day, hours, tasks, commits);
    forall i | 0 <= i < |ls| ensures '\n' !in ls[i] {
      if i >= 3 + (if tasks != [] then |tasks| + 2 else 0) + 1 {
        assert ls[i] in commits;
      } else if 4 <= i < 4 + |tasks| && tasks != [] {
        assert ls[i] == tasks[i - 4];
      }
    }
    SplitJoin(ls, '\n');
  }

  lemma {:induction false} JoinSnoc(xs: seq<string>, y: string, sep: char)
    requires |xs| >= 1
    ensures Join(xs + [y], sep) == Join(xs, sep) + [sep] + y
  {
    if |xs| > 1 {
      JoinSnoc(xs[1..], y, sep);
      assert (xs + [y])[1..] == xs[1..] + [y];
    }
  }

  /**
    `"\n".join` adds no newline after the last line, so the text ends in a
    newline exactly when its last line is blank: when there are no commits.
   */
  lemma WorklogEnding(name: string, day: string, hours: string, tasks: seq<string>, commits: seq<string>)
    requires commits != [] ==> commits[|commits| - 1] != "" && commits[|commits| - 1][|commits[|commits| - 1]| - 1] != '\n'
    ensures var text := Join(WorklogLines(name, day, hours, tasks, commits), '\n');
      |text| > 0 && (text[|text| - 1] == '\n' <==> commits == [])
  {
    var ls := WorklogLines(name, day, hours, tasks, commits);
    var front := ls[..|ls| - 1];
    var last := ls[|ls| - 1];
    assert ls == front + [last];
    JoinSnoc(front, last, '\n');
    WorklogCommitBlock(name, day, hours, tasks, commits);
    if commits != [] {
      assert last == commits[|commits| - 1];
    }
  }
}
