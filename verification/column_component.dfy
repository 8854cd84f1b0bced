/**
 * One column of the drag-and-drop board: the board it adds tasks to and
 * deletes them from, and the state of its "add a task" input.
 */
module ColumnComponent {
  import opened Kanban

  /**
   * The code points `String.prototype.trim` strips, white space and line
   * terminators, as inclusive ranges: tab to carriage return, space,
   * no-break space, Ogham space mark, en quad to hair space, line and
   * paragraph separators, narrow no-break space, medium mathematical space,
   * ideographic space and the byte order mark.
   */
  const TrimmableRanges: seq<(int, int)> := [
    (0x09, 0x0D), (0x20, 0x20), (0xA0, 0xA0), (0x1680, 0x1680), (0x2000, 0x200A),
    (0x2028, 0x2029), (0x202F, 0x202F), (0x205F, 0x205F), (0x3000, 0x3000), (0xFEFF, 0xFEFF)]

  /** Whether `n` lies in one of the inclusive `ranges`. */
  predicate InRanges(n: int, ranges: seq<(int, int)>) {
    ranges != [] && (ranges[0].0 <= n <= ranges[0].1 || InRanges(n, ranges[1..]))
  }

  /** Whether `String.prototype.trim` strips `c`. */
  predicate IsTrimmable(c: char) {
    InRanges(c as int, TrimmableRanges)
  }

  predicate AllTrimmable(s: string) {
    forall i :: 0 <= i < |s| ==> IsTrimmable(s[i])
  }

  /**
   * `r` is `s` with only trimmable characters around it: the slice of `s`
   * at some offset, with every character before and after it trimmable.
   */
  predicate TrimmedSliceOf(s: string, r: string) {
    exists i :: 0 <= i <= |s| - |r| && r == s[i..i + |r|] && AllTrimmable(s[..i]) && AllTrimmable(s[i + |r|..])
  }

  /** `s` with its leading trimmable characters removed: a suffix of `s`. */
  function TrimStart(s: string): (r: string)
    ensures |r| <= |s| && r == s[|s| - |r|..]
  {
    if s != [] && IsTrimmable(s[0]) then TrimStart(s[1..]) else s
  }

  /** What `TrimStart` removes is trimmable. */
  lemma {:induction false} TrimStartRemovesTrimmable(s: string)
    ensures AllTrimmable(s[..|s| - |TrimStart(s)|])
  {
    if s != [] && IsTrimmable(s[0]) {
      var tail := s[1..];
      var r := TrimStart(tail);
      assert TrimStart(s) == r;
      TrimStartRemovesTrimmable(tail);
      var n := |tail| - |r|;
      TrimmableCons(s[0], tail[..n]);
      assert s[..n + 1] == [s[0]] + tail[..n];
    }
  }

  /** What `TrimStart` keeps does not start with a trimmable character. */
  lemma {:induction false} TrimStartKeepsUntrimmableHead(s: string)
    ensures TrimStart(s) == [] || !IsTrimmable(TrimStart(s)[0])
  {
    if s != [] && IsTrimmable(s[0]) {
      TrimStartKeepsUntrimmableHead(s[1..]);
    }
  }

  /** A trimmable character followed by trimmable ones is all trimmable. */
  lemma TrimmableCons(c: char, rest: string)
    requires IsTrimmable(c) && AllTrimmable(rest)
    ensures AllTrimmable([c] + rest)
  {
    assert forall i :: 1 <= i < |[c] + rest| ==> ([c] + rest)[i] == rest[i - 1];
  }

  /** `s` with its trailing trimmable characters removed: a prefix of `s`. */
  function TrimEnd(s: string): (r: string)
    ensures |r| <= |s| && r == s[..|r|]
  {
    if s != [] && IsTrimmable(s[|s| - 1]) then TrimEnd(s[..|s| - 1]) else s
  }

  /** What `TrimEnd` removes is trimmable. */
  lemma {:induction false} TrimEndRemovesTrimmable(s: string)
    ensures AllTrimmable(s[|TrimEnd(s)|..])
  {
    if s != [] && IsTrimmable(s[|s| - 1]) {
      var init := s[..|s| - 1];
      var r := TrimEnd(init);
      assert TrimEnd(s) == r;
      TrimEndRemovesTrimmable(init);
      TrimmableSnoc(init[|r|..], s[|s| - 1]);
      assert s[|r|..] == init[|r|..] + [s[|s| - 1]];
    }
  }

  /** What `TrimEnd` keeps does not end with a trimmable character. */
  lemma {:induction false} TrimEndKeepsUntrimmableLast(s: string)
    ensures TrimEnd(s) == [] || !IsTrimmable(TrimEnd(s)[|TrimEnd(s)| - 1])
  {
    if s != [] && IsTrimmable(s[|s| - 1]) {
      TrimEndKeepsUntrimmableLast(s[..|s| - 1]);
    }
  }

  /** Trimmable characters followed by a trimmable one are all trimmable. */
  lemma TrimmableSnoc(rest: string, c: char)
    requires AllTrimmable(rest) && IsTrimmable(c)
    ensures AllTrimmable(rest + [c])
  {
    assert forall i :: 0 <= i < |rest| ==> (rest + [c])[i] == rest[i];
  }

  /**
   * `s.trim()`: `s` without its leading and trailing trimmable characters
   * (`TrimIsTrimmedSlice` states what that leaves).
   */
  function Trim(s: string): string {
    TrimEnd(TrimStart(s))
  }

  /**
   * The trimmed string is a slice of the input with only trimmable
   * characters around it, and it starts and ends with a character that is
   * not trimmable.
   */
  lemma TrimIsTrimmedSlice(s: string)
    ensures TrimmedSliceOf(s, Trim(s))
    ensures Trim(s) == [] || (!IsTrimmable(Trim(s)[0]) && !IsTrimmable(Trim(s)[|Trim(s)| - 1]))
  {
    var t := TrimStart(s);
    var r := TrimEnd(t);
    TrimStartRemovesTrimmable(s);
    TrimStartKeepsUntrimmableHead(s);
    TrimEndRemovesTrimmable(t);
    TrimEndKeepsUntrimmableLast(t);
    TrimmedSlice(s, t, r);
  }

  /** A trimmed end of a trimmed start of `s` is a slice of `s` with only trimmable characters around it. */
  lemma TrimmedSlice(s: string, t: string, r: string)
    requires |t| <= |s| && t == s[|s| - |t|..] && AllTrimmable(s[..|s| - |t|])
    requires t == [] || !IsTrimmable(t[0])
    requires |r| <= |t| && r == t[..|r|] && AllTrimmable(t[|r|..])
    requires r == [] || !IsTrimmable(r[|r| - 1])
    ensures r == [] || (!IsTrimmable(r[0]) && !IsTrimmable(r[|r| - 1]))
    ensures TrimmedSliceOf(s, r)
  {
    var i := |s| - |t|;
    assert r == s[i..i + |r|];
    assert t[|r|..] == s[i + |r|..];
    assert r == [] || r[0] == t[0];
  }

  /** Trimming yields the empty string exactly for input made of trimmable characters only. */
  lemma TrimEmptyIffAllTrimmable(s: string)
    ensures Trim(s) == "" <==> AllTrimmable(s)
  {
    if Trim(s) != "" {
      TrimKeepsAnUntrimmable(s);
    } else {
      TrimmedAwayIsTrimmable(s);
    }
  }

  /** A non-empty trim starts with a character of the input that is not trimmable. */
  lemma TrimKeepsAnUntrimmable(s: string)
    requires Trim(s) != ""
    ensures !AllTrimmable(s)
  {
    var t := TrimStart(s);
    TrimStartKeepsUntrimmableHead(s);
    assert Trim(s) == TrimEnd(t);
    assert t[0] == s[|s| - |t|];
  }

  /** An empty trim means every character was trimmed away. */
  lemma TrimmedAwayIsTrimmable(s: string)
    requires Trim(s) == ""
    ensures AllTrimmable(s)
  {
    var t := TrimStart(s);
    var i := |s| - |t|;
    TrimStartRemovesTrimmable(s);
    TrimEndRemovesTrimmable(t);
    assert Trim(s) == TrimEnd(t);
    assert t[0..] == t;
    forall k | 0 <= k < |s|
      ensures IsTrimmable(s[k])
    {
      if k < i {
        assert s[k] == s[..i][k];
      } else {
        assert s[k] == t[k - i];
      }
    }
  }

  /** Trimming twice is trimming once. */
  lemma TrimIdempotent(s: string)
    ensures Trim(Trim(s)) == Trim(s)
  {
    var r := Trim(s);
    TrimIsTrimmedSlice(s);
    if r != [] {
      assert TrimStart(r) == r;
      assert TrimEnd(r) == r;
    }
  }

  class ColumnState {
    const column: Column
    var boardData: BoardData
    var isAddingTask: bool
    var newTaskContent: string

    constructor (column: Column, boardData: BoardData)
      ensures this.column == column && this.boardData == boardData
      ensures !isAddingTask && newTaskContent == ""
    {
      this.column := column;
      this.boardData := boardData;
      isAddingTask := false;
      newTaskContent := "";
    }

    /** The tasks the board hands this column: the board's tasks with this column's id, in board order. */
    function Tasks(): seq<Task>
      reads this
    {
      TasksIn(boardData.tasks, column.id)
    }

    /**
     * Adding the typed task with generated id `newId`: input that trims to
     * nothing changes nothing; otherwise the trimmed title is appended in
     * this column with the column's task count as position, and the input
     * is cleared and closed.
     */
    method HandleAddTask(newId: string)
      modifies this
      ensures Trim(old(newTaskContent)) == "" ==>
        boardData == old(boardData) && isAddingTask == old(isAddingTask) && newTaskContent == old(newTaskContent)
      ensures Trim(old(newTaskContent)) != "" ==>
        && boardData.columns == old(boardData.columns)
        && boardData.tasks == old(boardData.tasks) + [Task(newId, Trim(old(newTaskContent)), column.id, |old(Tasks())|)]
        && newTaskContent == "" && !isAddingTask
      ensures DensePerColumn(old(boardData)) ==> DensePerColumn(boardData)
    {
      var title := Trim(newTaskContent);
      if title != "" {
        var task := Task(newId, title, column.id, |Tasks()|);
        if DensePerColumn(boardData) {
          AppendAtCountKeepsDense(boardData, task);
        }
        boardData := boardData.(tasks := boardData.tasks + [task]);
        newTaskContent := "";
        isAddingTask := false;
      }
    }

    /** The input's key handler: Enter adds the task, Escape closes and clears the input. */
    method HandleKeyDown(key: string, newId: string)
      modifies this
      ensures key == "Enter" ==>
        if Trim(old(newTaskContent)) == "" then
          boardData == old(boardData) && isAddingTask == old(isAddingTask) && newTaskContent == old(newTaskContent)
        else
          && boardData.tasks == old(boardData.tasks) + [Task(newId, Trim(old(newTaskContent)), column.id, |old(Tasks())|)]
          && boardData.columns == old(boardData.columns)
          && newTaskContent == "" && !isAddingTask
      ensures key == "Escape" ==> boardData == old(boardData) && !isAddingTask && newTaskContent == ""
      ensures key != "Enter" && key != "Escape" ==>
        boardData == old(boardData) && isAddingTask == old(isAddingTask) && newTaskContent == old(newTaskContent)
    {
      if key == "Enter" {
        HandleAddTask(newId);
      }
      if key == "Escape" {
        isAddingTask := false;
        newTaskContent := "";
      }
    }

    /** The Cancel button closes and clears the input and leaves the board alone. */
    method Cancel()
      modifies this
      ensures boardData == old(boardData) && !isAddingTask && newTaskContent == ""
    {
      isAddingTask := false;
      newTaskContent := "";
    }

    /** The "+ Add a task" button opens the input. */
    method OpenAddForm()
      modifies this
      ensures isAddingTask
      ensures boardData == old(boardData) && newTaskContent == old(newTaskContent)
    {
      isAddingTask := true;
    }

    /** Typing replaces the input's content. */
    method Type(value: string)
      modifies this
      ensures newTaskContent == value
      ensures boardData == old(boardData) && isAddingTask == old(isAddingTask)
    {
      newTaskContent := value;
    }

    /** A card's delete button removes the tasks with the card's id from the board and nothing else. */
    method DeleteCard(taskId: string)
      modifies this
      ensures boardData == old(boardData).(tasks := RemoveTask(old(boardData.tasks), taskId))
      ensures isAddingTask == old(isAddingTask) && newTaskContent == old(newTaskContent)
      ensures RefsValid(old(boardData)) && IdsDistinct(old(boardData)) ==> RefsValid(boardData) && IdsDistinct(boardData)
    {
      if RefsValid(boardData) && IdsDistinct(boardData) {
        RemoveTaskKeepsWellFormed(boardData, taskId);
      }
      boardData := boardData.(tasks := RemoveTask(boardData.tasks, taskId));
    }
  }
}
