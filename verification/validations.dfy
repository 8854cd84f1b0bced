/**
 * The three form schemas. Each schema is modelled by the list of issues a
 * parse reports (the schema's own messages); a form is valid when that list
 * is empty, and each issue function's contract states the bounds directly.
 * String lengths are counted in UTF-16 code units, as JavaScript counts them.
 */
module Validations {
  import opened Common

  /** JavaScript's `length`: characters outside the Basic Multilingual Plane take two code units. */
  function Utf16Length(s: string): (n: nat)
    ensures |s| <= n <= 2 * |s|
    ensures (forall i :: 0 <= i < |s| ==> s[i] <= '\U{FFFF}') ==> n == |s|
  {
    if s == [] then 0
    else (if s[0] <= '\U{FFFF}' then 1 else 2) + Utf16Length(s[1..])
  }

  datatype Issue = Issue(path: string, message: string)

  /** Appends `issue` when `failed`. */
  function Check(failed: bool, issue: Issue): seq<Issue> {
    if failed then [issue] else []
  }

  // ---------------------------------------------------------------------
  // taskFormSchema
  // ---------------------------------------------------------------------

  datatype TaskForm = TaskForm(
    title: string,
    description: Option<string>,
    priority: string,
    dueDate: Option<string>,
    labelIds: seq<string>)

  predicate IsPriority(p: string) {
    p == "low" || p == "medium" || p == "high"
  }

  /** The enum's message, which quotes the value received. */
  function InvalidPriorityMessage(received: string): string {
    "Invalid enum value. Expected 'low' | 'medium' | 'high', received '" + received + "'"
  }

  function TaskFormIssues(f: TaskForm): (issues: seq<Issue>)
    ensures issues == [] <==>
      && 1 <= Utf16Length(f.title) <= 100
      && (f.description.Some? ==> Utf16Length(f.description.value) <= 500)
      && (f.priority == "low" || f.priority == "medium" || f.priority == "high")
  {
    Check(Utf16Length(f.title) < 1, Issue("title", "Title is required"))
    + Check(Utf16Length(f.title) > 100, Issue("title", "Title too long"))
    + Check(f.description.Some? && Utf16Length(f.description.value) > 500,
            Issue("description", "Description too long"))
    + Check(!IsPriority(f.priority), Issue("priority", InvalidPriorityMessage(f.priority)))
  }

  /** 'Title is required' is reported exactly for the empty title. */
  lemma TitleRequiredIffEmpty(f: TaskForm)
    ensures Issue("title", "Title is required") in TaskFormIssues(f) <==> f.title == ""
  {
    var required := Issue("title", "Title is required");
    assert Utf16Length(f.title) < 1 <==> f.title == "";
    assert required != Issue("title", "Title too long") by {
      assert |required.message| != |"Title too long"|;
    }
    assert required.path != "description" && required.path != "priority" by {
      assert |required.path| != |"description"| && |required.path| != |"priority"|;
    }
  }

  // ---------------------------------------------------------------------
  // columnFormSchema
  // ---------------------------------------------------------------------

  datatype ColumnForm = ColumnForm(title: string, color: Option<string>, taskLimit: Option<int>)

  /** `/^#[0-9A-F]{6}$/i`. */
  predicate IsHexColor(s: string) {
    |s| == 7 && s[0] == '#' && forall i :: 1 <= i < 7 ==> IsHexDigit(s[i])
  }

  function ColumnFormIssues(f: ColumnForm): (issues: seq<Issue>)
    ensures issues == [] <==>
      && 1 <= Utf16Length(f.title) <= 50
      && (f.color.Some? ==> |f.color.value| == 7 && f.color.value[0] == '#'
                            && forall i :: 1 <= i < 7 ==> IsHexDigit(f.color.value[i]))
      && (f.taskLimit.Some? ==> 1 <= f.taskLimit.value <= 100)
  {
    Check(Utf16Length(f.title) < 1, Issue("title", "Column name is required"))
    + Check(Utf16Length(f.title) > 50, Issue("title", "Name too long"))
    + Check(f.color.Some? && !IsHexColor(f.color.value), Issue("color", "Invalid color"))
    + Check(f.taskLimit.Some? && f.taskLimit.value < 1,
            Issue("taskLimit", "Number must be greater than or equal to 1"))
    + Check(f.taskLimit.Some? && f.taskLimit.value > 100,
            Issue("taskLimit", "Number must be less than or equal to 100"))
  }

  // ---------------------------------------------------------------------
  // boardFormSchema
  // ---------------------------------------------------------------------

  datatype BoardForm = BoardForm(title: string, description: Option<string>)

  function BoardFormIssues(f: BoardForm): (issues: seq<Issue>)
    ensures issues == [] <==>
      && 1 <= Utf16Length(f.title) <= 100
      && (f.description.Some? ==> Utf16Length(f.description.value) <= 500)
  {
    Check(Utf16Length(f.title) < 1, Issue("title", "Board name is required"))
    + Check(Utf16Length(f.title) > 100, Issue("title", "Name too long"))
    + Check(f.description.Some? && Utf16Length(f.description.value) > 500,
            Issue("description", "Description too long"))
  }

  /** A title never fails both of its bounds at once, so each title issue is reported alone. */
  lemma {:induction false} TitleIssuesExclusive(f: TaskForm)
    ensures |TaskFormIssues(f)| <= 3
    ensures Issue("title", "Title is required") in TaskFormIssues(f)
        ==> Issue("title", "Title too long") !in TaskFormIssues(f)
  {
  }

  /** Every string of at most 100 characters from the Basic Multilingual Plane passes the title bound's upper half. */
  lemma BmpTitleLength(s: string)
    requires |s| <= 100
    requires forall i :: 0 <= i < |s| ==> s[i] <= '\U{FFFF}'
    ensures Utf16Length(s) <= 100
  {
  }

  /** Every astral character (an emoji, say) counts twice against the bounds, every other character once. */
  lemma AstralCharCountsTwice(c: char)
    ensures Utf16Length([c]) == if c > '\U{FFFF}' then 2 else 1
  {
    assert [c][1..] == [];
  }

  /** The length of a concatenation is the sum of the lengths, so each character counts on its own. */
  lemma {:induction false} Utf16LengthConcat(s: string, t: string)
    ensures Utf16Length(s + t) == Utf16Length(s) + Utf16Length(t)
  {
    if s != [] {
      assert (s + t)[1..] == s[1..] + t;
      Utf16LengthConcat(s[1..], t);
    } else {
      assert s + t == t;
    }
  }
}
