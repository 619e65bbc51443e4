/**
 * The locally answered commands: choosing a unit conversion
 * (`convert_units`, main.py:219-225), the `/convert` reply (main.py:428-433),
 * adding a to-do task (main.py:441-450) and rendering the task list
 * (`list_tasks`, main.py:227-229).
 */
module Tools {

  import opened Common
  import opened Text

  // ---------------------------------------------------------------------
  // Unit conversion

  /** The branch `convert_units` takes. */
  datatype Conversion =
    | Mass          // kilograms to pounds
    | Temperature   // Celsius to Fahrenheit
    | Distance      // kilometres to miles
    | Unsupported
    | Failed        // `unit[0]` raised IndexError, caught by the bare `except`

  /**
   * The branch chosen from the first characters of the two unit words,
   * tested in order with Python's short-circuit `and`: `to` is only looked
   * at once `from` has matched, so an empty word fails only when it is
   * actually indexed.
   */
  function SelectConversion(from: string, to: string): (r: Conversion)
    ensures r == Failed ==> |from| == 0 || |to| == 0
    ensures r != Failed && r != Unsupported ==> |from| > 0 && |to| > 0 && (from[0] == 'k' || from[0] == 'c')
  {
    if |from| == 0 then Failed
    else if from[0] == 'k' then
      if |to| == 0 then Failed
      else if to[0] == 'l' then Mass
      else if to[0] == 'm' then Distance
      else Unsupported
    else if from[0] == 'c' then
      if |to| == 0 then Failed
      else if to[0] == 'f' then Temperature
      else Unsupported
    else Unsupported
  }

  /**
   * The branch choice stated per outcome: `k…`/`l…` is mass, `c…`/`f…`
   * temperature, `k…`/`m…` distance, an empty word that gets indexed fails,
   * and everything else is unsupported.
   */
  lemma SelectConversionCases(from: string, to: string)
    ensures SelectConversion(from, to) == Mass <==> |from| > 0 && |to| > 0 && from[0] == 'k' && to[0] == 'l'
    ensures SelectConversion(from, to) == Temperature <==> |from| > 0 && |to| > 0 && from[0] == 'c' && to[0] == 'f'
    ensures SelectConversion(from, to) == Distance <==> |from| > 0 && |to| > 0 && from[0] == 'k' && to[0] == 'm'
    ensures SelectConversion(from, to) == Failed <==> |from| == 0 || (|to| == 0 && (from[0] == 'k' || from[0] == 'c'))
    ensures SelectConversion(from, to) == Unsupported <==>
      && |from| > 0
      && (from[0] == 'k' || from[0] == 'c' ==> |to| > 0)
      && !(from[0] == 'k' && |to| > 0 && (to[0] == 'l' || to[0] == 'm'))
      && !(from[0] == 'c' && |to| > 0 && to[0] == 'f')
  {
  }

  /**
   * Only the first letters matter, and they are compared case-sensitively:
   * `kilograms to lbs` is mass, but `KG to LBS` is not supported.
   */
  lemma SelectConversionFirstLetters()
    ensures SelectConversion("kilograms", "lbs") == Mass
    ensures SelectConversion("kg", "l") == Mass
    ensures SelectConversion("KG", "LBS") == Unsupported
    ensures SelectConversion("cat", "fish") == Temperature
    ensures SelectConversion("km", "miles") == Distance
    ensures SelectConversion("mi", "km") == Unsupported
  {
  }

  /**
   * What the `/convert` regular expression and the `float()` of its first
   * group give. `float()` runs outside `convert_units`'s `try`, so a number
   * such as `1.2.3` that the pattern `[\d.]+` accepts raises out of the turn.
   */
  datatype ConvertMatch =
    | NoMatch
    | BadNumber
    | Matched(value: string, from: string, to: string)

  /**
   * The `/convert` reply. `value` is Python's text of the parsed number and
   * `figure` the two-decimal text of the converted amount; both come from
   * floating-point formatting, which the model does not compute.
   */
  function ConvertReply(m: ConvertMatch, figure: string): (reply: string)
    requires !m.BadNumber?
    ensures m.NoMatch? ==> reply == "Format Error."
    ensures m.Matched? && SelectConversion(m.from, m.to) == Unsupported ==> reply == "❌ Conversion not supported."
    ensures m.Matched? && SelectConversion(m.from, m.to) == Failed ==> reply == "❌ Error in conversion."
    ensures m.Matched? && SelectConversion(m.from, m.to) == Mass ==>
              StartsWith(reply, "**Mass:** " + m.value) && Contains(reply, figure + " Lbs")
    ensures m.Matched? && SelectConversion(m.from, m.to) == Temperature ==>
              StartsWith(reply, "**Temp:** " + m.value) && Contains(reply, figure + " F")
    ensures m.Matched? && SelectConversion(m.from, m.to) == Distance ==>
              StartsWith(reply, "**Dist:** " + m.value) && Contains(reply, figure + " Miles")
  {
    match m
    case NoMatch => "Format Error."
    case Matched(value, from, to) =>
      match SelectConversion(from, to)
      case Mass =>
        var pre := "**Mass:** " + value + " Kg = ";
        ContainsInfix(pre, figure + " Lbs", "");
        assert pre + (figure + " Lbs") + "" == pre + (figure + " Lbs");
        pre + (figure + " Lbs")
      case Temperature =>
        var pre := "**Temp:** " + value + " C = ";
        ContainsInfix(pre, figure + " F", "");
        assert pre + (figure + " F") + "" == pre + (figure + " F");
        pre + (figure + " F")
      case Distance =>
        var pre := "**Dist:** " + value + " Km = ";
        ContainsInfix(pre, figure + " Miles", "");
        assert pre + (figure + " Miles") + "" == pre + (figure + " Miles");
        pre + (figure + " Miles")
      case Unsupported => "❌ Conversion not supported."
      case Failed => "❌ Error in conversion."
  }

  // ---------------------------------------------------------------------
  // To-do list

  /** The result of `/todo`: the new task list and the reply. */
  datatype TodoResult = TodoResult(tasks: seq<string>, reply: string)

  /**
   * `/todo <task>` with the argument already stripped: a non-empty task is
   * appended at the end and confirmed, an empty one is refused and the
   * list is left as it was.
   */
  function AddTask(tasks: seq<string>, task: string): (r: TodoResult)
    ensures task != "" ==> |r.tasks| == |tasks| + 1 && r.tasks[..|tasks|] == tasks && r.tasks[|tasks|] == task
    ensures task != "" ==> r.reply == "✅ Task added: **" + task + "**"
    ensures task == "" ==> r.tasks == tasks && r.reply == "❌ Please provide a task."
  {
    if task != "" then
      TodoResult(tasks + [task], "✅ Task added: **" + task + "**")
    else
      TodoResult(tasks, "❌ Please provide a task.")
  }

  /** The reply to `/list` when no task has been added. */
  const NoTasks := "🎉 No tasks."

  /** The first line of a non-empty task listing. */
  const ListHeader := "🎯 Pending List:"

  /** Line `i` of the listing: the 1-based number in bold, then the task. */
  function TaskLine(i: nat, task: string): string {
    "**" + NatToString(i + 1) + ".** " + task
  }

  /** The numbered lines for `tasks`, in insertion order. */
  function TaskLines(tasks: seq<string>): (lines: seq<string>)
    ensures |lines| == |tasks|
    ensures forall i :: 0 <= i < |tasks| ==> lines[i] == TaskLine(i, tasks[i])
  {
    seq(|tasks|, i requires 0 <= i < |tasks| => TaskLine(i, tasks[i]))
  }

  /** `list_tasks`: the "no tasks" reply is given exactly when the list is empty. */
  function ListTasks(tasks: seq<string>): (r: string)
    ensures r == NoTasks <==> |tasks| == 0
  {
    assert NoTasks[0] != ListHeader[0];
    if |tasks| == 0 then NoTasks
    else
      var r := ListHeader + "\n" + Join(TaskLines(tasks), "\n");
      assert r[0] == ListHeader[0];
      r
  }

  /**
   * When no task contains a line break, the listing has a header line and
   * then exactly one line per task: line `i + 1` shows the number `i + 1`
   * and the `i`-th task, in the order the tasks were added.
   */
  lemma ListTasksLines(tasks: seq<string>)
    requires |tasks| > 0
    requires forall i :: 0 <= i < |tasks| ==> '\n' !in tasks[i]
    ensures var lines := Split(ListTasks(tasks), '\n');
            && |lines| == |tasks| + 1
            && lines[0] == ListHeader
            && forall i :: 0 <= i < |tasks| ==>
                 lines[i + 1] == "**" + NatToString(i + 1) + ".** " + tasks[i]
  {
    var lines := TaskLines(tasks);
    forall k | 0 <= k < |lines|
      ensures '\n' !in lines[k]
    {
      NumberHasNoBreak(k + 1);
      assert lines[k] == "**" + NatToString(k + 1) + ".** " + tasks[k];
    }
    SplitJoin(lines, '\n');
    assert ListHeader + "\n" + Join(lines, "\n") == ListHeader + ['\n'] + Join(lines, ['\n']);
    SplitAtFirst(ListHeader, '\n', Join(lines, ['\n']));
  }

  lemma NumberHasNoBreak(n: nat)
    ensures '\n' !in NatToString(n)
  {
    var s := NatToString(n);
    assert forall i :: 0 <= i < |s| ==> s[i] != '\n';
  }

  /** The number on each line reads back as the task's 1-based position. */
  lemma TaskLineNumber(i: nat, task: string)
    ensures var digits := NatToString(i + 1);
            TaskLine(i, task) == "**" + digits + ".** " + task && ParseDecimal(digits) == i + 1
  {
    ParseNatToString(i + 1);
  }

  /**
   * Adding a task extends the listing by one line at the end and leaves the
   * earlier lines as they were; the first task turns the "no tasks" reply
   * into a one-line listing.
   */
  lemma AddTaskExtendsListing(tasks: seq<string>, task: string)
    requires task != ""
    ensures |tasks| == 0 ==> ListTasks(AddTask(tasks, task).tasks) == ListHeader + "\n" + TaskLine(0, task)
    ensures |tasks| > 0 ==> ListTasks(AddTask(tasks, task).tasks) == ListTasks(tasks) + "\n" + TaskLine(|tasks|, task)
  {
    var t' := tasks + [task];
    assert TaskLines(t') == TaskLines(tasks) + [TaskLine(|tasks|, task)];
    if |tasks| > 0 {
      JoinSnoc(TaskLines(tasks), "\n", TaskLine(|tasks|, task));
    }
  }
}
