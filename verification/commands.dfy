/**
 * Classification of one chat input into a slash-command or plain chat
 * (main.py:414-508). The input is lower-cased for matching; `/clear` and
 * `/list` must match exactly, the others by prefix; the first matching rule
 * wins; arguments are cut from the ORIGINAL input at a fixed offset and
 * stripped.
 */
module Commands {

  import opened Text

  /** What an input asks for, with the argument each command extracts. */
  datatype Command =
    | Clear
    | Secret(code: string)
    | Convert
    | List
    | Todo(task: string)
    | Web(query: string)
    | Chat

  /**
   * The dispatch chain. The `/convert` arguments are parsed later by a
   * regular expression over the whole input, so `Convert` carries none.
   */
  function Classify(prompt: string): (c: Command)
    ensures c.Secret? ==> |prompt| >= 7 && c.code == Strip(prompt[7..])
    ensures c.Todo? ==> |prompt| >= 5 && c.task == Strip(prompt[5..])
    ensures c.Web? ==> |prompt| >= 4 && c.query == Strip(prompt[4..])
  {
    var low := Lower(prompt);
    if low == "/clear" then Clear
    else if StartsWith(low, "/secret") then Secret(Strip(prompt[7..]))
    else if StartsWith(low, "/convert") then Convert
    else if low == "/list" then List
    else if StartsWith(low, "/todo") then Todo(Strip(prompt[5..]))
    else if StartsWith(low, "/web") then Web(Strip(prompt[4..]))
    else Chat
  }

  /**
   * Which command an input selects, stated rule by rule: exact matches for
   * `/clear` and `/list`, prefix matches for the others, and plain chat
   * for everything else. Because no command word is a prefix of another
   * and neither exact word starts with another command, the order of the
   * chain never decides between two candidates.
   */
  lemma ClassifyRules(prompt: string)
    ensures Classify(prompt).Clear? <==> Lower(prompt) == "/clear"
    ensures Classify(prompt).Secret? <==> StartsWith(Lower(prompt), "/secret")
    ensures Classify(prompt).Convert? <==> StartsWith(Lower(prompt), "/convert")
    ensures Classify(prompt).List? <==> Lower(prompt) == "/list"
    ensures Classify(prompt).Todo? <==> StartsWith(Lower(prompt), "/todo")
    ensures Classify(prompt).Web? <==> StartsWith(Lower(prompt), "/web")
    ensures Classify(prompt).Chat? <==>
      && Lower(prompt) != "/clear" && Lower(prompt) != "/list"
      && !StartsWith(Lower(prompt), "/secret") && !StartsWith(Lower(prompt), "/convert")
      && !StartsWith(Lower(prompt), "/todo") && !StartsWith(Lower(prompt), "/web")
  {
    var low := Lower(prompt);
    if |low| >= 2 {
      // The second character tells the command words apart.
      assert low == "/clear" ==> low[1] == 'c' && low[2] == 'l';
      assert StartsWith(low, "/secret") ==> low[1] == 's';
      assert StartsWith(low, "/convert") ==> low[1] == 'c' && low[2] == 'o';
      assert low == "/list" ==> low[1] == 'l';
      assert StartsWith(low, "/todo") ==> low[1] == 't';
      assert StartsWith(low, "/web") ==> low[1] == 'w';
    }
  }

  /** Matching ignores the case of ASCII letters. */
  lemma ClassifyIgnoresCase(p: string, q: string)
    requires Lower(p) == Lower(q)
    ensures Classify(p).Clear? == Classify(q).Clear?
    ensures Classify(p).Secret? == Classify(q).Secret?
    ensures Classify(p).Convert? == Classify(q).Convert?
    ensures Classify(p).List? == Classify(q).List?
    ensures Classify(p).Todo? == Classify(q).Todo?
    ensures Classify(p).Web? == Classify(q).Web?
    ensures Classify(p).Chat? == Classify(q).Chat?
  {
    ClassifyRules(p);
    ClassifyRules(q);
  }

  /**
   * A prefix match wins even when the rest of the word names another
   * command: `/todolist`, in any letter case, adds the task `list`.
   */
  lemma ClassifyTodoList(p: string)
    requires Lower(p) == "/todolist"
    ensures Classify(p).Todo? && Lower(Classify(p).task) == "list"
  {
    var low := Lower(p);
    NotPrefixAt(low, "/secret", 1);
    NotPrefixAt(low, "/convert", 1);
    assert low[..5] == "/todo";
    var arg := p[5..];
    assert Lower(arg) == low[5..];
    ListWordIsStripped(arg);
  }

  /** A word that lower-cases to `list` has no whitespace to strip. */
  lemma ListWordIsStripped(arg: string)
    requires Lower(arg) == "list"
    ensures Strip(arg) == arg
  {
    forall i | 0 <= i < |arg|
      ensures !IsSpace(arg[i])
    {
      assert LowerChar(arg[i]) == "list"[i];
    }
    StripOf("", arg, "");
    assert "" + arg + "" == arg;
  }

  /** `/list` must match exactly: any text after it makes the input plain chat. */
  lemma ClassifyListExact(p: string)
    requires StartsWith(Lower(p), "/list") && Lower(p) != "/list"
    ensures Classify(p).Chat?
  {
    var low := Lower(p);
    assert low[1] == "/list"[1] && low[2] == "/list"[2];
    ClassifyRules(p);
    NotPrefixAt(low, "/secret", 1);
    NotPrefixAt(low, "/convert", 1);
    NotPrefixAt(low, "/todo", 1);
    NotPrefixAt(low, "/web", 1);
  }

  /** `/clear` must match exactly: any text after it, even a space, makes the input plain chat. */
  lemma ClassifyClearExact(p: string)
    requires StartsWith(Lower(p), "/clear") && Lower(p) != "/clear"
    ensures Classify(p).Chat?
  {
    var low := Lower(p);
    assert low[1] == "/clear"[1] && low[2] == "/clear"[2];
    ClassifyRules(p);
    NotPrefixAt(low, "/secret", 1);
    NotPrefixAt(low, "/convert", 2);
    NotPrefixAt(low, "/todo", 1);
    NotPrefixAt(low, "/web", 1);
  }
}
