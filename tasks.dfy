/** The task records and the pure computations over a collection of them: id assignment,
    lookup by id, the status filter of `list` and the line `list` prints per task. */
module Tasks {
  import opened Text

  datatype Option<T> = None | Some(value: T)

  /** An ISO-8601 timestamp, as `new Date().toISOString()` produces it. */
  type Timestamp = string

  datatype Task = Task(id: int, description: string, status: string,
                       createdAt: Timestamp, updatedAt: Timestamp)

  const Todo: string := "todo"
  const InProgress: string := "in-progress"
  const Done: string := "done"

  /** No two tasks of the collection share an id. */
  predicate UniqueIds(s: seq<Task>) {
    forall i, j :: 0 <= i < j < |s| ==> s[i].id != s[j].id
  }

  predicate HasId(s: seq<Task>, id: int) {
    exists k :: 0 <= k < |s| && s[k].id == id
  }

  /** `Math.max(...tasks.map(t => t.id))` on a non-empty collection. */
  function MaxId(s: seq<Task>): (m: int)
    requires s != []
    ensures forall k :: 0 <= k < |s| ==> s[k].id <= m
    ensures HasId(s, m)
  {
    if |s| == 1 then s[0].id
    else
      var m := MaxId(s[1..]);
      assert forall k :: 1 <= k < |s| ==> s[k] == s[1..][k - 1];
      if s[0].id >= m then s[0].id else m
  }

  /** The id `add` gives a new task: 1 for an empty collection, otherwise one more than
      the largest id present (ids freed by deleting the largest are handed out again). */
  function NextId(s: seq<Task>): (r: int)
    ensures s == [] ==> r == 1
    ensures forall k :: 0 <= k < |s| ==> s[k].id < r
    ensures s != [] ==> HasId(s, r - 1)
  {
    if |s| > 0 then MaxId(s) + 1 else 1
  }

  /** `tasks.findIndex(t => t.id === id)` (and the element `tasks.find` returns): the
      first position holding that id, or None. */
  function FindIndex(s: seq<Task>, id: int): (r: Option<nat>)
    ensures r.Some? ==> r.value < |s| && s[r.value].id == id &&
                        forall k :: 0 <= k < r.value ==> s[k].id != id
    ensures r.None? <==> !HasId(s, id)
  {
    if s == [] then None
    else if s[0].id == id then Some(0)
    else match FindIndex(s[1..], id)
      case None =>
        assert forall k :: 1 <= k < |s| ==> s[k] == s[1..][k - 1];
        None
      case Some(i) => Some(i + 1)
  }

  /** The lookup a command performs with the number it read: `t.id === NaN` holds of no
      task, so NaN finds nothing. */
  function Lookup(s: seq<Task>, n: Number): (r: Option<nat>)
    ensures r.None? <==> n.NaN? || !HasId(s, n.value)
    ensures r.Some? ==> r.value < |s| && s[r.value].id == n.value
  {
    if n.NaN? then None else FindIndex(s, n.value)
  }

  /** `tasks.filter(t => t.status === status)`. */
  function Filter(s: seq<Task>, status: string): (r: seq<Task>)
    ensures |r| <= |s|
    ensures forall t :: t in r <==> t in s && t.status == status
  {
    if s == [] then []
    else
      var rest := Filter(s[1..], status);
      assert forall t :: t in s <==> t == s[0] || t in s[1..];
      if s[0].status == status then [s[0]] + rest else rest
  }

  /** The line `list` prints for a task: `[id] description (status)`. */
  function RenderLine(t: Task): (line: string) {
    "[" + IntToDecimal(t.id) + "] " + t.description + " (" + t.status + ")"
  }

  /** The text of `s` before the first occurrence of `c` (all of `s` if none). */
  function TakeUntil(s: string, c: char): (r: string)
    ensures r <= s
    ensures c !in r
  {
    if s == [] || s[0] == c then [] else [s[0]] + TakeUntil(s[1..], c)
  }

  /** The text between a line's opening `[` and the first `]` after it. */
  function BracketedId(line: string): string {
    if line != [] && line[0] == '[' then TakeUntil(line[1..], ']') else []
  }

  // ---------------------------------------------------------------------------
  // Lemmas

  /** Appending a task whose id no task has keeps the ids unique. */
  lemma AppendFreshKeepsUnique(s: seq<Task>, t: Task)
    requires UniqueIds(s) && !HasId(s, t.id)
    ensures UniqueIds(s + [t])
  {
    var s' := s + [t];
    forall i, j | 0 <= i < j < |s'| ensures s'[i].id != s'[j].id {
      assert s'[i] == s[i];
      if j < |s| { assert s'[j] == s[j]; }
    }
  }

  /** A task appended with an id no task has is the one found by that id. */
  lemma FindAppended(s: seq<Task>, t: Task)
    requires !HasId(s, t.id)
    ensures FindIndex(s + [t], t.id) == Some(|s|)
  {
    var s' := s + [t];
    assert s'[|s|] == t;
  }

  /** After such an append the next `add` gets the next integer: consecutive adds hand
      out consecutive ids. */
  lemma NextIdAfterAppend(s: seq<Task>, t: Task)
    requires t.id == NextId(s)
    ensures NextId(s + [t]) == t.id + 1
  {
    var s' := s + [t];
    assert s'[|s|] == t;
    assert forall k :: 0 <= k < |s| ==> s'[k] == s[k];
    var r := NextId(s');
    var k :| 0 <= k < |s'| && s'[k].id == r - 1;
  }

  /** Removing one task (`tasks.splice(i, 1)`) keeps the ids unique, and with unique ids
      the removed id can no longer be found: any later command naming it fails. */
  lemma RemoveAt(s: seq<Task>, i: nat)
    requires i < |s|
    ensures UniqueIds(s) ==> UniqueIds(s[..i] + s[i + 1..])
    ensures UniqueIds(s) ==> FindIndex(s[..i] + s[i + 1..], s[i].id) == None
  {
    var s' := s[..i] + s[i + 1..];
    assert forall k :: 0 <= k < |s'| ==> s'[k] == s[if k < i then k else k + 1];
  }

  /** Replacing a task by one with the same id keeps the ids unique and keeps every
      lookup where it was. */
  lemma ReplaceKeepingId(s: seq<Task>, i: nat, t: Task, id: int)
    requires i < |s| && t.id == s[i].id
    ensures UniqueIds(s) ==> UniqueIds(s[i := t])
    ensures FindIndex(s[i := t], id) == FindIndex(s, id)
  {
    if i > 0 {
      assert s[i := t] == [s[0]] + s[1..][i - 1 := t];
      ReplaceKeepingId(s[1..], i - 1, t, id);
    }
  }

  /** Filtering distributes over concatenation: the tasks `list` shows keep their
      collection order. */
  lemma {:induction false} FilterAppend(a: seq<Task>, b: seq<Task>, status: string)
    ensures Filter(a + b, status) == Filter(a, status) + Filter(b, status)
  {
    if a != [] {
      assert (a + b)[0] == a[0] && (a + b)[1..] == a[1..] + b;
      FilterAppend(a[1..], b, status);
      var head := if a[0].status == status then [a[0]] else [];
      assert Filter(a + b, status) == head + Filter(a[1..] + b, status);
      assert Filter(a, status) == head + Filter(a[1..], status);
    } else {
      assert a + b == b;
    }
  }

  /** A collection whose every task has the filter's status is shown whole and in order. */
  lemma {:induction false} FilterAllMatching(s: seq<Task>, status: string)
    requires forall k :: 0 <= k < |s| ==> s[k].status == status
    ensures Filter(s, status) == s
  {
    if s != [] {
      FilterAllMatching(s[1..], status);
    }
  }

  /** In a collection holding only the statuses the program writes, a filter naming no
      such status shows nothing, without an error. */
  lemma FilterUnknownStatus(s: seq<Task>, status: string)
    requires forall k :: 0 <= k < |s| ==> s[k].status in {Todo, InProgress, Done}
    requires status !in {Todo, InProgress, Done}
    ensures Filter(s, status) == []
  {
  }

  lemma {:induction false} TakeUntilPrefix(a: string, b: string, c: char)
    requires c !in a
    ensures TakeUntil(a + [c] + b, c) == a
  {
    if a != [] {
      assert (a + [c] + b)[1..] == a[1..] + [c] + b;
      TakeUntilPrefix(a[1..], b, c);
    }
  }

  /** The id printed at the head of a `list` line reads back, through `Number`, as the
      task's id: a user can pass it on to `update`, `delete` or `mark-*`. */
  lemma RenderedIdReadsBack(t: Task)
    ensures ParseNumber(BracketedId(RenderLine(t))) == Num(t.id)
  {
    var d := IntToDecimal(t.id);
    var rest := " " + t.description + " (" + t.status + ")";
    assert RenderLine(t) == "[" + (d + [']'] + rest);
    RenderedCharacters(t.id);
    assert forall k :: 0 <= k < |d| ==> d[k] != ']';
    TakeUntilPrefix(d, rest, ']');
    ParseRendered(t.id);
  }

  /** Ids are not reserved forever: from tasks 1 and 2, deleting task 1 makes the next
      `add` produce 3, but deleting task 2 makes it produce 2 again. */
  lemma IdReuse(a: Task, b: Task)
    requires a.id == 1 && b.id == 2
    ensures NextId([b]) == 3
    ensures NextId([a]) == 2
  {
  }
}
