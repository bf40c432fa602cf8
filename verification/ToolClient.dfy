/**
 * The tool contract and the registry the agent dispatches through.
 * The registry keeps its tools in a JavaScript `Map`, whose key order is insertion order
 * and whose `set` on an existing key replaces the value in place (ECMA-262, section 24.1.3.9).
 */
module ToolClient {
  import opened Optional

  /** A named capability. `run` stands for the tool's asynchronous body, taken as an opaque
      function from its input text to its output text. */
  datatype Tool = Tool(name: string, description: string, run: string -> string)

  /** The `FilesystemTool`: its name and description; `read` is its file-reading body. */
  function FilesystemTool(read: string -> string): (t: Tool)
    ensures t.name == "filesystem_read" && t.run == read
  {
    Tool("filesystem_read", "Read the contents of a file from disk. Input: file path.", read)
  }

  /** The value of a JavaScript `Map<string, Tool>`: its keys in iteration order and the entry of each key. */
  datatype ToolMap = ToolMap(keys: seq<string>, entries: map<string, Tool>) {

    ghost predicate WellFormed() {
      && (forall i, j :: 0 <= i < j < |keys| ==> keys[i] != keys[j])
      && (forall n :: n in entries <==> n in keys)
    }

    /** `Map.prototype.set`: a new key goes last, an existing key keeps its place. */
    function Set(key: string, t: Tool): ToolMap {
      ToolMap(if key in entries then keys else keys + [key], entries[key := t])
    }
  }

  const EmptyMap := ToolMap([], map[])

  /** `Map.prototype.get`: the entry under `name`, or `undefined`. */
  function Lookup(m: ToolMap, name: string): Option<Tool> {
    if name in m.entries then Some(m.entries[name]) else None
  }

  /** `Array.from(map.values())`: the entries in key order. */
  function Values(m: ToolMap): (r: seq<Tool>)
    requires m.WellFormed()
  {
    seq(|m.keys|, i requires 0 <= i < |m.keys| => m.entries[m.keys[i]])
  }

  function Names(ts: seq<Tool>): (r: seq<string>)
    ensures |r| == |ts| && forall i :: 0 <= i < |ts| ==> r[i] == ts[i].name
  {
    seq(|ts|, i requires 0 <= i < |ts| => ts[i].name)
  }

  /** The names of `ns` with repetitions dropped, each kept where it first occurs. */
  function FirstOccurrences(ns: seq<string>): (r: seq<string>)
    ensures forall n :: n in r <==> n in ns
    ensures forall i, j :: 0 <= i < j < |r| ==> r[i] != r[j]
  {
    if ns == [] then []
    else
      var init := FirstOccurrences(ns[..|ns| - 1]);
      var last := ns[|ns| - 1];
      assert forall n :: n in ns <==> n in ns[..|ns| - 1] || n == last;
      if last in init then init else init + [last]
  }

  /** The position in `ns` where `n` first occurs. */
  function FirstIndex(ns: seq<string>, n: string): (i: nat)
    requires n in ns
    ensures i < |ns| && ns[i] == n
    ensures forall k :: 0 <= k < i ==> ns[k] != n
  {
    if ns[0] == n then 0 else 1 + FirstIndex(ns[1..], n)
  }

  /** The tool most recently registered under `name` in `history`, if any. */
  function LatestNamed(history: seq<Tool>, name: string): (r: Option<Tool>)
    ensures r.Some? ==> r.value.name == name && r.value in history
  {
    if history == [] then None
    else if history[|history| - 1].name == name then Some(history[|history| - 1])
    else LatestNamed(history[..|history| - 1], name)
  }

  lemma {:induction false} FirstIndexOfPrefix(ns: seq<string>, x: string, n: string)
    requires n in ns
    ensures n in ns + [x] && FirstIndex(ns + [x], n) == FirstIndex(ns, n)
  {
    if ns[0] != n {
      assert (ns + [x])[1..] == ns[1..] + [x];
      FirstIndexOfPrefix(ns[1..], x, n);
    }
  }

  /** Registration order: in `FirstOccurrences(ns)` a name comes before another exactly when
      it first occurs earlier in `ns`. */
  lemma {:induction false} FirstOccurrencesOrder(ns: seq<string>)
    ensures forall i, j :: 0 <= i < j < |FirstOccurrences(ns)| ==>
      FirstIndex(ns, FirstOccurrences(ns)[i]) < FirstIndex(ns, FirstOccurrences(ns)[j])
  {
    if ns != [] {
      var init := ns[..|ns| - 1];
      var last := ns[|ns| - 1];
      assert ns == init + [last];
      FirstOccurrencesOrder(init);
      var f := FirstOccurrences(init);
      forall n | n in init ensures FirstIndex(ns, n) == FirstIndex(init, n) {
        FirstIndexOfPrefix(init, last, n);
      }
      if last !in init {
        assert FirstIndex(ns, last) == |init|;
      }
    }
  }

  /** One entry per distinct name: the number of first occurrences is the number of distinct names. */
  lemma {:induction false} FirstOccurrencesCount(ns: seq<string>)
    ensures |FirstOccurrences(ns)| == |set n | n in ns|
  {
    if ns != [] {
      var init := ns[..|ns| - 1];
      var last := ns[|ns| - 1];
      FirstOccurrencesCount(init);
      var before := set n | n in init;
      assert (set n | n in ns) == before + {last} by {
        assert ns == init + [last];
      }
      if last in init {
        assert last in before;
        assert before + {last} == before;
      } else {
        assert last !in before;
        assert |FirstOccurrences(ns)| == |FirstOccurrences(init)| + 1;
      }
    }
  }

  /** The reference description of `LatestNamed`: the tool at the last position carrying `name`. */
  lemma {:induction false} LatestNamedIsLast(history: seq<Tool>, name: string, i: nat)
    requires i < |history| && history[i].name == name
    requires forall j :: i < j < |history| ==> history[j].name != name
    ensures LatestNamed(history, name) == Some(history[i])
  {
    if i < |history| - 1 {
      LatestNamedIsLast(history[..|history| - 1], name, i);
    }
  }

  /** A name never registered has no latest tool. */
  lemma {:induction false} LatestNamedAbsent(history: seq<Tool>, name: string)
    ensures LatestNamed(history, name).None? <==> name !in Names(history)
  {
    if history != [] {
      var init := history[..|history| - 1];
      LatestNamedAbsent(init, name);
      assert Names(history) == Names(init) + [history[|history| - 1].name];
    }
  }

  /** `set` stores the tool under its key, leaves every other key alone, keeps the position of an
      existing key, and adds one key exactly when the key is new. */
  lemma SetEffect(m: ToolMap, key: string, t: Tool)
    requires m.WellFormed()
    ensures var r := m.Set(key, t);
      && Lookup(r, key) == Some(t)
      && (forall n :: n != key ==> Lookup(r, n) == Lookup(m, n))
      && r.keys[..|m.keys|] == m.keys
      && |r.keys| == (if key in m.keys then |m.keys| else |m.keys| + 1)
  {
  }

  /** The map holds, under each name, the tool most recently registered under it, and lists
      the names in the order they were first registered. */
  ghost predicate Tracks(tools: ToolMap, history: seq<Tool>) {
    && tools.WellFormed()
    && (forall n :: n in tools.entries ==> tools.entries[n].name == n)
    && tools.keys == FirstOccurrences(Names(history))
    && (forall n :: Lookup(tools, n) == LatestNamed(history, n))
  }

  lemma SetWellFormed(tools: ToolMap, key: string, t: Tool)
    requires tools.WellFormed()
    ensures tools.Set(key, t).WellFormed()
  {
    assert key in tools.entries <==> key in tools.keys;
  }

  lemma SetKeys(tools: ToolMap, history: seq<Tool>, t: Tool)
    requires tools.WellFormed() && tools.keys == FirstOccurrences(Names(history))
    ensures tools.Set(t.name, t).keys == FirstOccurrences(Names(history + [t]))
  {
    var ns := Names(history + [t]);
    assert ns[..|ns| - 1] == Names(history);
    assert ns[|ns| - 1] == t.name;
  }

  lemma SetLookup(tools: ToolMap, history: seq<Tool>, t: Tool)
    requires forall n :: Lookup(tools, n) == LatestNamed(history, n)
    ensures forall n :: Lookup(tools.Set(t.name, t), n) == LatestNamed(history + [t], n)
  {
    var h := history + [t];
    assert h[..|h| - 1] == history;
    assert h[|h| - 1] == t;
  }

  /** `set` under the tool's own name keeps the map in step with the registrations. */
  lemma TracksRegister(tools: ToolMap, history: seq<Tool>, t: Tool)
    requires Tracks(tools, history)
    ensures Tracks(tools.Set(t.name, t), history + [t])
  {
    SetWellFormed(tools, t.name, t);
    SetKeys(tools, history, t);
    SetLookup(tools, history, t);
  }

  /** `ToolRegistry`: a name-keyed table of tools, backed by a `Map`. */
  class ToolRegistry {
    var tools: ToolMap
    /** Every tool passed to `Register`, oldest first. */
    ghost var history: seq<Tool>

    ghost predicate Valid()
      reads this
    {
      Tracks(tools, history)
    }

    constructor ()
      ensures Valid() && history == [] && tools == EmptyMap
    {
      tools := EmptyMap;
      history := [];
    }

    /** `register`: inserts `t` under its name, or replaces the tool already there. */
    method Register(t: Tool)
      requires Valid()
      modifies this
      ensures Valid() && history == old(history) + [t]
      ensures tools == old(tools).Set(t.name, t)
    {
      TracksRegister(tools, history, t);
      tools := tools.Set(t.name, t);
      history := history + [t];
    }

    /** `get`: the tool registered under exactly `name`, or nothing; it never fails. */
    method Get(name: string) returns (r: Option<Tool>)
      requires Valid()
      ensures r == LatestNamed(history, name) && r == Lookup(tools, name)
      ensures r.Some? <==> name in tools.keys
      ensures r.Some? ==> r.value.name == name && r.value == tools.entries[name]
    {
      if name in tools.entries {
        r := Some(tools.entries[name]);
      } else {
        r := None;
      }
    }

    /** `list`: one tool per registered name, in the order the names were first registered. */
    method List() returns (r: seq<Tool>)
      requires Valid()
      ensures r == Values(tools)
      ensures Names(r) == FirstOccurrences(Names(history))
      ensures forall i :: 0 <= i < |r| ==> LatestNamed(history, r[i].name) == Some(r[i])
      ensures forall i, j :: 0 <= i < j < |r| ==> r[i].name != r[j].name
    {
      r := Values(tools);
      forall i | 0 <= i < |r| ensures LatestNamed(history, r[i].name) == Some(r[i]) {
        assert Lookup(tools, tools.keys[i]) == Some(r[i]);
      }
    }
  }
}
