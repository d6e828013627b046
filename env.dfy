/** `loadEnvFile` of `lib/env.ts`: reads `KEY=value` lines into the process
    environment without overwriting what is already set. The file system is
    left out: the file's text is a parameter, `None` when it cannot be read. */
module Env {
  import opened Wrappers
  import opened JsText

  /** One pair of matching double or single quotes around `value` is
      removed: `value.slice(1, -1)`, which is empty for a lone quote. */
  function Unquote(value: string): (r: string)
    ensures |value| >= 2 && value[0] == value[|value| - 1] && value[0] in {'"', '\''} ==>
              r == value[1..|value| - 1]
    ensures (value == [] || value[0] !in {'"', '\''} || value[0] != value[|value| - 1]) ==> r == value
    ensures |value| == 1 && value[0] in {'"', '\''} ==> r == []
  {
    if value != [] && (value[0] == '"' || value[0] == '\'') && value[|value| - 1] == value[0] then
      if |value| >= 2 then value[1..|value| - 1] else []
    else value
  }

  /** Exactly one pair goes: quotes nested inside stay. */
  lemma UnquoteOnePair(q: char, inner: string)
    requires q == '"' || q == '\''
    ensures Unquote([q] + inner + [q]) == inner
  {
    var v := [q] + inner + [q];
    assert v[1..|v| - 1] == inner;
  }

  /** A line read as a key and a value, or `None` when it is blank, a
      comment, or has no `=`. The key is what precedes the first `=`, the
      value what follows it, both trimmed. */
  function ParseLine(rawLine: string): Option<(string, string)> {
    ParseTrimmed(Trim(rawLine))
  }

  /** `ParseLine` after the line has been trimmed. */
  function ParseTrimmed(line: string): Option<(string, string)> {
    if line == [] || line[0] == '#' then None
    else
      var idx := IndexOf(line, '=');
      if idx == -1 then None else Some(EntryAt(line, idx))
  }

  /** The key and the value of a line whose first `=` is at `idx`. */
  function EntryAt(line: string, idx: nat): (string, string)
    requires idx < |line|
  {
    (Trim(line[..idx]), Unquote(Trim(line[idx + 1..])))
  }

  /** What `ParseLine` accepts and what it reads from an accepted line. */
  lemma ParseLineCases(rawLine: string)
    ensures var r, line := ParseLine(rawLine), Trim(rawLine);
            && (r.None? <==> line == [] || line[0] == '#' || '=' !in line)
            && (r.Some? ==>
                  && 0 <= IndexOf(line, '=')
                  && r.value.0 == Trim(line[..IndexOf(line, '=')])
                  && r.value.1 == Unquote(Trim(line[IndexOf(line, '=') + 1..])))
  {
  }

  /** The value keeps every `=` after the first. */
  lemma ParseLineValueKeepsEquals(key: string, value: string)
    requires '=' !in key && IsTrimmed(key) && key != [] && key[0] != '#'
    requires IsTrimmed(value) && value != [] && value[0] !in {'"', '\''}
    ensures ParseLine(key + "=" + value) == Some((key, value))
  {
    var line := key + ['='] + value;
    assert line[..|key|] == key;
    assert line[|key| + 1..] == value;
    assert line[|key|] == '=';
    forall j | 0 <= j < |key|
      ensures line[j] != '='
    {
      assert line[j] == key[j];
    }
    assert IndexOf(line, '=') == |key|;
    assert Trim(line) == line by {
      assert line[0] == key[0] && line[|line| - 1] == value[|value| - 1];
      TrimTrimmed(line);
    }
    assert Trim(key) == key by {
      TrimTrimmed(key);
    }
    assert Trim(value) == value by {
      TrimTrimmed(value);
    }
    assert key + "=" + value == line;
  }

  /** What each line reads as, in order. */
  function ParseLines(lines: seq<string>): (entries: seq<Option<(string, string)>>)
    ensures |entries| == |lines|
    ensures forall i :: 0 <= i < |lines| ==> entries[i] == ParseLine(lines[i])
  {
    MapLines(ParseLine, lines)
  }

  /** `read` applied to each line, in order. */
  function MapLines(read: string -> Option<(string, string)>, lines: seq<string>)
    : (entries: seq<Option<(string, string)>>)
    ensures |entries| == |lines|
    ensures forall i :: 0 <= i < |lines| ==> entries[i] == read(lines[i])
  {
    if lines == [] then [] else MapLines(read, lines[..|lines| - 1]) + [read(lines[|lines| - 1])]
  }

  /** The environment after one parsed line: its key is set only when
      absent. */
  function ApplyEntry(env: map<string, string>, entry: Option<(string, string)>): map<string, string> {
    if entry.None? || entry.value.0 in env then env else env[entry.value.0 := entry.value.1]
  }

  /** The environment after the parsed lines, in order. */
  function ApplyEntries(env: map<string, string>, entries: seq<Option<(string, string)>>): map<string, string> {
    if entries == [] then env
    else ApplyEntry(ApplyEntries(env, entries[..|entries| - 1]), entries[|entries| - 1])
  }

  /** True when the entry sets key `k`. */
  predicate SetsKey(entry: Option<(string, string)>, k: string) {
    entry.Some? && entry.value.0 == k
  }

  /** Keys already present are never overwritten. */
  lemma {:induction false} ExistingKeysKept(env: map<string, string>, entries: seq<Option<(string, string)>>)
    ensures forall k :: k in env ==> k in ApplyEntries(env, entries) && ApplyEntries(env, entries)[k] == env[k]
  {
    if entries != [] {
      ExistingKeysKept(env, entries[..|entries| - 1]);
    }
  }

  /** Only keys of lines that parse are added. */
  lemma {:induction false} OnlyParsedKeysAdded(env: map<string, string>, entries: seq<Option<(string, string)>>)
    ensures forall k :: k in ApplyEntries(env, entries) ==>
              k in env || exists i :: 0 <= i < |entries| && SetsKey(entries[i], k)
  {
    if entries != [] {
      var init := entries[..|entries| - 1];
      OnlyParsedKeysAdded(env, init);
      forall k | k in ApplyEntries(env, entries) && k !in env
        ensures exists i :: 0 <= i < |entries| && SetsKey(entries[i], k)
      {
        if k in ApplyEntries(env, init) {
          var i :| 0 <= i < |init| && SetsKey(init[i], k);
          assert init[i] == entries[i];
        } else {
          assert SetsKey(entries[|entries| - 1], k);
        }
      }
    }
  }

  /** A key no line sets stays absent. */
  lemma {:induction false} NotSetKeyAbsent(env: map<string, string>, entries: seq<Option<(string, string)>>, k: string)
    requires k !in env
    requires forall j :: 0 <= j < |entries| ==> !SetsKey(entries[j], k)
    ensures k !in ApplyEntries(env, entries)
  {
    if entries != [] {
      var init := entries[..|entries| - 1];
      assert forall j :: 0 <= j < |init| ==> init[j] == entries[j];
      NotSetKeyAbsent(env, init, k);
      assert !SetsKey(entries[|entries| - 1], k);
    }
  }

  /** For a key absent beforehand, the first line that sets it wins. */
  lemma {:induction false} FirstOccurrenceWins(env: map<string, string>, entries: seq<Option<(string, string)>>,
                                               i: int, k: string, v: string)
    requires 0 <= i < |entries| && k !in env
    requires entries[i] == Some((k, v))
    requires forall j :: 0 <= j < i ==> !SetsKey(entries[j], k)
    ensures k in ApplyEntries(env, entries) && ApplyEntries(env, entries)[k] == v
  {
    var init := entries[..|entries| - 1];
    if i == |entries| - 1 {
      assert forall j :: 0 <= j < |init| ==> init[j] == entries[j];
      NotSetKeyAbsent(env, init, k);
    } else {
      assert forall j :: 0 <= j <= i ==> init[j] == entries[j];
      FirstOccurrenceWins(env, init, i, k, v);
      ExistingKeysKept(ApplyEntries(env, init), [entries[|entries| - 1]]);
      assert ApplyEntries(ApplyEntries(env, init), [entries[|entries| - 1]])
             == ApplyEntry(ApplyEntries(env, init), entries[|entries| - 1]);
    }
  }

  /** Reading one more line appends its entry. */
  lemma ParseLinesSnoc(lines: seq<string>, i: int)
    requires 0 <= i < |lines|
    ensures ParseLines(lines[..i + 1]) == ParseLines(lines[..i]) + [ParseLine(lines[i])]
  {
    assert lines[..i + 1][..i] == lines[..i];
  }

  /** Applying one more entry applies it to the environment so far. */
  lemma ApplyEntriesSnoc(env: map<string, string>, entries: seq<Option<(string, string)>>,
                         entry: Option<(string, string)>)
    ensures ApplyEntries(env, entries + [entry]) == ApplyEntry(ApplyEntries(env, entries), entry)
  {
    assert (entries + [entry])[..|entries|] == entries;
  }

  /** The parsing part of one pass of the loop of `loadEnvFile`, on the
      trimmed line. The source writes this part as statements (early
      `continue`s and a reassigned `value`), so it is kept here as a method,
      with `ParseTrimmed` as its specification; the lemmas about the loader
      are stated over `ParseTrimmed` and `ApplyEntries`, which a lemma can
      call and a method cannot. */
  method ReadEntry(line: string) returns (entry: Option<(string, string)>)
    ensures entry == ParseTrimmed(line)
  {
    if line == [] || line[0] == '#' {
      return None;
    }
    var idx := IndexOf(line, '=');
    if idx == -1 {
      return None;
    }
    var key, value := SplitAt(line, idx);
    entry := Some((key, value));
  }

  /** The key and the value around the first `=`, at `idx`: the statements
      of the loop body that `EntryAt` specifies. */
  method SplitAt(line: string, idx: nat) returns (key: string, value: string)
    requires idx < |line|
    ensures (key, value) == EntryAt(line, idx)
  {
    key := Trim(line[..idx]);
    value := Trim(line[idx + 1..]);
    value := Unquote(value);
  }

  /** `process.env`. */
  class ProcessEnv {
    var vars: map<string, string>

    constructor (initial: map<string, string>)
      ensures vars == initial
    {
      vars := initial;
    }

    /** `loadEnvFile`: `content` is the file's text, or `None` when it could
        not be read, in which case nothing changes. */
    method LoadEnvFile(content: Option<string>)
      modifies this
      ensures content.None? ==> vars == old(vars)
      ensures content.Some? ==> vars == ApplyEntries(old(vars), ParseLines(Split(content.value, '\n')))
    {
      if content.None? {
        return;
      }
      LoadLines(Split(content.value, '\n'));
    }

    /** The loop of `loadEnvFile` over the file's lines, in order. */
    method LoadLines(lines: seq<string>)
      modifies this
      ensures vars == ApplyEntries(old(vars), ParseLines(lines))
    {
      for i := 0 to |lines|
        invariant vars == ApplyEntries(old(vars), ParseLines(lines[..i]))
      {
        ParseLinesSnoc(lines, i);
        ApplyEntriesSnoc(old(vars), ParseLines(lines[..i]), ParseLine(lines[i]));
        LoadLine(Trim(lines[i]));
      }
      assert lines[..|lines|] == lines;
    }

    /** One pass of the loop of `loadEnvFile`, on the trimmed line; a line
        that does not parse is skipped (`continue` there). */
    method LoadLine(line: string)
      modifies this
      ensures vars == ApplyEntry(old(vars), ParseTrimmed(line))
    {
      var entry := ReadEntry(line);
      if entry.Some? && entry.value.0 !in vars {
        vars := vars[entry.value.0 := entry.value.1];
      }
    }
  }
}
