/** Index-name validation and the derivation of the chat tool's name from the
    index name (`_validate_tool_inputs` and its nested `get_tool_name`). */
module ToolName {
  import opened Wrappers
  import opened Strings

  /** Longest tool name the chat-completion API accepts. */
  const MaxToolNameLength: nat := 64

  /** Python truthiness of an optional string: present and non-empty. */
  predicate Present(s: Option<string>) {
    s.Some? && s.value != ""
  }

  /** An index name is accepted when splitting it on `.` gives exactly three
      pieces (catalog, schema, index), that is, when it has exactly two dots. */
  function ValidIndexName(indexName: string): (ok: bool)
    ensures ok <==> Occurrences(indexName, '.') == 2
  {
    SplitLength(indexName, '.');
    |Split(indexName, '.')| == 3
  }

  predicate IsSuffix(suffix: string, s: string) {
    |suffix| <= |s| && s[|s| - |suffix|..] == suffix
  }

  /** Characters allowed by the tool-name pattern `^[a-zA-Z0-9_-]+$`. */
  predicate ToolNameChar(c: char) {
    'a' <= c <= 'z' || 'A' <= c <= 'Z' || '0' <= c <= '9' || c == '_' || c == '-'
  }

  predicate MatchesToolNamePattern(name: string) {
    |name| >= 1 && forall i :: 0 <= i < |name| ==> ToolNameChar(name[i])
  }

  /** The name a tool gets from its index when no override is given:
      every `.` becomes `__`. */
  function DerivedToolName(indexName: string): (name: string)
    ensures '.' !in name
  {
    Replace(indexName, '.', "__")
  }

  /** Keeps a name of at most 64 characters; cuts a longer one to its last 64. */
  function Truncate(name: string): (r: string)
    ensures |r| <= MaxToolNameLength
    ensures IsSuffix(r, name)
    ensures |name| <= MaxToolNameLength ==> r == name
    ensures |name| > MaxToolNameLength ==> |r| == MaxToolNameLength
  {
    if |name| > MaxToolNameLength then name[|name| - MaxToolNameLength..] else name
  }

  /** `get_tool_name`: the override when it is non-empty, otherwise the derived
      name; either way truncated to 64 characters. */
  function GetToolName(toolName: Option<string>, indexName: string): (r: string)
    ensures |r| <= MaxToolNameLength
    ensures Present(toolName) ==> IsSuffix(r, toolName.value)
    ensures Present(toolName) && |toolName.value| <= MaxToolNameLength ==> r == toolName.value
    ensures Present(toolName) && |toolName.value| > MaxToolNameLength ==>
      r == toolName.value[|toolName.value| - MaxToolNameLength..]
    ensures !Present(toolName) ==> IsSuffix(r, DerivedToolName(indexName)) && '.' !in r
    ensures !Present(toolName) && |DerivedToolName(indexName)| <= MaxToolNameLength ==>
      r == DerivedToolName(indexName)
    ensures !Present(toolName) && |DerivedToolName(indexName)| > MaxToolNameLength ==>
      r == DerivedToolName(indexName)[|DerivedToolName(indexName)| - MaxToolNameLength..]
  {
    var name := if Present(toolName) then toolName.value else DerivedToolName(indexName);
    Truncate(name)
  }

  /** The derived name is `"__".join(indexName.split("."))`, one character
      longer per dot than the index name. */
  lemma DerivedToolNameShape(indexName: string)
    ensures DerivedToolName(indexName) == Join(Split(indexName, '.'), "__")
    ensures |DerivedToolName(indexName)| == |indexName| + Occurrences(indexName, '.')
  {
    ReplaceIsJoinOfSplit(indexName, '.', "__");
    ReplaceLength(indexName, '.', "__");
  }

  /** Without an override, the name of an accepted index is its derived name
      when that fits in 64 characters, and the last 64 characters of it otherwise. */
  lemma DefaultToolNameOfValidIndex(indexName: string)
    requires ValidIndexName(indexName)
    ensures var derived := DerivedToolName(indexName);
      && |derived| == |indexName| + 2
      && (|derived| <= MaxToolNameLength ==> GetToolName(None, indexName) == derived)
      && (|derived| > MaxToolNameLength ==>
            GetToolName(None, indexName) == derived[|derived| - MaxToolNameLength..])
  {
    DerivedToolNameShape(indexName);
  }

  /** When the index name is made of pattern characters and dots, the tool name
      derived from an accepted index matches the tool-name pattern. */
  lemma DerivedToolNameMatchesPattern(indexName: string)
    requires ValidIndexName(indexName)
    requires forall i :: 0 <= i < |indexName| ==> ToolNameChar(indexName[i]) || indexName[i] == '.'
    ensures MatchesToolNamePattern(GetToolName(None, indexName))
  {
    var derived := DerivedToolName(indexName);
    DefaultToolNameOfValidIndex(indexName);
    assert forall i :: 0 <= i < |derived| ==> ToolNameChar(derived[i]) by {
      forall i | 0 <= i < |derived|
        ensures ToolNameChar(derived[i])
      {
        var c := derived[i];
        assert c in derived;
        assert c in indexName || c in "__";
      }
    }
    var r := GetToolName(None, indexName);
    assert r == derived[|derived| - |r|..];
    forall i | 0 <= i < |r|
      ensures ToolNameChar(r[i])
    {
      assert r[i] == derived[|derived| - |r| + i];
    }
  }

  /** An accepted index name ending in 64 dot-free characters gets exactly
      those characters as its tool name. */
  lemma {:induction false} ToolNameOfLongTail(prefix: string, tail: string)
    requires Occurrences(prefix, '.') == 2
    requires '.' !in tail && |tail| == MaxToolNameLength
    ensures ValidIndexName(prefix + tail)
    ensures GetToolName(None, prefix + tail) == tail
  {
    OccurrencesAppend(prefix, tail, '.');
    assert Occurrences(tail, '.') == 0;
    ReplaceAbsent(tail, '.', "__");
    ReplaceAppend(prefix, tail, '.', "__");
    var derived := DerivedToolName(prefix + tail);
    assert derived == Replace(prefix, '.', "__") + tail;
    assert derived[|derived| - MaxToolNameLength..] == tail;
  }

  /** Truncation keeps the last 64 characters only, so any two accepted index
      names that end in the same 64 dot-free characters share a tool name. */
  lemma TruncatedToolNamesCollide(a: string, b: string)
    requires ValidIndexName(a) && ValidIndexName(b)
    requires |a| >= MaxToolNameLength && |b| >= MaxToolNameLength
    requires a[|a| - MaxToolNameLength..] == b[|b| - MaxToolNameLength..]
    requires '.' !in a[|a| - MaxToolNameLength..]
    ensures GetToolName(None, a) == GetToolName(None, b)
    ensures GetToolName(None, a) == a[|a| - MaxToolNameLength..]
  {
    var tail := a[|a| - MaxToolNameLength..];
    var prefixA, prefixB := a[..|a| - MaxToolNameLength], b[..|b| - MaxToolNameLength];
    assert a == prefixA + tail;
    assert b == prefixB + tail;
    OccurrencesAppend(prefixA, tail, '.');
    OccurrencesAppend(prefixB, tail, '.');
    ToolNameOfLongTail(prefixA, tail);
    ToolNameOfLongTail(prefixB, tail);
  }
}
