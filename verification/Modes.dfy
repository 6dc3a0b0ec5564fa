/** The agents, and the tool and agent that a requested mode stands for (src/interface/routing.py). */
module Modes {
  import opened Text

  datatype Agent = Unstructured | Structured | Hybrid

  /** `str.lower` as far as comparing with the mode names can see it. */
  function Lower(s: string): string {
    if s == "" then ""
    else [if 'A' <= s[0] <= 'Z' then (s[0] as int + 32) as char else s[0]] + Lower(s[1..])
  }

  /** `resolve_mode_override`: an absent, empty or unknown mode means documents. */
  function ResolveMode(mode: Option<string>): (tool: string)
    ensures tool in {"query_data", "search_documents", "query_hybrid"}
  {
    var key := Lower(Strip(if mode.Some? then mode.value else ""));
    if key == "structured" then "query_data"
    else if key == "hybrid" then "query_hybrid"
    else "search_documents"
  }

  lemma {:induction false} LowerPlain(s: string)
    requires forall i | 0 <= i < |s| :: !('A' <= s[i] <= 'Z')
    ensures Lower(s) == s
  {
    if s != "" {
      assert forall i | 0 <= i < |s[1..]| :: s[1..][i] == s[i + 1];
      LowerPlain(s[1..]);
      assert s == [s[0]] + s[1..];
    }
  }

  lemma NamePlain(name: string)
    requires forall i | 0 <= i < |name| :: 'a' <= name[i] <= 'z'
    ensures Lower(Strip(name)) == name
  {
    hide Lower;
    assert name != "" ==> !IsSpace(name[0]) && !IsSpace(name[|name| - 1]);
    assert Strip(name) == name;
    LowerPlain(name);
  }

  /** An absent mode asks for documents; the three names ask for their own agent. */
  lemma ModeNames()
    ensures ResolveMode(None) == ResolveMode(Some("unstructured")) == "search_documents"
    ensures ResolveMode(Some("structured")) == "query_data" && ResolveMode(Some("hybrid")) == "query_hybrid"
  {
    hide Strip, Lower;
    NamePlain("");
    NamePlain("unstructured");
    NamePlain("structured");
    NamePlain("hybrid");
  }

  lemma {:induction false} LowerEach(s: string)
    ensures |Lower(s)| == |s|
    ensures forall i | 0 <= i < |s| :: Lower(s)[i] == if 'A' <= s[i] <= 'Z' then (s[i] as int + 32) as char else s[i]
  {
    if s != "" {
      LowerEach(s[1..]);
    }
  }

  /** The same name in upper or lower case letters. */
  ghost predicate SameName(m: string, name: string) {
    |m| == |name| && forall i | 0 <= i < |m| ::
      m[i] == name[i] || ('A' <= m[i] <= 'Z' && m[i] as int + 32 == name[i] as int)
  }

  /** Neither the case of a mode name nor white space around it matters. */
  lemma ModeSpelling(a: string, m: string, b: string, name: string)
    requires Blanks(a) && Blanks(b) && SameName(m, name) && forall i | 0 <= i < |name| :: 'a' <= name[i] <= 'z'
    ensures ResolveMode(Some(a + m + b)) == ResolveMode(Some(name))
  {
    hide Strip, Lower;
    NamePlain(name);
    StripPadded(a, m, b);
    LowerEach(m);
    assert Lower(m) == name;
  }

  /** `TOOL_TO_AGENT`. */
  function AgentOf(tool: string): Agent {
    if tool == "query_data" then Structured else if tool == "query_hybrid" then Hybrid else Unstructured
  }
}
