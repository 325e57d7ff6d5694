/**
 `lead_tool`: an "all" anywhere in the lowered query dumps every lead;
 otherwise the first lead whose lowered name occurs in the lowered query is
 returned; otherwise a fixed sentinel. Reading `lead["name"].lower()` raises
 when the lead has no name or a name that is not a string, and the scan only
 raises for a lead it actually reaches.
 */
module Leads {
  import opened Text
  import opened PyValues

  /** The sentinel reply when no lead matches. */
  const NoMatch: string := "No matching lead found"

  /** The keyword that asks for every lead. */
  const AllKeyword: string := "all"

  /** `lead["name"]`, ready for `.lower()`: the string name, or the exception
      the subscript (no "name" key) or the method call (not a string) raises. */
  function NameOf(lead: Object): (r: Result<string>)
    ensures r == Err(KeyError("name")) <==> Get(lead, "name").None?
    ensures r.Ok? <==> Get(lead, "name").Some? && Get(lead, "name").value.String?
    ensures r.Ok? ==> Get(lead, "name") == Some(String(r.value))
    ensures Get(lead, "name").Some? && Get(lead, "name").value.Other? ==> r == Err(AttributeError("lower"))
  {
    match Get(lead, "name")
    case None => Err(KeyError("name"))
    case Some(String(s)) => Ok(s)
    case Some(Other(_)) => Err(AttributeError("lower"))
  }

  /** The lead's lowered name occurs in the lowered query `lq`. */
  predicate NameIn(lead: Object, lq: string) {
    NameOf(lead).Ok? && Contains(lq, Lower(NameOf(lead).value))
  }

  /** The scan stops at this lead: it matches, or reading its name raises. */
  predicate Halts(lead: Object, lq: string) {
    NameOf(lead).Err? || NameIn(lead, lq)
  }

  /** Every lead before position `i` was read without error and did not match. */
  predicate PassedBefore(leads: seq<Object>, lq: string, i: int) {
    forall j :: 0 <= j < i && j < |leads| ==> !Halts(leads[j], lq)
  }

  /** The loaded data has the expected shape: every lead has a string name. */
  predicate AllNamed(leads: seq<Object>) {
    forall i :: 0 <= i < |leads| ==> NameOf(leads[i]).Ok?
  }

  /** The `for lead in leads_data` scan from position `from` on: where it stops. */
  function FirstHalt(leads: seq<Object>, lq: string, from: nat): (r: Option<nat>)
    requires from <= |leads|
    decreases |leads| - from
    ensures r.Some? ==> from <= r.value < |leads| && Halts(leads[r.value], lq)
    ensures r.Some? ==> forall j :: from <= j < r.value ==> !Halts(leads[j], lq)
    ensures r.None? <==> forall j :: from <= j < |leads| ==> !Halts(leads[j], lq)
  {
    if from == |leads| then None
    else if Halts(leads[from], lq) then Some(from)
    else FirstHalt(leads, lq, from + 1)
  }

  /** The body of `lead_tool` once the query has been lowered to `lq`: the
      whole list for "all"; otherwise the scan decides, and it answers with the
      first lead whose name occurs, raises at the first lead whose name cannot
      be read, and gives the sentinel when it runs off the end. */
  function Reply(leads: seq<Object>, lq: string): (r: Result<string>)
    ensures Contains(lq, AllKeyword) ==> r == Ok(RenderList(leads))
    ensures !Contains(lq, AllKeyword) ==>
      forall i :: 0 <= i < |leads| && PassedBefore(leads, lq, i) && NameIn(leads[i], lq)
        ==> r == Ok(RenderObject(leads[i]))
    ensures !Contains(lq, AllKeyword) ==>
      forall i :: 0 <= i < |leads| && PassedBefore(leads, lq, i) && NameOf(leads[i]).Err?
        ==> r == NameOf(leads[i])
    ensures !Contains(lq, AllKeyword) && PassedBefore(leads, lq, |leads|) ==> r == Ok(NoMatch)
  {
    if Contains(lq, AllKeyword) then Ok(RenderList(leads))
    else
      match FirstHalt(leads, lq, 0)
      case None => Ok(NoMatch)
      case Some(i) =>
        if NameOf(leads[i]).Err? then NameOf(leads[i]) else Ok(RenderObject(leads[i]))
  }

  /** `lead_tool(query)`: the reply for the lowered query. Only a lead whose
      name cannot be read can make it raise, so well-formed data never does. */
  function LeadTool(leads: seq<Object>, query: string): (r: Result<string>)
    ensures Contains(Lower(query), AllKeyword) ==> r == Ok(RenderList(leads))
    ensures AllNamed(leads) ==> r.Ok?
    ensures r.Err? ==> exists i :: 0 <= i < |leads| && r == NameOf(leads[i])
  {
    Reply(leads, Lower(query))
  }

  /** Earlier leads shadow later ones: when the data is well formed and lead
      `i` matches, the reply is a matching lead at position `i` or before. */
  lemma {:induction false} EarlierLeadShadows(leads: seq<Object>, query: string, i: nat)
    requires AllNamed(leads)
    requires !Contains(Lower(query), AllKeyword)
    requires i < |leads| && NameIn(leads[i], Lower(query))
    ensures exists j ::
              && 0 <= j <= i
              && NameIn(leads[j], Lower(query))
              && LeadTool(leads, query) == Ok(RenderObject(leads[j]))
  {
    var h := FirstHalt(leads, Lower(query), 0);
    assert h.Some?;
    var j := h.value;
    assert PassedBefore(leads, Lower(query), j);
    assert j <= i;
  }

  /** A lead with an empty name matches every query without "all", so the
      scan always stops and the sentinel is never returned, whatever the other
      leads hold. With well-formed data the reply is a lead at position `i` or
      before. */
  lemma {:induction false} EmptyNameMatchesEverything(leads: seq<Object>, query: string, i: nat)
    requires !Contains(Lower(query), AllKeyword)
    requires i < |leads| && NameOf(leads[i]) == Ok("")
    ensures LeadTool(leads, query) != Ok(NoMatch)
    ensures AllNamed(leads) ==>
      exists j :: 0 <= j <= i && LeadTool(leads, query) == Ok(RenderObject(leads[j]))
  {
    var lq := Lower(query);
    ContainsEmpty(lq);
    assert Lower("") == "";
    assert Halts(leads[i], lq);
    var h := FirstHalt(leads, lq, 0);
    assert h.Some?;
    if NameOf(leads[h.value]).Ok? {
      assert RenderObject(leads[h.value])[0] == '{' != NoMatch[0];
    }
    if AllNamed(leads) {
      EarlierLeadShadows(leads, query, i);
    }
  }

  /** "all" is matched as a bare substring, not as a word: any query holding a
      word such as "call" or "small" gets the full dump, names notwithstanding. */
  lemma {:induction false} AllInsideAWordDumps(leads: seq<Object>, query: string, word: string)
    requires Contains(Lower(query), word) && Contains(word, AllKeyword)
    ensures LeadTool(leads, query) == Ok(RenderList(leads))
  {
    ContainsTransitive(Lower(query), word, AllKeyword);
  }

  /** Name matching is case-insensitive on both sides: a name written into the
      query in any letter case, or a name written in any case in the data, is
      found when the scan reaches it. */
  lemma {:induction false} NameFoundInAnyCase(lead: Object, query: string, written: string)
    requires NameOf(lead).Ok?
    requires Lower(written) == Lower(NameOf(lead).value)
    requires Contains(query, written)
    ensures NameIn(lead, Lower(query))
  {
    ContainsLower(query, written);
  }

  /** The tool lowers the query itself, so lowering it beforehand changes
      nothing. */
  lemma {:induction false} LeadToolIgnoresCase(leads: seq<Object>, query: string)
    ensures LeadTool(leads, Lower(query)) == LeadTool(leads, query)
  {
    LowerIdempotent(query);
  }
}
