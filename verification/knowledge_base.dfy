/**
 `company_info_tool`: answer with the first company attribute whose key occurs
 in the lowered query, or with the whole attribute mapping when none does.
 */
module KnowledgeBase {
  import opened Text
  import opened PyValues

  /** The entry's key occurs in the lowered query `lq`. The key itself is not
      lowered. */
  predicate KeyIn(entry: (string, Value), lq: string) {
    Contains(lq, entry.0)
  }

  /** Entry `i` is the first, in insertion order, whose key occurs in `lq`. */
  predicate FirstKeyAt(company: Object, lq: string, i: int) {
    && 0 <= i < |company|
    && KeyIn(company[i], lq)
    && forall j :: 0 <= j < i ==> !KeyIn(company[j], lq)
  }

  /** No key of the mapping occurs in `lq`. */
  predicate NoKeyIn(company: Object, lq: string) {
    forall i :: 0 <= i < |company| ==> !KeyIn(company[i], lq)
  }

  /** The scan of `company_data.items()` from position `from` on. */
  function FirstMatch(company: Object, lq: string, from: nat): (r: Option<nat>)
    requires from <= |company|
    decreases |company| - from
    ensures r.Some? ==> from <= r.value < |company| && KeyIn(company[r.value], lq)
    ensures r.Some? ==> forall j :: from <= j < r.value ==> !KeyIn(company[j], lq)
    ensures r.None? <==> forall j :: from <= j < |company| ==> !KeyIn(company[j], lq)
  {
    if from == |company| then None
    else if KeyIn(company[from], lq) then Some(from)
    else FirstMatch(company, lq, from + 1)
  }

  /** The position of the entry the tool answers with, if any. */
  function SelectedKey(company: Object, query: string): (r: Option<nat>)
    ensures r.Some? <==> !NoKeyIn(company, Lower(query))
    ensures r.Some? ==> FirstKeyAt(company, Lower(query), r.value)
  {
    FirstMatch(company, Lower(query), 0)
  }

  /** The f-string `f"{key}: {value}"`: the key, then `": "`, then `str` of
      the value, each readable back from its place in the answer. */
  function Entry(entry: (string, Value)): (r: string)
    ensures |r| == |entry.0| + 2 + |ToStr(entry.1)|
    ensures r[..|entry.0|] == entry.0
    ensures r[|entry.0|..|entry.0| + 2] == ": "
    ensures r[|entry.0| + 2..] == ToStr(entry.1)
  {
    entry.0 + ": " + ToStr(entry.1)
  }

  /** `company_info_tool(query)`. */
  function CompanyInfo(company: Object, query: string): (r: string)
    ensures forall i :: FirstKeyAt(company, Lower(query), i) ==> r == Entry(company[i])
    ensures NoKeyIn(company, Lower(query)) ==> r == RenderObject(company)
  {
    match SelectedKey(company, query)
    case Some(i) => Entry(company[i])
    case None => RenderObject(company)
  }

  /** Earlier keys shadow later ones: once key `i` occurs in the query, the
      answer comes from an occurring key at position `i` or before, never from
      a later one. */
  lemma {:induction false} EarlierKeyShadows(company: Object, query: string, i: nat)
    requires i < |company| && KeyIn(company[i], Lower(query))
    ensures SelectedKey(company, query).Some?
    ensures SelectedKey(company, query).value <= i
    ensures forall j :: i < j < |company| ==> SelectedKey(company, query) != Some(j)
  {
    assert !NoKeyIn(company, Lower(query));
  }

  /** A key holding a capital letter never occurs in the lowered query, so it is
      never selected, however the query is written. */
  lemma {:induction false} CapitalizedKeyNeverSelected(company: Object, query: string, i: nat)
    requires i < |company| && !IsLowered(company[i].0)
    ensures !KeyIn(company[i], Lower(query))
    ensures SelectedKey(company, query) != Some(i)
  {
    if KeyIn(company[i], Lower(query)) {
      OccursInLoweredIsLowered(Lower(query), company[i].0);
      assert false;
    }
  }

  /** A mapping whose every key holds a capital letter always falls through to
      the full rendering. */
  lemma {:induction false} CapitalizedKeysFallThrough(company: Object, query: string)
    requires forall i :: 0 <= i < |company| ==> !IsLowered(company[i].0)
    ensures CompanyInfo(company, query) == RenderObject(company)
  {
    forall i | 0 <= i < |company|
      ensures !KeyIn(company[i], Lower(query))
    {
      CapitalizedKeyNeverSelected(company, query, i);
    }
  }

  /** A key equal to the first or the last `k` characters of the lowered
      query is found: the answer comes from that entry or an earlier one. */
  lemma {:induction false} KeyAtEitherEndIsFound(company: Object, query: string, i: nat, k: nat)
    requires i < |company| && k <= |query|
    requires company[i].0 == Lower(query)[..k] || company[i].0 == Lower(query)[|query| - k..]
    ensures SelectedKey(company, query).Some?
    ensures SelectedKey(company, query).value <= i
  {
    var lq := Lower(query);
    PrefixAndSuffixOccur(lq, k);
    assert KeyIn(company[i], lq);
    EarlierKeyShadows(company, query, i);
  }

  /** Two mappings with the same keys in the same order. */
  predicate SameKeys(c1: Object, c2: Object) {
    |c1| == |c2| && forall i :: 0 <= i < |c1| ==> c1[i].0 == c2[i].0
  }

  /** Values play no part in matching: changing values never changes which key
      is selected. */
  lemma {:induction false} ValuesDoNotSelect(c1: Object, c2: Object, lq: string, from: nat)
    requires SameKeys(c1, c2) && from <= |c1|
    decreases |c1| - from
    ensures FirstMatch(c1, lq, from) == FirstMatch(c2, lq, from)
  {
    if from < |c1| {
      assert KeyIn(c1[from], lq) == KeyIn(c2[from], lq);
      ValuesDoNotSelect(c1, c2, lq, from + 1);
    }
  }

  /** Values play no part in matching, stated for the tool's selection. */
  lemma {:induction false} SelectionIgnoresValues(c1: Object, c2: Object, query: string)
    requires SameKeys(c1, c2)
    ensures SelectedKey(c1, query) == SelectedKey(c2, query)
  {
    ValuesDoNotSelect(c1, c2, Lower(query), 0);
  }

  /** The tool lowers the query itself, so lowering it beforehand changes
      nothing. */
  lemma {:induction false} CompanyInfoIgnoresCase(company: Object, query: string)
    ensures CompanyInfo(company, Lower(query)) == CompanyInfo(company, query)
  {
    LowerIdempotent(query);
  }
}
