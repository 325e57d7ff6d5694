/**
 Four example exchanges with the chat endpoint, proved of the router. Facts
 about one literal query are proved in small lemmas of their own and then
 combined, so that no single proof has to reason about more than a few
 characters of literal text at once.
 */
module Scenarios {
  import opened Text
  import opened PyValues
  import opened Graph
  import Leads
  import KnowledgeBase
  import Scheduler

  /** The company data of the address exchanges: `{"address": "123 Main St"}`. */
  const AddressBook: Object := [("address", String("123 Main St"))]

  // Literal queries as words joined by single spaces

  /** An occurrence that ends before position `|a|` of `a + [c] + b` lies in `a`. */
  lemma OccurrenceBeforeSeparator(a: string, c: char, b: string, needle: string, i: nat)
    requires OccursAt(a + [c] + b, needle, i)
    requires i + |needle| <= |a|
    ensures OccursAt(a, needle, i)
  {
    forall k | 0 <= k < |needle|
      ensures a[i..i + |needle|][k] == needle[k]
    {
      CharOfOccurrence(a + [c] + b, needle, i, k);
    }
  }

  /** An occurrence that starts after position `|a|` of `a + [c] + b` lies in `b`. */
  lemma OccurrenceAfterSeparator(a: string, c: char, b: string, needle: string, i: nat)
    requires OccursAt(a + [c] + b, needle, i)
    requires i > |a|
    ensures OccursAt(b, needle, i - |a| - 1)
  {
    var j := i - |a| - 1;
    forall k | 0 <= k < |needle|
      ensures b[j..j + |needle|][k] == needle[k]
    {
      CharOfOccurrence(a + [c] + b, needle, i, k);
      assert (a + [c] + b)[i + k] == b[j + k];
    }
  }

  /** An occurrence that spans position `|a|` of `a + [c] + b` has `c` inside it. */
  lemma StraddleHitsSeparator(a: string, c: char, b: string, needle: string, i: nat)
    requires OccursAt(a + [c] + b, needle, i)
    requires i <= |a| < i + |needle|
    ensures c in needle
  {
    assert (a + [c] + b)[i..i + |needle|][|a| - i] == c;
  }

  /** An occurrence of a needle that lacks the character `c` cannot straddle a
      `c` in the haystack: it lies wholly on one side. */
  lemma {:induction false} SplitAtSeparator(a: string, c: char, b: string, needle: string)
    requires c !in needle
    requires !Contains(a, needle) && !Contains(b, needle)
    ensures !Contains(a + [c] + b, needle)
  {
    var hay := a + [c] + b;
    if Contains(hay, needle) {
      var i :| 0 <= i <= |hay| - |needle| && OccursAt(hay, needle, i);
      if i + |needle| <= |a| {
        OccurrenceBeforeSeparator(a, c, b, needle, i);
      } else if i > |a| {
        OccurrenceAfterSeparator(a, c, b, needle, i);
      } else {
        StraddleHitsSeparator(a, c, b, needle, i);
      }
    }
  }

  /** Lowering works character by character, so it distributes over `+`. */
  lemma {:induction false} LowerAppend(a: string, b: string)
    ensures Lower(a + b) == Lower(a) + Lower(b)
  {
    var l, r := Lower(a + b), Lower(a) + Lower(b);
    forall i | 0 <= i < |a + b|
      ensures l[i] == r[i]
    {
      if i < |a| {
        assert (a + b)[i] == a[i];
      } else {
        assert (a + b)[i] == b[i - |a|];
      }
    }
  }

  /** Words joined by single spaces. */
  function JoinWords(words: seq<string>): string
    requires words != []
  {
    if |words| == 1 then words[0] else words[0] + [' '] + JoinWords(words[1..])
  }

  /** A needle without a space that occurs in none of the words does not occur
      in the words joined by spaces. */
  lemma {:induction false} NoneInWords(words: seq<string>, needle: string)
    requires words != [] && ' ' !in needle
    requires forall i :: 0 <= i < |words| ==> !Contains(words[i], needle)
    ensures !Contains(JoinWords(words), needle)
  {
    if |words| > 1 {
      NoneInWords(words[1..], needle);
      SplitAtSeparator(words[0], ' ', JoinWords(words[1..]), needle);
    }
  }

  /** Joining two non-empty runs of words is joining each and putting a space between. */
  lemma {:induction false} JoinWordsAppend(a: seq<string>, b: seq<string>)
    requires a != [] && b != []
    ensures JoinWords(a + b) == JoinWords(a) + [' '] + JoinWords(b)
  {
    if |a| > 1 {
      assert (a + b)[1..] == a[1..] + b;
      JoinWordsAppend(a[1..], b);
    } else {
      assert (a + b)[1..] == b;
    }
  }

  /** Lowering words joined by spaces is joining the lowered words. */
  lemma {:induction false} LowerWords(words: seq<string>, lowered: seq<string>)
    requires words != [] && |words| == |lowered|
    requires forall i :: 0 <= i < |words| ==> Lower(words[i]) == lowered[i]
    ensures Lower(JoinWords(words)) == JoinWords(lowered)
  {
    if |words| > 1 {
      LowerWords(words[1..], lowered[1..]);
      LowerAppend(words[0] + [' '], JoinWords(words[1..]));
      LowerAppend(words[0], [' ']);
      assert Lower([' ']) == [' '];
    }
  }

  /** An occurrence inside one part of a concatenation is an occurrence in the whole. */
  lemma {:induction false} ContainsInAppend(a: string, b: string, needle: string)
    ensures Contains(a, needle) ==> Contains(a + b, needle)
    ensures Contains(b, needle) ==> Contains(a + b, needle)
  {
    if Contains(a, needle) {
      var i :| 0 <= i <= |a| - |needle| && OccursAt(a, needle, i);
      assert (a + b)[i..i + |needle|] == a[i..i + |needle|];
      assert OccursAt(a + b, needle, i);
    }
    if Contains(b, needle) {
      var i :| 0 <= i <= |b| - |needle| && OccursAt(b, needle, i);
      assert (a + b)[|a| + i..|a| + i + |needle|] == b[i..i + |needle|];
      assert OccursAt(a + b, needle, |a| + i);
    }
  }

  /** An occurrence inside one word is an occurrence in the joined words. */
  lemma {:induction false} ContainsInWords(words: seq<string>, k: nat, needle: string)
    requires k < |words| && Contains(words[k], needle)
    ensures Contains(JoinWords(words), needle)
  {
    if |words| > 1 {
      if k == 0 {
        ContainsInAppend(words[0], [' '], needle);
        ContainsInAppend(words[0] + [' '], JoinWords(words[1..]), needle);
      } else {
        ContainsInWords(words[1..], k - 1, needle);
        ContainsInAppend(words[0] + [' '], JoinWords(words[1..]), needle);
      }
    }
  }

  // "show me all leads"

  lemma ShowAllLeadsIsLowered(q: string)
    requires q == "show me all leads"
    ensures Lower(q) == q
  {
    LowerFixesLowered(q);
  }

  lemma ShowAllLeadsMentions(q: string)
    requires q == "show me all leads"
    ensures Contains(q, "show") && Contains(q, Leads.AllKeyword)
  {
    assert OccursAt(q, "show", 0);
    assert OccursAt(q, Leads.AllKeyword, 8);
  }

  /** "show me all leads" goes to the lead tool, which dumps every lead. */
  lemma ShowAllLeads(q: string, store: Store)
    requires q == "show me all leads"
    ensures Route(q) == LeadManagementTool
    ensures ToolRouter(q, store) == Ok(RenderList(store.leads))
  {
    ShowAllLeadsIsLowered(q);
    ShowAllLeadsMentions(q);
  }

  // "can I schedule a meeting tomorrow"

  const ScheduleWords: seq<string> := ["can", "I", "schedule", "a", "meeting", "tomorrow"]
  const ScheduleWordsLowered: seq<string> := ["can", "i", "schedule", "a", "meeting", "tomorrow"]

  lemma ScheduleQueryHalves(q: string)
    requires q == "can I schedule a meeting tomorrow"
    ensures q == "can I schedule" + [' '] + "a meeting tomorrow"
  {
  }

  lemma ScheduleFirstHalf(h: string)
    requires h == "can I schedule"
    ensures h == JoinWords(["can", "I", "schedule"])
  {
  }

  lemma ScheduleSecondHalf(h: string)
    requires h == "a meeting tomorrow"
    ensures h == JoinWords(["a", "meeting", "tomorrow"])
  {
  }

  lemma ScheduleQueryWords(q: string)
    requires q == "can I schedule a meeting tomorrow"
    ensures q == JoinWords(ScheduleWords)
  {
    ScheduleQueryHalves(q);
    ScheduleFirstHalf("can I schedule");
    ScheduleSecondHalf("a meeting tomorrow");
    JoinWordsAppend(["can", "I", "schedule"], ["a", "meeting", "tomorrow"]);
    assert ["can", "I", "schedule"] + ["a", "meeting", "tomorrow"] == ScheduleWords;
  }

  lemma ScheduleWordLowered(i: nat)
    requires i < 6
    ensures Lower(ScheduleWords[i]) == ScheduleWordsLowered[i]
  {
    if i == 1 {
      assert Lower("I") == "i";
    } else {
      LowerFixesLowered(ScheduleWords[i]);
    }
  }

  lemma ScheduleQueryLowered(q: string)
    requires q == "can I schedule a meeting tomorrow"
    ensures Lower(q) == JoinWords(ScheduleWordsLowered)
  {
    ScheduleQueryWords(q);
    forall i | 0 <= i < 6
      ensures Lower(ScheduleWords[i]) == ScheduleWordsLowered[i]
    {
      ScheduleWordLowered(i);
    }
    LowerWords(ScheduleWords, ScheduleWordsLowered);
  }

  lemma ScheduleWordsLack(w: string)
    requires w == "lead" || w == "show"
    ensures forall i :: 0 <= i < 6 ==> !Contains(ScheduleWordsLowered[i], w)
  {
    MissingCharRulesOut("tomorrow", w, 0);
    MissingCharRulesOut("meeting", w, 0);
    if w == "lead" {
      MissingCharRulesOut("schedule", w, 2);
    } else {
      MissingCharRulesOut("schedule", w, 3);
    }
  }

  lemma ScheduleQueryLacks(w: string)
    requires w == "lead" || w == "show"
    ensures !Contains(JoinWords(ScheduleWordsLowered), w)
  {
    ScheduleWordsLack(w);
    NoneInWords(ScheduleWordsLowered, w);
  }

  lemma ScheduleQueryMentions()
    ensures Contains(JoinWords(ScheduleWordsLowered), "schedule")
  {
    assert OccursAt("schedule", "schedule", 0);
    ContainsInWords(ScheduleWordsLowered, 2, "schedule");
  }

  /** "can I schedule a meeting tomorrow" goes to the scheduler and gets the
      fixed confirmation. */
  lemma ScheduleAMeeting(q: string, store: Store)
    requires q == "can I schedule a meeting tomorrow"
    ensures Route(q) == SchedulerTool
    ensures ToolRouter(q, store) == Ok(Scheduler.Confirmation)
  {
    ScheduleQueryLowered(q);
    ScheduleQueryLacks("lead");
    ScheduleQueryLacks("show");
    ScheduleQueryMentions();
  }

  // "what is your address"

  lemma AddressQueryIsLowered(q: string)
    requires q == "what is your address"
    ensures Lower(q) == q
  {
    LowerFixesLowered(q);
  }

  lemma AddressQueryWords(q: string)
    requires q == "what is your address"
    ensures q == JoinWords(["what", "is", "your", "address"])
  {
  }

  lemma AddressWordsLack(w: string)
    requires w == "lead" || w == "show" || w == "meeting" || w == "schedule"
    ensures forall i :: 0 <= i < 4 ==> !Contains(["what", "is", "your", "address"][i], w)
  {
    if w == "show" {
      MissingCharRulesOut("what", w, 0);
      MissingCharRulesOut("your", w, 0);
      MissingCharRulesOut("address", w, 1);
    } else {
      MissingCharRulesOut("what", w, 1);
      MissingCharRulesOut("your", w, 1);
      MissingCharRulesOut("address", w, if w == "schedule" then 1 else 0);
    }
  }

  lemma AddressQueryLacks(q: string, w: string)
    requires q == "what is your address"
    requires w == "lead" || w == "show" || w == "meeting" || w == "schedule"
    ensures !Contains(q, w)
  {
    AddressQueryWords(q);
    AddressWordsLack(w);
    NoneInWords(["what", "is", "your", "address"], w);
  }

  lemma AddressQueryMentions(q: string)
    requires q == "what is your address"
    ensures Contains(q, "address")
  {
    assert OccursAt(q, "address", 13);
  }

  /** "what is your address", with `{"address": "123 Main St"}` loaded, goes to
      the knowledge tool and answers with that entry. */
  lemma AskForAddress(q: string, store: Store)
    requires q == "what is your address"
    requires store.company == AddressBook
    ensures Route(q) == KnowledgeBaseTool
    ensures ToolRouter(q, store) == Ok("address: 123 Main St")
  {
    AddressQueryIsLowered(q);
    AddressQueryLacks(q, "lead");
    AddressQueryLacks(q, "show");
    AddressQueryLacks(q, "meeting");
    AddressQueryLacks(q, "schedule");
    AddressQueryMentions(q);
    assert KnowledgeBase.FirstKeyAt(store.company, q, 0);
    AddressEntry();
  }

  lemma AddressEntry()
    ensures KnowledgeBase.Entry(AddressBook[0]) == "address: 123 Main St"
  {
    assert "address" + ": " + "123 Main St" == "address: 123 Main St";
  }

  // "hello"

  lemma HelloIsLowered(q: string)
    requires q == "hello"
    ensures Lower(q) == q
  {
    LowerFixesLowered(q);
  }

  lemma HelloLacks(q: string, w: string)
    requires q == "hello"
    requires w == "lead" || w == "show" || w == "meeting" || w == "schedule" || w == "address"
    ensures !Contains(q, w)
  {
    MissingCharRulesOut(q, w, if w == "lead" then 2 else 0);
  }

  /** "hello", with `{"address": "123 Main St"}` loaded, matches no keyword and
      no key, and gets the whole company mapping. */
  lemma SayHello(q: string, store: Store)
    requires q == "hello"
    requires store.company == AddressBook
    ensures Route(q) == KnowledgeBaseTool
    ensures ToolRouter(q, store) == Ok(RenderObject(store.company))
  {
    HelloIsLowered(q);
    HelloLacks(q, "lead");
    HelloLacks(q, "show");
    HelloLacks(q, "meeting");
    HelloLacks(q, "schedule");
    HelloLacks(q, "address");
    assert KnowledgeBase.NoKeyIn(store.company, q);
  }
}
