/** The frequently-asked-questions section: a search box whose term filters the
    questions case-insensitively, and an accordion in which at most one question is
    open. The list of questions is fixed when the section is created. */
module Faq {
  import opened Wrappers
  import opened Strings
  import opened Seqs

  datatype FaqItem = FaqItem(id: string, question: string, answer: string)

  /** The filter test for a lower-cased term: the lower-cased question or the
      lower-cased answer contains it. */
  function Mentions(lowered: string): FaqItem -> bool {
    (faq: FaqItem) => Contains(Lower(faq.question), lowered) || Contains(Lower(faq.answer), lowered)
  }

  /** The search effect: every item for a term that trims to nothing; otherwise the
      items that mention the lower-cased term, which is not trimmed. */
  function Search(faqData: seq<FaqItem>, searchTerm: string): seq<FaqItem> {
    if Trim(searchTerm) == "" then faqData else Filter(faqData, Mentions(Lower(searchTerm)))
  }

  /** `toggleItem`: close the item if it is the open one, open it (closing any other)
      otherwise. */
  function Toggled(openItem: Option<string>, id: string): Option<string> {
    if openItem == Some(id) then None else Some(id)
  }

  /** `text`, lower-cased, holds `term`, lower-cased, somewhere. */
  ghost predicate MentionsAt(text: string, term: string) {
    exists i :: OccursAt(Lower(text), Lower(term), i)
  }

  // What the section promises

  /** A blank term shows every item. */
  lemma BlankTermShowsAll(faqData: seq<FaqItem>, searchTerm: string)
    requires forall i :: 0 <= i < |searchTerm| ==> IsWhitespace(searchTerm[i])
    ensures Search(faqData, searchTerm) == faqData
  {
    TrimEmptyIff(searchTerm);
  }

  /** A term that is not blank keeps exactly the items whose question or answer holds
      it, ignoring case, each as often as it occurs; white space around the term is
      part of what is searched for. */
  lemma SearchKeepsMentions(faqData: seq<FaqItem>, searchTerm: string)
    requires Trim(searchTerm) != ""
    ensures forall f :: f in Search(faqData, searchTerm) <==>
              f in faqData && (MentionsAt(f.question, searchTerm) || MentionsAt(f.answer, searchTerm))
    ensures forall f :: multiset(Search(faqData, searchTerm))[f] ==
              if MentionsAt(f.question, searchTerm) || MentionsAt(f.answer, searchTerm)
              then multiset(faqData)[f] else 0
  {
    var keep := Mentions(Lower(searchTerm));
    forall f ensures keep(f) <==> MentionsAt(f.question, searchTerm) || MentionsAt(f.answer, searchTerm) {
      ContainsIff(Lower(f.question), Lower(searchTerm));
      ContainsIff(Lower(f.answer), Lower(searchTerm));
    }
    forall f ensures f in Search(faqData, searchTerm) <==> f in faqData && keep(f) {
      FilterMembership(faqData, keep, f);
    }
    forall f ensures multiset(Search(faqData, searchTerm))[f] ==
                     if keep(f) then multiset(faqData)[f] else 0 {
      FilterCount(faqData, keep, f);
    }
  }

  /** What is shown is always the items in their original order, some left out. */
  lemma SearchIsSubsequence(faqData: seq<FaqItem>, searchTerm: string)
    ensures IsSubsequence(Search(faqData, searchTerm), faqData)
  {
    if Trim(searchTerm) == "" {
      SubsequenceOfItself(faqData);
    } else {
      FilterIsSubsequence(faqData, Mentions(Lower(searchTerm)));
    }
  }

  /** Typing the term in another case shows the same items. */
  lemma SearchIgnoresCase(faqData: seq<FaqItem>, searchTerm: string)
    ensures Search(faqData, Lower(searchTerm)) == Search(faqData, searchTerm)
  {
    LowerKeepsBlank(searchTerm);
    LowerIdempotent(searchTerm);
  }

  /** The term is not trimmed before the search: searching for a question finds
      its item, while the same question followed by a space finds nothing there
      (here the answer is no longer than the question). */
  lemma TermNotTrimmed(f: FaqItem)
    requires Trim(f.question) != "" && |f.answer| <= |f.question|
    ensures Search([f], f.question) == [f]
    ensures Search([f], f.question + " ") == []
  {
    NotBlankWithSpace(f.question);
    ContainsSelfOnly(Lower(f.question), Lower(f.question + " "));
    ContainsSelfOnly(Lower(f.answer), Lower(f.question + " "));
    assert Mentions(Lower(f.question))(f);
  }

  /** Toggling opens the item unless it is the open one, which it closes; since only
      one id is ever held, at most one item is open. */
  lemma ToggleOutcome(openItem: Option<string>, id: string)
    ensures Toggled(openItem, id) == Some(id) <==> openItem != Some(id)
    ensures Toggled(openItem, id).None? <==> openItem == Some(id)
  {
  }

  /** Toggling the same item twice restores the state exactly when nothing or that
      item was open; if another item was open, it stays closed. */
  lemma ToggleTwice(openItem: Option<string>, id: string)
    ensures Toggled(Toggled(openItem, id), id) == openItem <==> openItem == None || openItem == Some(id)
    ensures openItem.Some? && openItem != Some(id) ==> Toggled(Toggled(openItem, id), id) == None
  {
  }

  /** The section's state. */
  class FaqSection {
    const faqData: seq<FaqItem>
    var searchTerm: string
    var filteredFaqs: seq<FaqItem>
    var openItem: Option<string>

    constructor (data: seq<FaqItem>)
      ensures faqData == data && searchTerm == "" && filteredFaqs == data && openItem == None
    {
      faqData := data;
      searchTerm := "";
      filteredFaqs := data;
      openItem := None;
    }

    /** Typing into the search box; the filter effect then runs on the new term. */
    method SetSearchTerm(term: string)
      modifies this
      ensures searchTerm == term && filteredFaqs == Search(faqData, term) && openItem == old(openItem)
    {
      searchTerm := term;
      if Trim(searchTerm) == "" {
        filteredFaqs := faqData;
      } else {
        var lowercasedFilter := Lower(searchTerm);
        filteredFaqs := Filter(faqData, Mentions(lowercasedFilter));
      }
    }

    method ToggleItem(id: string)
      modifies this
      ensures openItem == Toggled(old(openItem), id)
      ensures searchTerm == old(searchTerm) && filteredFaqs == old(filteredFaqs)
    {
      openItem := if openItem == Some(id) then None else Some(id);
    }
  }
}
