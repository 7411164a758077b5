/**
 * The explore page's thought list (src/components/explore/thoughts-list.tsx): search filter,
 * newest-first ordering, card colours, result count, and the update/delete callbacks the thought
 * modal calls.
 */
module ThoughtsList {
  import opened Wrappers
  import opened Types
  import opened Seqs
  import opened Text
  import opened Sorting

  /** The card background/border classes; a cluster label picks `CardColors[label mod 7]`. */
  const CardColors: seq<string> := [
    "bg-rose-50 border-rose-200",
    "bg-sky-50 border-sky-200",
    "bg-emerald-50 border-emerald-200",
    "bg-indigo-50 border-indigo-200",
    "bg-orange-50 border-orange-200",
    "bg-teal-50 border-teal-200",
    "bg-fuchsia-50 border-fuchsia-200"]

  function CardColor(lbl: nat): (c: string)
    ensures c in CardColors
    ensures c == CardColors[lbl % 7]
  {
    CardColors[lbl % |CardColors|]
  }

  /** Labels seven apart get the same card colour. */
  lemma CardColorPeriodic(lbl: nat)
    ensures CardColor(lbl + 7) == CardColor(lbl)
  {
    assert |CardColors| == 7;
    assert (lbl + 7) % 7 == lbl % 7;
  }

  /** A card matches an already lowercased query through its title, its excerpt or its label digits. */
  predicate Matches(t: ThoughtRecord, query: string) {
    Contains(ToLower(t.title), query)
    || Contains(ToLower(t.excerpt), query)
    || Contains(NatToString(t.clusterLabel), query)
  }

  /**
   * `filteredThoughts`: the whole list for a blank query, otherwise the thoughts matching the
   * lowercased (but not trimmed) query, in list order.
   */
  function FilteredThoughts(thoughts: seq<ThoughtRecord>, searchQuery: string): (r: seq<ThoughtRecord>)
    ensures IsBlank(searchQuery) ==> r == thoughts
    ensures !IsBlank(searchQuery) ==>
      && (forall i :: 0 <= i < |r| ==> Matches(r[i], ToLower(searchQuery)))
      && (forall i :: 0 <= i < |thoughts| && Matches(thoughts[i], ToLower(searchQuery)) ==> thoughts[i] in r)
      && multiset(r) <= multiset(thoughts)
  {
    if IsBlank(searchQuery) then thoughts
    else
      var query := ToLower(searchQuery);
      Filter(thoughts, (t: ThoughtRecord) => Matches(t, query))
  }

  /** Filtering a concatenation filters each part: the matches keep their relative order. */
  lemma FilterKeepsOrder(a: seq<ThoughtRecord>, b: seq<ThoughtRecord>, searchQuery: string)
    ensures FilteredThoughts(a + b, searchQuery)
         == FilteredThoughts(a, searchQuery) + FilteredThoughts(b, searchQuery)
  {
    if !IsBlank(searchQuery) {
      var query := ToLower(searchQuery);
      FilterAppend(a, b, (t: ThoughtRecord) => Matches(t, query));
    }
  }

  /** The search is case-insensitive: queries differing only in ASCII case give the same list. */
  lemma SearchIgnoresCase(thoughts: seq<ThoughtRecord>, q1: string, q2: string)
    requires ToLower(q1) == ToLower(q2)
    requires IsBlank(q1) == IsBlank(q2)
    ensures FilteredThoughts(thoughts, q1) == FilteredThoughts(thoughts, q2)
  {
  }

  /** A label search is a substring search: "1" also finds the thoughts labelled 10 to 19. */
  lemma LabelDigitsMatchBySubstring(t: ThoughtRecord)
    requires t.clusterLabel == 12
    ensures Matches(t, "1") && Matches(t, "2")
  {
    assert NatToString(12) == "12";
    ContainsAt("12", "1", 0);
    ContainsAt("12", "2", 1);
  }

  /** The line under the search box while a query is typed (any non-empty query, even spaces). */
  function ResultCountText(searchQuery: string, count: nat): (r: Option<string>)
    ensures searchQuery == "" <==> r.None?
    ensures r.Some? && count == 0 ==> r.value == "No thoughts found"
    ensures r.Some? && count == 1 ==> r.value == "1 thought found"
    ensures r.Some? && count > 1 ==> r.value == NatToString(count) + " thoughts found"
  {
    if searchQuery == "" then None
    else if count == 0 then Some("No thoughts found")
    else Some(NatToString(count) + " thought" + (if count == 1 then "" else "s") + " found")
  }

  function CreatedAt(t: ThoughtRecord): int {
    t.createdAt
  }

  /** `sortThoughtsByTime`: sorts the given array itself, newest first. */
  method SortThoughtsByTime(thoughts: array<ThoughtRecord>)
    modifies thoughts
    ensures SortedDesc(thoughts[..], CreatedAt)
    ensures multiset(thoughts[..]) == old(multiset(thoughts[..]))
  {
    SortDescending(thoughts, CreatedAt);
  }

  /** `deleteThought`: the list without the records carrying `id`, handed to the parent's setter. */
  function DeleteThought(thoughts: seq<ThoughtRecord>, id: string): (r: seq<ThoughtRecord>)
    ensures forall i :: 0 <= i < |r| ==> r[i].id != id
    ensures forall i :: 0 <= i < |thoughts| && thoughts[i].id != id ==> thoughts[i] in r
    ensures multiset(r) <= multiset(thoughts)
  {
    Filter(thoughts, (t: ThoughtRecord) => t.id != id)
  }

  /** Deleting an id that is not listed changes nothing. */
  lemma DeleteUnknownIsIdentity(thoughts: seq<ThoughtRecord>, id: string)
    requires forall i :: 0 <= i < |thoughts| ==> thoughts[i].id != id
    ensures DeleteThought(thoughts, id) == thoughts
  {
    FilterAll(thoughts, (t: ThoughtRecord) => t.id != id);
  }

  /** Deleting keeps the survivors' order: it distributes over concatenation. */
  lemma DeleteKeepsOrder(a: seq<ThoughtRecord>, b: seq<ThoughtRecord>, id: string)
    ensures DeleteThought(a + b, id) == DeleteThought(a, id) + DeleteThought(b, id)
  {
    FilterAppend(a, b, (t: ThoughtRecord) => t.id != id);
  }

  /** Deleting twice is deleting once. */
  lemma DeleteIsIdempotent(thoughts: seq<ThoughtRecord>, id: string)
    ensures DeleteThought(DeleteThought(thoughts, id), id) == DeleteThought(thoughts, id)
  {
    DeleteUnknownIsIdentity(DeleteThought(thoughts, id), id);
  }

  /** The list's excerpt of an edited thought: the first 100 characters of its text. */
  function Excerpt(text: string): (r: string)
    ensures |r| == if |text| < 100 then |text| else 100
    ensures r <= text
  {
    if |text| < 100 then text else text[..100]
  }

  /** The record after `updateThought` wrote the edited thought's fields into it. */
  function Updated(t: ThoughtRecord, edited: Thought): ThoughtRecord {
    t.(title := edited.title, excerpt := Excerpt(edited.textContent), createdAt := edited.createdAt)
  }

  function HasId(id: string): ThoughtRecord -> bool {
    (t: ThoughtRecord) => t.id == id
  }

  /**
   * `updateThought`: finds the first record with the edited thought's id and overwrites its
   * title, excerpt and creation time in place; with no such record nothing changes.
   */
  method UpdateThought(thoughts: array<ThoughtRecord>, edited: Thought)
    modifies thoughts
    ensures FindFirst(old(thoughts[..]), HasId(edited.id)).None? ==> thoughts[..] == old(thoughts[..])
    ensures FindFirst(old(thoughts[..]), HasId(edited.id)).Some? ==>
      var i := FindFirst(old(thoughts[..]), HasId(edited.id)).value;
      thoughts[..] == old(thoughts[..])[i := Updated(old(thoughts[i]), edited)]
  {
    var i := 0;
    while i < thoughts.Length && thoughts[i].id != edited.id
      invariant 0 <= i <= thoughts.Length
      invariant forall j :: 0 <= j < i ==> thoughts[j].id != edited.id
    {
      i := i + 1;
    }
    if i < thoughts.Length {
      thoughts[i] := thoughts[i].(title := edited.title,
                                  excerpt := Excerpt(edited.textContent),
                                  createdAt := edited.createdAt);
    }
  }

  /** Updating keeps every id in place and touches at most one record. */
  lemma UpdateKeepsIds(before: seq<ThoughtRecord>, edited: Thought)
    ensures var f := FindFirst(before, HasId(edited.id));
      f.Some? ==> var after := before[f.value := Updated(before[f.value], edited)];
        && |after| == |before|
        && (forall j :: 0 <= j < |before| ==> after[j].id == before[j].id)
        && (forall j :: 0 <= j < |before| && j != f.value ==> after[j] == before[j])
        && after[f.value].excerpt <= edited.textContent
  {
  }
}
