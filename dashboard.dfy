/**
 * The search and status filter of src/components/Dashboard.tsx, applied to
 * the processed summaries before they reach the table, and the Clear
 * button's reset.
 */
module Dashboard {
  import opened MockData

  /** `toLowerCase` on a character, restricted to ASCII letters. */
  function LowerChar(c: char): char {
    if 'A' <= c <= 'Z' then (c as int - 'A' as int + 'a' as int) as char else c
  }

  function ToLower(s: string): (r: string)
    ensures |r| == |s|
    ensures forall i :: 0 <= i < |s| ==> r[i] == LowerChar(s[i])
  {
    seq(|s|, i requires 0 <= i < |s| => LowerChar(s[i]))
  }

  predicate OccursAt(hay: string, needle: string, i: int) {
    0 <= i && i + |needle| <= |hay| && hay[i..i + |needle|] == needle
  }

  /** `hay.includes(needle)`: `needle` occurs in `hay` at some position. */
  predicate Includes(hay: string, needle: string) {
    exists i :: 0 <= i <= |hay| - |needle| && OccursAt(hay, needle, i)
  }

  predicate MatchesSearch(s: Summary, searchString: string) {
    searchString == "" || Includes(ToLower(s.messageId), ToLower(searchString))
  }

  /** "success" and "failed" select one status; every other value selects all. */
  predicate MatchesStatus(s: Summary, statusFilter: string) {
    if statusFilter == "success" then s.status == Success
    else if statusFilter == "failed" then s.status == Failed
    else true
  }

  predicate Keep(s: Summary, searchString: string, statusFilter: string) {
    MatchesSearch(s, searchString) && MatchesStatus(s, statusFilter)
  }

  /** `filteredAttempts`: the summaries the search and the status filter keep, in their order. */
  function FilteredAttempts(all: seq<Summary>, searchString: string, statusFilter: string): (r: seq<Summary>)
    ensures forall x :: multiset(r)[x] == if Keep(x, searchString, statusFilter) then multiset(all)[x] else 0
    ensures forall x :: x in r <==> x in all && Keep(x, searchString, statusFilter)
    decreases |all|
  {
    if all == [] then []
    else
      var rest := FilteredAttempts(all[1..], searchString, statusFilter);
      assert all == [all[0]] + all[1..];
      if Keep(all[0], searchString, statusFilter) then [all[0]] + rest else rest
  }

  /** `a` is `b` with some elements left out, the rest in the same order. */
  predicate IsSubsequence(a: seq<Summary>, b: seq<Summary>)
    decreases |b|
  {
    if a == [] then true
    else if b == [] then false
    else if a[0] == b[0] then IsSubsequence(a[1..], b[1..])
    else IsSubsequence(a, b[1..])
  }

  lemma {:induction false} FilteredIsSubsequence(all: seq<Summary>, searchString: string, statusFilter: string)
    ensures IsSubsequence(FilteredAttempts(all, searchString, statusFilter), all)
    decreases |all|
  {
    if all != [] {
      var r := FilteredAttempts(all, searchString, statusFilter);
      FilteredIsSubsequence(all[1..], searchString, statusFilter);
      if !Keep(all[0], searchString, statusFilter) {
        SubsequenceOfTail(r, all);
      }
    }
  }

  /** A subsequence of the tail is a subsequence of the whole. */
  lemma {:induction false} SubsequenceOfTail(a: seq<Summary>, b: seq<Summary>)
    requires b != [] && IsSubsequence(a, b[1..])
    ensures IsSubsequence(a, b)
    decreases |b|
  {
    if a != [] && a[0] == b[0] {
      assert |b| > 1;
      // a[0] also opens a subsequence of b[1..], hence a[1..] is one of b[2..]
      SubsequenceFirstMatch(a, b[1..]);
      SubsequenceOfTail(a[1..], b[1..]);
    }
  }

  /** Once `a` is a subsequence of `b`, so is `a` without its first element, of `b` after some match. */
  lemma {:induction false} SubsequenceFirstMatch(a: seq<Summary>, b: seq<Summary>)
    requires a != [] && IsSubsequence(a, b)
    ensures b != [] && IsSubsequence(a[1..], b[1..])
    decreases |b|
  {
    if a[0] != b[0] {
      SubsequenceFirstMatch(a, b[1..]);
      SubsequenceOfTail(a[1..], b[1..]);
    }
  }

  /** Filtering twice with the same settings is filtering once. */
  lemma {:induction false} FilterIdempotent(all: seq<Summary>, searchString: string, statusFilter: string)
    ensures FilteredAttempts(FilteredAttempts(all, searchString, statusFilter), searchString, statusFilter)
         == FilteredAttempts(all, searchString, statusFilter)
    decreases |all|
  {
    if all != [] {
      FilterIdempotent(all[1..], searchString, statusFilter);
      var rest := FilteredAttempts(all[1..], searchString, statusFilter);
      if Keep(all[0], searchString, statusFilter) {
        assert ([all[0]] + rest)[1..] == rest;
      }
    }
  }

  /** One step of the filter: the first summary is kept or dropped, then the rest is filtered. */
  lemma FilterStep(all: seq<Summary>, searchString: string, statusFilter: string)
    requires all != []
    ensures |FilteredAttempts(all, searchString, statusFilter)|
         == (if Keep(all[0], searchString, statusFilter) then 1 else 0)
            + |FilteredAttempts(all[1..], searchString, statusFilter)|
  {
  }

  /** The "success" and "failed" filters split what "all" shows. */
  lemma {:induction false} StatusFiltersPartition(all: seq<Summary>, searchString: string)
    ensures |FilteredAttempts(all, searchString, "success")| + |FilteredAttempts(all, searchString, "failed")|
         == |FilteredAttempts(all, searchString, "all")|
    decreases |all|
  {
    if all != [] {
      StatusFiltersPartition(all[1..], searchString);
      FilterStep(all, searchString, "success");
      FilterStep(all, searchString, "failed");
      FilterStep(all, searchString, "all");
      assert "success"[0] != "failed"[0] && "all"[0] != "success"[0] && "all"[0] != "failed"[0];
    }
  }

  /** The filter inputs: the search box and the status select. */
  datatype FilterSettings = FilterSettings(searchString: string, statusFilter: string)

  function Apply(f: FilterSettings, all: seq<Summary>): seq<Summary> {
    FilteredAttempts(all, f.searchString, f.statusFilter)
  }

  /** The Clear button: empty search, all statuses (also the initial state). */
  function Cleared(): (f: FilterSettings)
    ensures f.searchString == "" && f.statusFilter == "all"
  {
    FilterSettings("", "all")
  }

  /** The Clear button is shown when the search is non-empty or a status is selected. */
  predicate ClearShown(f: FilterSettings) {
    f.searchString != "" || f.statusFilter != "all"
  }

  /** After Clear, or whenever Clear is not shown, the filter lets everything through. */
  lemma {:induction false} ClearedIsIdentity(f: FilterSettings, all: seq<Summary>)
    requires f == Cleared() || !ClearShown(f)
    ensures Apply(f, all) == all
    decreases |all|
  {
    if all != [] {
      ClearedIsIdentity(f, all[1..]);
      assert [all[0]] + all[1..] == all;
    }
  }
}
