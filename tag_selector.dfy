/** The skills tag picker: a selection the user toggles tags in and out of,
    and a search box that filters the known tags into a dropdown. The search
    effect, which React runs after `searchTerm` or `tags` change, is the
    explicit step `SearchEffect`. */
module TagSelector {
  import opened Json
  import opened Text

  /** `selected.filter(t => t !== tag)`. */
  function Remove(selected: seq<string>, tag: string): (r: seq<string>)
    ensures forall t :: t in r <==> t in selected && t != tag
  {
    if selected == [] then []
    else (if selected[0] == tag then [] else [selected[0]]) + Remove(selected[1..], tag)
  }

  /** Removal works piecewise, so the tags that stay keep their order. */
  lemma {:induction false} RemoveConcat(a: seq<string>, b: seq<string>, tag: string)
    ensures Remove(a + b, tag) == Remove(a, tag) + Remove(b, tag)
  {
    if a != [] {
      assert (a + b)[1..] == a[1..] + b;
      RemoveConcat(a[1..], b, tag);
    } else {
      assert a + b == b;
    }
  }

  lemma {:induction false} RemoveAbsent(selected: seq<string>, tag: string)
    requires tag !in selected
    ensures Remove(selected, tag) == selected
  {
    if selected != [] {
      RemoveAbsent(selected[1..], tag);
    }
  }

  /** The selection after toggling `tag`: every copy removed if it is
      selected, otherwise appended at the end. */
  function Toggle(selected: seq<string>, tag: string): (r: seq<string>)
    ensures tag in r <==> tag !in selected
    ensures tag !in selected ==> r == selected + [tag]
    ensures tag in selected ==> r == Remove(selected, tag)
  {
    if tag in selected then Remove(selected, tag) else selected + [tag]
  }

  /** Toggling a tag that is not selected twice gives the selection back. */
  lemma ToggleTwice(selected: seq<string>, tag: string)
    requires tag !in selected
    ensures Toggle(Toggle(selected, tag), tag) == selected
  {
    RemoveConcat(selected, [tag], tag);
    RemoveAbsent(selected, tag);
  }

  /** `toLowerCase` on ASCII letters; other characters are kept. */
  function LowerChar(c: char): (d: char)
    ensures 'A' <= c <= 'Z' ==> d as int == c as int + 32
    ensures !('A' <= c <= 'Z') ==> d == c
  {
    if 'A' <= c <= 'Z' then (c as int + 32) as char else c
  }

  function Lower(s: string): (r: string)
    ensures |r| == |s|
    ensures forall i :: 0 <= i < |s| ==> r[i] == LowerChar(s[i])
  {
    seq(|s|, i requires 0 <= i < |s| => LowerChar(s[i]))
  }

  /** `text.includes(part)`, searched from the left. */
  function Includes(text: string, part: string): (r: bool)
    ensures part == [] ==> r
    ensures r ==> |part| <= |text|
    ensures |part| <= |text| && text[..|part|] == part ==> r
    decreases |text|
  {
    if |part| > |text| then false
    else if text[..|part|] == part then true
    else Includes(text[1..], part)
  }

  /** Dropping the first character of `text` moves every occurrence one place left. */
  lemma OccursShift(text: string, part: string, i: int)
    requires |text| >= 1 && 0 <= i
    ensures OccursAt(text[1..], part, i) <==> OccursAt(text, part, i + 1)
  {
    if i <= |text| - 1 - |part| {
      assert text[1..][i..i + |part|] == text[i + 1..i + 1 + |part|];
    }
  }

  /** `Includes` holds exactly when `part` occurs somewhere in `text`. */
  lemma {:induction false} IncludesIffOccurs(text: string, part: string)
    ensures Includes(text, part) <==> Contains(text, part)
    decreases |text|
  {
    if |part| > |text| {
    } else if text[..|part|] == part {
      assert OccursAt(text, part, 0);
    } else {
      IncludesIffOccurs(text[1..], part);
      if Contains(text[1..], part) {
        var i :| OccursAt(text[1..], part, i);
        OccursShift(text, part, i);
      }
      if Contains(text, part) {
        var i :| OccursAt(text, part, i);
        assert i != 0;
        OccursShift(text, part, i - 1);
      }
    }
  }

  /** Whether `tag` is offered for `term`: contains it, ignoring ASCII case. */
  predicate Matches(tag: string, term: string)
  {
    Includes(Lower(tag), Lower(term))
  }

  /** `tags.filter(tag => tag.toLowerCase().includes(term.toLowerCase()))`. */
  function MatchingTags(tags: seq<string>, term: string): (r: seq<string>)
    ensures |r| <= |tags|
    ensures forall t :: t in r <==> t in tags && Matches(t, term)
  {
    if tags == [] then []
    else (if Matches(tags[0], term) then [tags[0]] else []) + MatchingTags(tags[1..], term)
  }

  /** Filtering works piecewise, so the offered tags keep the tags' order. */
  lemma {:induction false} MatchingConcat(a: seq<string>, b: seq<string>, term: string)
    ensures MatchingTags(a + b, term) == MatchingTags(a, term) + MatchingTags(b, term)
  {
    if a != [] {
      assert (a + b)[1..] == a[1..] + b;
      MatchingConcat(a[1..], b, term);
    } else {
      assert a + b == b;
    }
  }

  lemma LowerIdempotent(s: string)
    ensures Lower(Lower(s)) == Lower(s)
  {
    assert forall i :: 0 <= i < |s| ==> LowerChar(LowerChar(s[i])) == LowerChar(s[i]);
  }

  /** The match ignores case on both sides: a tag and a term may be given in
      any mix of upper and lower case. */
  lemma MatchesIgnoresCase(tag: string, tag': string, term: string, term': string)
    requires Lower(tag) == Lower(tag') && Lower(term) == Lower(term')
    ensures Matches(tag, term) == Matches(tag', term')
    ensures Matches(tag, term) == Matches(Lower(tag), Lower(term))
  {
    LowerIdempotent(tag);
    LowerIdempotent(term);
  }

  /** Two search terms that differ only in case offer the same tags, in the same order. */
  lemma {:induction false} MatchingIgnoresCase(tags: seq<string>, term: string, term': string)
    requires Lower(term) == Lower(term')
    ensures MatchingTags(tags, term) == MatchingTags(tags, term')
  {
    if tags != [] {
      MatchesIgnoresCase(tags[0], tags[0], term, term');
      MatchingIgnoresCase(tags[1..], term, term');
    }
  }

  /** An empty term offers every tag, in order. */
  lemma {:induction false} MatchingEmptyTerm(tags: seq<string>)
    ensures MatchingTags(tags, "") == tags
  {
    if tags != [] {
      MatchingEmptyTerm(tags[1..]);
    }
  }

  class TagSelector {
    var tags: seq<string>
    var selectedTags: seq<string>
    var searchTerm: string
    var filteredTags: seq<string>
    var showDropdown: bool
    /** The arguments `onTagChange` has been called with, oldest first. */
    var changes: seq<seq<string>>

    /** The initial state: `preSelectedTags ?? []`, no search, no dropdown. */
    constructor (tags: seq<string>, preSelectedTags: Option<seq<string>>)
      ensures this.tags == tags
      ensures selectedTags == (if preSelectedTags.Some? then preSelectedTags.value else [])
      ensures searchTerm == "" && filteredTags == [] && !showDropdown && changes == []
    {
      this.tags := tags;
      selectedTags := if preSelectedTags.Some? then preSelectedTags.value else [];
      searchTerm := "";
      filteredTags := [];
      showDropdown := false;
      changes := [];
    }

    /** `toggleTag`: the new selection is stored, passed to `onTagChange`,
        and the search box is cleared. */
    method ToggleTag(tag: string)
      modifies this
      ensures selectedTags == Toggle(old(selectedTags), tag)
      ensures changes == old(changes) + [selectedTags]
      ensures searchTerm == ""
      ensures tags == old(tags) && filteredTags == old(filteredTags) && showDropdown == old(showDropdown)
    {
      var updated;
      if tag in selectedTags {
        updated := Remove(selectedTags, tag);
      } else {
        updated := selectedTags + [tag];
      }
      selectedTags := updated;
      changes := changes + [updated];
      searchTerm := "";
    }

    /** The input's `onChange`. */
    method SetSearchTerm(term: string)
      modifies this
      ensures searchTerm == term
      ensures tags == old(tags) && selectedTags == old(selectedTags) && filteredTags == old(filteredTags)
      ensures showDropdown == old(showDropdown) && changes == old(changes)
    {
      searchTerm := term;
    }

    /** The search effect: a non-empty term offers the matching tags and
        shows the dropdown; an empty one hides it and leaves the last
        matches in place. */
    method SearchEffect()
      modifies this
      ensures searchTerm != "" ==> filteredTags == MatchingTags(tags, searchTerm) && showDropdown
      ensures searchTerm == "" ==> filteredTags == old(filteredTags) && !showDropdown
      ensures tags == old(tags) && selectedTags == old(selectedTags) && searchTerm == old(searchTerm)
      ensures changes == old(changes)
    {
      if searchTerm != "" {
        filteredTags := MatchingTags(tags, searchTerm);
        showDropdown := true;
      } else {
        showDropdown := false;
      }
    }
  }
}
