/**
 * The page state `script.js` mutates: the job list container (one card per
 * job shown), the "no results" indicator, the `active` class of each type
 * chip, the module-level `activeType`, and the values of the keyword input
 * and the location select.
 */
module Board {
  import opened Filtering

  class JobBoard {
    /** The job store, fixed once the page is loaded. */
    const jobs: seq<Job>
    /** The `data-type` of each filter chip, in document order. */
    const chipTypes: seq<string>
    /** Whether each chip carries the `active` class. */
    const chipActive: array<bool>

    /** The module-level `activeType`. */
    var activeType: string
    /** The value of the location select. */
    var location: string
    /** The raw text of the keyword input. */
    var keyword: string

    /** The jobs whose cards the container holds, in the order they were appended. */
    var cards: seq<Job>
    /** Whether the "no results" indicator is shown (its `hidden` class removed). */
    var noResults: bool

    ghost predicate Valid()
      reads this
    {
      chipActive.Length == |chipTypes|
    }

    /** The filter the predicate reads: the global `activeType` and the two inputs. */
    function Filters(): FilterState
      reads this
    {
      FilterState(activeType, location, keyword)
    }

    /** The view `renderJobs` leaves: one card per matching job, in order, and the indicator shown exactly when there is none. */
    ghost predicate Rendered()
      reads this
    {
      cards == Filter(jobs, Filters()) && (noResults <==> cards == [])
    }

    /** Exactly the chip at `k` is marked active. */
    ghost predicate OnlyActive(k: int)
      reads this, chipActive
    {
      forall i :: 0 <= i < chipActive.Length ==> (chipActive[i] <==> i == k)
    }

    /**
     * Page load: `activeType` starts at "all", the two inputs start empty, the
     * chips carry the classes the page gives them, and the jobs are rendered once.
     */
    constructor (jobs: seq<Job>, chipTypes: seq<string>, initiallyActive: seq<bool>)
      requires |initiallyActive| == |chipTypes|
      ensures Valid() && fresh(chipActive)
      ensures this.jobs == jobs && this.chipTypes == chipTypes && chipActive[..] == initiallyActive
      ensures Filters() == Unrestricted
      ensures Rendered() && cards == jobs && (noResults <==> jobs == [])
    {
      this.jobs := jobs;
      this.chipTypes := chipTypes;
      chipActive := new bool[|initiallyActive|](i requires 0 <= i < |initiallyActive| => initiallyActive[i]);
      activeType, location, keyword := AnyType, "", "";
      new;
      Render();
      UnrestrictedListsAll(jobs, Unrestricted);
    }

    /**
     * `renderJobs`: empties the container, filters the jobs, and either shows
     * the indicator or hides it and appends one card per filtered job.
     */
    method Render()
      modifies this`cards, this`noResults
      ensures cards == Filter(jobs, Filters())
      ensures noResults <==> Filter(jobs, Filters()) == []
    {
      cards := [];
      var filtered := Filter(jobs, Filters());
      if |filtered| == 0 {
        noResults := true;
        return;
      }
      noResults := false;
      var i := 0;
      while i < |filtered|
        invariant 0 <= i <= |filtered|
        invariant cards == filtered[..i]
        invariant !noResults
      {
        assert filtered[..i + 1] == filtered[..i] + [filtered[i]];
        cards := cards + [filtered[i]];
        i := i + 1;
      }
      assert filtered[..i] == filtered;
    }

    /** Rendering twice in a row without any input in between leaves the same cards and indicator as rendering once. */
    method RenderTwice() returns (firstCards: seq<Job>, firstNoResults: bool)
      modifies this`cards, this`noResults
      ensures Rendered()
      ensures cards == firstCards && noResults == firstNoResults
    {
      Render();
      firstCards, firstNoResults := cards, noResults;
      Render();
    }

    /** Typing into the keyword input changes its value and nothing else; no rendering happens. */
    method TypeKeyword(text: string)
      modifies this`keyword
      ensures keyword == text
    {
      keyword := text;
    }

    /** Choosing an option of the location select changes its value and nothing else. */
    method ChooseLocation(value: string)
      modifies this`location
      ensures location == value
    {
      location := value;
    }

    /** The search button: re-renders with the current inputs. */
    method Search()
      modifies this`cards, this`noResults
      ensures Rendered()
    {
      Render();
    }

    /** A key pressed in the keyword input: only Enter re-renders. */
    method KeyDown(key: string)
      modifies this`cards, this`noResults
      ensures key == "Enter" ==> Rendered()
      ensures key != "Enter" ==> cards == old(cards) && noResults == old(noResults)
    {
      if key == "Enter" {
        Render();
      }
    }

    /**
     * Clicking the chip at `k`: every chip loses `active`, the clicked one
     * gains it, `activeType` takes its `data-type`, and the jobs are re-rendered.
     */
    method SelectChip(k: int)
      requires Valid() && 0 <= k < chipActive.Length
      modifies chipActive, this`activeType, this`cards, this`noResults
      ensures Valid()
      ensures OnlyActive(k)
      ensures activeType == chipTypes[k]
      ensures location == old(location) && keyword == old(keyword)
      ensures Rendered()
    {
      var i := 0;
      while i < chipActive.Length
        invariant 0 <= i <= chipActive.Length
        invariant forall j :: 0 <= j < i ==> !chipActive[j]
      {
        chipActive[i] := false;
        i := i + 1;
      }
      chipActive[k] := true;
      activeType := chipTypes[k];
      Render();
    }
  }
}
