/** The paginated timestamp picker of interface/cli.py
    (`display_timestamps_paginated`) and the part of the CLI's `create_job`
    that turns one or two picks into a temporal extent. The keyboard is a
    sequence of commands; a command's numeric prompt is the sequence of
    numbers typed at it, of which click keeps the first one in range (it
    asks again after each out-of-range entry). Running out of input ends the
    prompt, as click's `Abort` does. */
module Pagination {
  import opened Results

  // ---------------------------------------------------------------------
  // Pages and windows

  /** `(len + page_size - 1) // page_size`: the number of pages. */
  function TotalPages(n: nat, pageSize: nat): (total: nat)
    requires pageSize > 0
    ensures total * pageSize >= n
    ensures total == 0 || (total - 1) * pageSize < n
  {
    var total := (n + pageSize - 1) / pageSize;
    CeilingBounds(n, pageSize, total);
    total
  }

  lemma CeilingBounds(n: nat, pageSize: nat, total: nat)
    requires pageSize > 0 && total == (n + pageSize - 1) / pageSize
    ensures total * pageSize >= n
    ensures total == 0 || (total - 1) * pageSize < n
  {
    var r := (n + pageSize - 1) % pageSize;
    assert n + pageSize - 1 == total * pageSize + r;
    assert (total - 1) * pageSize == total * pageSize - pageSize;
  }

  /** There is a page exactly when there is something to show. */
  lemma TotalPagesPositive(n: nat, pageSize: nat)
    requires pageSize > 0
    ensures TotalPages(n, pageSize) >= 1 <==> n >= 1
  {
  }

  /** The pages the picker can be on: 1 to the page count (page 1 of an
      empty list is where it starts). */
  predicate PageInRange(n: nat, pageSize: nat, page: int)
    requires pageSize > 0
  {
    1 <= page && (page <= TotalPages(n, pageSize) || page == 1)
  }

  /** One screen: the page and the slice `[start, end)` it lists. */
  datatype Window = Window(page: nat, start: nat, end: nat)

  function Min(a: int, b: int): int {
    if a < b then a else b
  }

  /** The slice a page shows. */
  function WindowOf(n: nat, pageSize: nat, page: nat): (w: Window)
    requires pageSize > 0 && page >= 1
    ensures w.page == page && w.start == (page - 1) * pageSize
  {
    var start := (page - 1) * pageSize;
    Window(page, start, Min(start + pageSize, n))
  }

  /** A window within the list, at most a page long, and not empty when
      the list is not. */
  predicate ValidWindow(n: nat, pageSize: nat, w: Window) {
    w.start <= w.end <= n && w.end - w.start <= pageSize && (n > 0 ==> w.start < w.end)
  }

  /** Every page in range shows a valid window. */
  lemma WindowInRange(n: nat, pageSize: nat, page: nat)
    requires pageSize > 0 && PageInRange(n, pageSize, page)
    ensures ValidWindow(n, pageSize, WindowOf(n, pageSize, page))
  {
    var total := TotalPages(n, pageSize);
    if n > 0 && page > 1 {
      MultiplyMonotone(page - 1, total - 1, pageSize);
    }
  }

  /** Every timestamp is on a page: index `i` is listed on page
      `i // page_size + 1`, which is in range. */
  lemma {:induction false} IndexOnPage(n: nat, pageSize: nat, i: nat)
    requires pageSize > 0 && i < n
    ensures PageInRange(n, pageSize, i / pageSize + 1)
    ensures var w := WindowOf(n, pageSize, i / pageSize + 1);
            w.start <= i < w.end
  {
    var p := i / pageSize + 1;
    var t := TotalPages(n, pageSize);
    assert (p - 1) * pageSize <= i < (p - 1) * pageSize + pageSize;
    if p > t {
      MultiplyMonotone(t, p - 1, pageSize);
    }
  }

  /** A page before the last shows exactly `page_size` timestamps, and the
      last page shows the ones left up to the end of the list. */
  lemma {:induction false} PageLength(n: nat, pageSize: nat, page: nat)
    requires pageSize > 0 && 1 <= page <= TotalPages(n, pageSize)
    ensures var w := WindowOf(n, pageSize, page);
            && (page < TotalPages(n, pageSize) ==> w.end - w.start == pageSize)
            && (page == TotalPages(n, pageSize) ==> w.end == n)
  {
    var t := TotalPages(n, pageSize);
    if page < t {
      MultiplyMonotone(page, t - 1, pageSize);
    }
  }

  lemma MultiplyMonotone(a: nat, b: nat, k: nat)
    requires a <= b
    ensures a * k <= b * k
  {
  }

  /** The numbered lines of a window: `enumerate(ts[start:end], start + 1)`. */
  function Listing<T>(ts: seq<T>, w: Window): (lines: seq<(nat, T)>)
    requires w.start <= w.end <= |ts|
    ensures |lines| == w.end - w.start
    ensures forall k | 0 <= k < |lines| :: lines[k] == (w.start + 1 + k, ts[w.start + k])
  {
    seq(w.end - w.start, k requires 0 <= k < w.end - w.start => (w.start + 1 + k, ts[w.start + k]))
  }

  /** Choosing the number a line is listed under picks that line: the
      numbers of `s` and of the listing agree. */
  lemma ListingNumbersSelect<T>(ts: seq<T>, w: Window, k: nat)
    requires w.start <= w.end <= |ts| && k < w.end - w.start
    ensures 1 <= Listing(ts, w)[k].0 <= |ts|
    ensures ts[Listing(ts, w)[k].0 - 1] == Listing(ts, w)[k].1
  {
  }

  // ---------------------------------------------------------------------
  // The picker

  /** One answer to the navigation prompt, with what was typed at the
      number prompt that follows `g` and `s`. */
  datatype Command = Next | Previous | GoTo(entries: seq<int>) | Select(entries: seq<int>) | Quit

  /** How the picker ends: a 0-based index, `q`, or the input running out. */
  datatype Outcome = Selected(index: nat) | Cancelled | InputEnded

  /** The number click's `IntRange(lo, hi)` prompt accepts: the first entry
      in range. */
  function FirstInRange(entries: seq<int>, lo: int, hi: int): (r: Option<int>)
    ensures r.Some? ==> lo <= r.value <= hi
    ensures r.Some? ==> exists k | 0 <= k < |entries| :: entries[k] == r.value &&
                          forall j | 0 <= j < k :: !(lo <= entries[j] <= hi)
    ensures r.None? <==> forall k | 0 <= k < |entries| :: !(lo <= entries[k] <= hi)
  {
    if entries == [] then None
    else if lo <= entries[0] <= hi then Some(entries[0])
    else
      var r := FirstInRange(entries[1..], lo, hi);
      assert r.Some? ==> entries[1..][0..] == entries[1..];
      r
  }

  /** What one command does on `page`: move to a page, or end the picker. */
  datatype Move = Stay(page: nat) | Stop(outcome: Outcome)

  /** One round of the picker: `n` and `p` stop at the last and the first
      page, `g` goes to the page typed, `s` selects the line typed and `q`
      quits. */
  function Step(n: nat, pageSize: nat, page: nat, command: Command): (m: Move)
    requires pageSize > 0 && page >= 1
    ensures m.Stay? ==> m.page >= 1
    ensures m.Stay? && PageInRange(n, pageSize, page) ==> PageInRange(n, pageSize, m.page)
    ensures m.Stop? && m.outcome.Selected? ==> m.outcome.index < n
  {
    var total := TotalPages(n, pageSize);
    match command
    case Next => Stay(if page < total then page + 1 else page)
    case Previous => Stay(if page > 1 then page - 1 else page)
    case GoTo(entries) =>
      (match FirstInRange(entries, 1, total)
       case None => Stop(InputEnded)
       case Some(p) => Stay(p))
    case Select(entries) =>
      (match FirstInRange(entries, 1, n)
       case None => Stop(InputEnded)
       case Some(i) => Stop(Selected(i - 1)))
    case Quit => Stop(Cancelled)
  }

  /** The picker from `page` on, given the rest of the input: how it ends
      and the windows it shows, one per prompt. */
  function Run(n: nat, pageSize: nat, page: nat, commands: seq<Command>): (r: (Outcome, seq<Window>))
    requires pageSize > 0 && page >= 1
    ensures r.0.Selected? ==> r.0.index < n
    ensures |r.1| >= 1 && r.1[0] == WindowOf(n, pageSize, page)
    decreases |commands|
  {
    var w := WindowOf(n, pageSize, page);
    if commands == [] then (InputEnded, [w])
    else
      match Step(n, pageSize, page, commands[0])
      case Stop(o) => (o, [w])
      case Stay(p) =>
        var r := Run(n, pageSize, p, commands[1..]);
        (r.0, [w] + r.1)
  }

  /** A round that ends the picker is the last window shown. */
  lemma RunStops(n: nat, pageSize: nat, page: nat, commands: seq<Command>)
    requires pageSize > 0 && page >= 1 && commands != []
    requires Step(n, pageSize, page, commands[0]).Stop?
    ensures Run(n, pageSize, page, commands) ==
      (Step(n, pageSize, page, commands[0]).outcome, [WindowOf(n, pageSize, page)])
  {
  }

  /** Started on a page in range, the picker stays in range: every window
      it shows is valid. */
  lemma {:induction false} RunWindowsValid(n: nat, pageSize: nat, page: nat, commands: seq<Command>)
    requires pageSize > 0 && page >= 1 && PageInRange(n, pageSize, page)
    ensures var shown := Run(n, pageSize, page, commands).1;
      |shown| >= 1 && forall k | 0 <= k < |shown| ::
        PageInRange(n, pageSize, shown[k].page) && ValidWindow(n, pageSize, shown[k])
    decreases |commands|
  {
    WindowInRange(n, pageSize, page);
    if commands != [] && Step(n, pageSize, page, commands[0]).Stay? {
      RunWindowsValid(n, pageSize, Step(n, pageSize, page, commands[0]).page, commands[1..]);
    }
  }

  /** Only `s` selects, only `q` cancels: the outcome is decided by the
      first `s` or `q` (or the input running out). */
  lemma {:induction false} QuitCancels(n: nat, pageSize: nat, page: nat, moves: seq<Command>, after: seq<Command>)
    requires pageSize > 0 && page >= 1
    requires forall k | 0 <= k < |moves| :: moves[k] == Next || moves[k] == Previous
    ensures Run(n, pageSize, page, moves + [Quit] + after).0 == Cancelled
    decreases |moves|
  {
    if moves != [] {
      assert (moves + [Quit] + after)[1..] == moves[1..] + [Quit] + after;
      assert (moves + [Quit] + after)[0] == moves[0];
      QuitCancels(n, pageSize, Step(n, pageSize, page, moves[0]).page, moves[1..], after);
    } else {
      assert moves + [Quit] + after == [Quit] + after;
    }
  }

  /** `display_timestamps_paginated`: runs the picker on the input and
      returns how it ended together with the windows it showed. */
  method DisplayTimestampsPaginated<T>(timestamps: seq<T>, pageSize: nat, commands: seq<Command>)
    returns (outcome: Outcome, shown: seq<Window>)
    requires pageSize > 0
    ensures (outcome, shown) == Run(|timestamps|, pageSize, 1, commands)
    ensures outcome.Selected? ==> outcome.index < |timestamps|
    ensures forall k | 0 <= k < |shown| ::
      PageInRange(|timestamps|, pageSize, shown[k].page) && ValidWindow(|timestamps|, pageSize, shown[k])
  {
    var n := |timestamps|;
    var totalPages := (n + pageSize - 1) / pageSize;
    var currentPage := 1;
    var rest := commands;
    shown := [];
    RunWindowsValid(n, pageSize, 1, commands);
    while true
      invariant totalPages == TotalPages(n, pageSize)
      invariant currentPage >= 1
      invariant Run(n, pageSize, 1, commands).0 == Run(n, pageSize, currentPage, rest).0
      invariant Run(n, pageSize, 1, commands).1 == shown + Run(n, pageSize, currentPage, rest).1
      decreases |rest|
    {
      var startIdx := (currentPage - 1) * pageSize;
      var endIdx := Min(startIdx + pageSize, n);
      ghost var before, page0, rest0 := shown, currentPage, rest;
      assert Window(currentPage, startIdx, endIdx) == WindowOf(n, pageSize, currentPage);
      shown := shown + [Window(currentPage, startIdx, endIdx)];
      if rest == [] {
        outcome := InputEnded;
        return;
      }
      var choice := rest[0];
      ghost var move := Step(n, pageSize, currentPage, choice);
      rest := rest[1..];
      if choice == Next && currentPage < totalPages {
        currentPage := currentPage + 1;
      } else if choice == Previous && currentPage > 1 {
        currentPage := currentPage - 1;
      } else if choice.GoTo? {
        var page := FirstInRange(choice.entries, 1, totalPages);
        if page.None? {
          outcome := InputEnded;
          assert move == Stop(outcome);
          RunStops(n, pageSize, page0, rest0);
          return;
        }
        currentPage := page.value;
      } else if choice.Select? {
        var idx := FirstInRange(choice.entries, 1, n);
        if idx.None? {
          outcome := InputEnded;
          assert move == Stop(outcome);
          RunStops(n, pageSize, page0, rest0);
          return;
        }
        outcome := Selected(idx.value - 1);
        assert move == Stop(outcome);
        RunStops(n, pageSize, page0, rest0);
        return;
      } else if choice == Quit {
        outcome := Cancelled;
        assert move == Stop(outcome);
        RunStops(n, pageSize, page0, rest0);
        return;
      }
      assert move == Stay(currentPage);
      assert Run(n, pageSize, page0, rest0).1 == [WindowOf(n, pageSize, page0)] + Run(n, pageSize, currentPage, rest).1;
      assert shown + Run(n, pageSize, currentPage, rest).1 == before + Run(n, pageSize, page0, rest0).1;
    }
  }

  // ---------------------------------------------------------------------
  // The temporal extent of the CLI's create_job

  /** The two answers to `Zeitauswahl`: `1` picks one instant, `2` a range. */
  datatype Mode = SinglePoint | Range

  /** What the selection step of `create_job` ends with: an extent (with
      the indices it was taken from), an abort because the collection has
      no timestamps, or an abort of one of the pickers. */
  datatype Selection<T> =
    | Extent(startIndex: nat, endIndex: nat, extent: seq<T>)
    | NoTimestamps
    | Abandoned(outcome: Outcome)

  const PageSize := 20

  /** Picks the extent: in range mode the end is picked from the timestamps
      from the start on, and its index is rebased onto the full list. */
  method ChooseTemporalExtent<T>(timestamps: seq<T>, mode: Mode, first: seq<Command>, second: seq<Command>)
    returns (s: Selection<T>)
    ensures timestamps == [] <==> s == NoTimestamps
    ensures s.Extent? ==> s.startIndex <= s.endIndex < |timestamps|
    ensures s.Extent? ==> s.extent == [timestamps[s.startIndex], timestamps[s.endIndex]]
    ensures s.Extent? && mode == SinglePoint ==> s.startIndex == s.endIndex
    ensures timestamps != [] ==>
      var firstRun := Run(|timestamps|, PageSize, 1, first).0;
      (!firstRun.Selected? ==> s == Abandoned(firstRun)) &&
      (firstRun.Selected? && mode == SinglePoint ==> s == Extent(firstRun.index, firstRun.index,
                                                       [timestamps[firstRun.index], timestamps[firstRun.index]])) &&
      (firstRun.Selected? && mode == Range ==>
        var secondRun := Run(|timestamps| - firstRun.index, PageSize, 1, second).0;
        (!secondRun.Selected? ==> s == Abandoned(secondRun)) &&
        (secondRun.Selected? ==> s.Extent? && s.startIndex == firstRun.index &&
                                 s.endIndex == firstRun.index + secondRun.index))
  {
    if timestamps == [] {
      return NoTimestamps;
    }
    var idx, _ := DisplayTimestampsPaginated(timestamps, PageSize, first);
    if !idx.Selected? {
      return Abandoned(idx);
    }
    if mode == SinglePoint {
      return Extent(idx.index, idx.index, [timestamps[idx.index], timestamps[idx.index]]);
    }
    var startIdx := idx.index;
    var endTimestamps := timestamps[startIdx..];
    var endIdx, _ := DisplayTimestampsPaginated(endTimestamps, PageSize, second);
    if !endIdx.Selected? {
      return Abandoned(endIdx);
    }
    var end := startIdx + endIdx.index;
    return Extent(startIdx, end, [timestamps[startIdx], timestamps[end]]);
  }
}
