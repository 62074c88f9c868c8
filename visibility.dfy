/** The "most visible section" scan shared by the background manager and the
    section spotlight: both walk a batch of intersection observations and
    keep the first entry whose ratio is strictly greater than every ratio
    seen before it, starting from a maximum of 0. */
module Visibility {
  import opened Wrappers

  /** The bounding client rectangle of an observed section. */
  datatype Rect = Rect(left: real, top: real, width: real, height: real)

  /** One intersection observation: the section's element id, the visible
      fraction and the rectangle. */
  datatype Entry = Entry(id: string, ratio: real, rect: Rect)

  /** The running maximum after the whole batch, starting from 0. */
  function MaxRatio(entries: seq<Entry>): (m: real)
    ensures m >= 0.0
    ensures forall i :: 0 <= i < |entries| ==> entries[i].ratio <= m
    decreases |entries|
  {
    if entries == [] then 0.0
    else
      var prev := MaxRatio(entries[..|entries| - 1]);
      var last := entries[|entries| - 1].ratio;
      assert forall i :: 0 <= i < |entries| - 1 ==> entries[i] == entries[..|entries| - 1][i];
      if last > prev then last else prev
  }

  /** The index the scan keeps: the last entry that raised the maximum. */
  function Winner(entries: seq<Entry>): (w: Option<nat>)
    ensures w.Some? ==> w.value < |entries|
    decreases |entries|
  {
    if entries == [] then None
    else if entries[|entries| - 1].ratio > MaxRatio(entries[..|entries| - 1]) then Some(|entries| - 1)
    else Winner(entries[..|entries| - 1])
  }

  /** The kept entry is the FIRST entry holding the batch maximum; there is
      none exactly when no ratio is positive, and then the maximum is 0. */
  lemma {:induction false} WinnerIsFirstMaximum(entries: seq<Entry>)
    ensures Winner(entries).None? <==> forall i :: 0 <= i < |entries| ==> entries[i].ratio <= 0.0
    ensures Winner(entries).None? ==> MaxRatio(entries) == 0.0
    ensures Winner(entries).Some? ==>
      var k := Winner(entries).value;
      entries[k].ratio == MaxRatio(entries) > 0.0
      && forall i :: 0 <= i < k ==> entries[i].ratio < MaxRatio(entries)
    decreases |entries|
  {
    if entries != [] {
      var prefix := entries[..|entries| - 1];
      WinnerIsFirstMaximum(prefix);
      assert forall i :: 0 <= i < |prefix| ==> prefix[i] == entries[i];
    }
  }

  /** Among tied maxima, a later entry never wins. */
  lemma TieGoesToFirst(entries: seq<Entry>, i: nat, j: nat)
    requires i < j < |entries|
    requires entries[i].ratio == entries[j].ratio
    ensures Winner(entries) != Some(j)
  {
    WinnerIsFirstMaximum(entries);
  }

  /** The scan as the components run it: one pass, strict `>`, starting
      from a maximum of 0 and no entry. */
  method MostVisible(entries: seq<Entry>) returns (maxRatio: real, best: Option<nat>)
    ensures maxRatio == MaxRatio(entries)
    ensures best == Winner(entries)
    ensures best.Some? ==> best.value < |entries| && entries[best.value].ratio == maxRatio > 0.0
    ensures best.None? <==> forall i :: 0 <= i < |entries| ==> entries[i].ratio <= 0.0
  {
    maxRatio := 0.0;
    best := None;
    var i := 0;
    while i < |entries|
      invariant 0 <= i <= |entries|
      invariant maxRatio == MaxRatio(entries[..i])
      invariant best == Winner(entries[..i])
    {
      assert entries[..i + 1][..i] == entries[..i];
      if entries[i].ratio > maxRatio {
        maxRatio := entries[i].ratio;
        best := Some(i);
      }
      i := i + 1;
    }
    assert entries[..|entries|] == entries;
    WinnerIsFirstMaximum(entries);
  }
}
