/**
 The log of one server.  Compaction drops a prefix, so entries are reached through an offset:
 the head entry is a dummy that remembers the index and term of the last dropped entry.
 */
module RaftLog {
  import opened RaftTypes

  /** Indices run without gap from the dummy's. */
  predicate LogShape(l: Log) {
    |l| > 0 && forall k :: 0 <= k < |l| ==> l[k].index == l[0].index + k
  }

  function DummyIndex(l: Log): nat
    requires |l| > 0
  {
    l[0].index
  }

  function LastIndex(l: Log): nat
    requires |l| > 0
  {
    l[|l| - 1].index
  }

  /** Index `i` can be converted and read without a panic. */
  predicate InLog(l: Log, i: int) {
    |l| > 0 && DummyIndex(l) <= i && i - DummyIndex(l) < |l|
  }

  function GetEntry(l: Log, i: int): Entry
    requires InLog(l, i)
  {
    l[i - DummyIndex(l)]
  }

  predicate MatchLog(l: Log, term: nat, index: nat)
    requires LogShape(l) && DummyIndex(l) <= index
  {
    index <= LastIndex(l) && term == GetEntry(l, index).term
  }

  predicate IsLogUpToDate(l: Log, requestLastTerm: nat, requestLastIndex: nat)
    requires |l| > 0
  {
    var mine := l[|l| - 1];
    requestLastTerm > mine.term || (mine.term == requestLastTerm && requestLastIndex >= mine.index)
  }

  /** Entries numbered one after another, starting at `first`. */
  predicate Numbered(entries: Log, first: nat) {
    forall k :: 0 <= k < |entries| ==> entries[k].index == first + k
  }

  /** The log holds an entry of the same index and term. */
  predicate Present(l: Log, e: Entry)
    requires |l| > 0
  {
    InLog(l, e.index) && GetEntry(l, e.index).term == e.term
  }

  /** The first position, from `j` on, of an entry that is not present. */
  function FirstMissing(l: Log, entries: Log, j: nat): (r: nat)
    requires |l| > 0 && j <= |entries|
    ensures j <= r <= |entries|
    ensures forall k :: j <= k < r ==> Present(l, entries[k])
    ensures r < |entries| ==> !Present(l, entries[r])
    decreases |entries| - j
  {
    if j < |entries| && Present(l, entries[j]) then FirstMissing(l, entries, j + 1) else j
  }

  /** The entries continue the log somewhere above its dummy. */
  predicate Continues(l: Log, entries: Log) {
    && LogShape(l)
    && (|entries| > 0 ==> Numbered(entries, entries[0].index) && DummyIndex(l) < entries[0].index <= LastIndex(l) + 1)
  }

  /** Cut the log at the first entry that is missing or has another term, and append the rest. */
  function Merge(l: Log, entries: Log): (r: Log)
    requires Continues(l, entries)
    ensures LogShape(r) && r[0] == l[0]
  {
    var j := FirstMissing(l, entries, 0);
    if j == |entries| then l
    else
      MissingInReach(l, entries, j);
      l[..entries[j].index - DummyIndex(l)] + entries[j..]
  }

  lemma MissingInReach(l: Log, entries: Log, j: nat)
    requires Continues(l, entries) && j < |entries|
    requires forall k :: 0 <= k < j ==> Present(l, entries[k])
    ensures DummyIndex(l) < entries[j].index <= LastIndex(l) + 1
  {
    if j > 0 {
      assert Present(l, entries[j - 1]);
    }
  }

  /** A merge leaves everything below the sent entries as it was. */
  lemma MergeKeepsBelow(l: Log, entries: Log, i: nat)
    requires Continues(l, entries) && InLog(l, i) && (entries == [] || i < entries[0].index)
    ensures InLog(Merge(l, entries), i) && GetEntry(Merge(l, entries), i) == GetEntry(l, i)
  {
    hide Present;
    var j := FirstMissing(l, entries, 0);
    if j < |entries| {
      MissingInReach(l, entries, j);
    }
  }

  /** It leaves every sent entry, by index and term, and those from the first missing one on exactly as sent. */
  lemma MergeHasSent(l: Log, entries: Log, k: nat)
    requires Continues(l, entries) && k < |entries|
    ensures Present(Merge(l, entries), entries[k])
    ensures FirstMissing(l, entries, 0) <= k ==> GetEntry(Merge(l, entries), entries[k].index) == entries[k]
  {
    hide FirstMissing;
    var j := FirstMissing(l, entries, 0);
    if j < |entries| {
      hide Present;
      MissingInReach(l, entries, j);
      var r, cut := Merge(l, entries), entries[j].index - DummyIndex(l);
      if j <= k {
        assert r[cut + k - j] == entries[k];
        HasIt(r, entries[k]);
      } else {
        assert r[cut + k - j] == l[cut + k - j];
        StillPresent(l, r, entries[k]);
      }
    }
  }

  lemma HasIt(l: Log, e: Entry)
    requires |l| > 0 && InLog(l, e.index) && GetEntry(l, e.index) == e
    ensures Present(l, e)
  {
  }

  lemma StillPresent(l: Log, r: Log, e: Entry)
    requires |l| > 0 && |r| > 0 && Present(l, e) && InLog(r, e.index) && GetEntry(r, e.index) == GetEntry(l, e.index)
    ensures Present(r, e)
  {
  }

  /** It leaves nothing behind the sent entries if one was missing, and changes nothing otherwise. */
  lemma MergeEnds(l: Log, entries: Log)
    requires Continues(l, entries)
    ensures if FirstMissing(l, entries, 0) == |entries| then Merge(l, entries) == l
            else LastIndex(Merge(l, entries)) == entries[|entries| - 1].index
  {
    hide Present;
  }

  /** The scan back over the entries of the conflicting term. */
  function ConflictFrom(l: Log, index: nat, term: nat): (r: nat)
    requires LogShape(l) && InLog(l, index)
    ensures r <= index && (index > DummyIndex(l) ==> r > DummyIndex(l)) && (index == DummyIndex(l) ==> r == index)
    decreases index
  {
    if index > DummyIndex(l) + 1 && GetEntry(l, index).term == term then ConflictFrom(l, index - 1, term) else index
  }

  /** The scan stops at the first entry above the dummy, or at the last one below `index` of another term. */
  lemma {:induction false} ConflictIs(l: Log, index: nat, term: nat)
    requires LogShape(l) && InLog(l, index) && index > DummyIndex(l)
    ensures var c := ConflictFrom(l, index, term);
      && DummyIndex(l) < c <= index
      && (forall k :: c < k <= index ==> GetEntry(l, k).term == term)
      && (c == DummyIndex(l) + 1 || GetEntry(l, c).term != term)
    decreases index
  {
    if index > DummyIndex(l) + 1 && GetEntry(l, index).term == term {
      ConflictIs(l, index - 1, term);
    }
  }

  /** The whole log: the prefix a snapshot stands for, then what the server still holds. */
  function Full(snapshot: Log, l: Log): Log
    requires |l| > 0
  {
    snapshot + l[1..]
  }

  /** The snapshot `snapshot` and the log `l` fit together. */
  predicate Joined(snapshot: Log, l: Log) {
    && LogShape(l)
    && |snapshot| == DummyIndex(l) + 1
    && snapshot[DummyIndex(l)].term == l[0].term
  }

  /** The log object a server updates in place. */
  class CompactedLog {
    var logs: Log

    constructor ()
      ensures logs == [Dummy]
    {
      logs := [Dummy];
    }

    method SetLogs(newLogs: Log)
      modifies this
      ensures logs == newLogs
    {
      logs := newLogs;
    }

    method ClearDummyEntryCommand()
      requires |logs| > 0
      modifies this
      ensures logs == old(logs)[0 := old(logs)[0].(command := NoCommand)]
    {
      logs := logs[0 := logs[0].(command := NoCommand)];
    }

    method SetDummy(index: nat, term: nat)
      requires |logs| > 0
      modifies this
      ensures logs == old(logs)[0 := Entry(index, term, old(logs)[0].command)]
    {
      logs := logs[0 := logs[0].(index := index)];
      logs := logs[0 := logs[0].(term := term)];
    }

    method AppendEntries(entries: Log)
      modifies this
      ensures logs == old(logs) + entries
    {
      logs := logs + entries;
    }

    method Trunc(high: nat)
      requires LogShape(logs) && DummyIndex(logs) <= high <= LastIndex(logs) + 1
      modifies this
      ensures logs == old(logs)[..high - DummyIndex(old(logs))]
    {
      logs := logs[..high - DummyIndex(logs)];
    }
  }
}
