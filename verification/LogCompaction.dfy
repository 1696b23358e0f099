/** A compacted log behaves, above its dummy, like the whole log it stands for. */
module LogCompaction {
  import opened RaftTypes
  import opened RaftLog

  /** `l` is what is left of the whole log `f` after dropping the prefix `snapshot`. */
  ghost predicate Compacts(f: Log, snapshot: Log, l: Log) {
    && Joined(snapshot, l)
    && f == Full(snapshot, l)
    && LogShape(f) && f[0].index == 0
  }

  /** Same last index; same entries above the dummy, same term at the dummy. */
  lemma SameEntries(f: Log, snapshot: Log, l: Log, i: nat)
    requires Compacts(f, snapshot, l) && InLog(l, i)
    ensures LastIndex(f) == LastIndex(l) && InLog(f, i)
    ensures GetEntry(f, i).term == GetEntry(l, i).term && (i > DummyIndex(l) ==> GetEntry(f, i) == GetEntry(l, i))
  {
    assert f[LastIndex(l)] == f[|f| - 1];
  }

  lemma SameSlices(f: Log, snapshot: Log, l: Log, lo: nat, hi: nat)
    requires Compacts(f, snapshot, l) && DummyIndex(l) < lo <= hi <= LastIndex(l) + 1
    ensures |f| == LastIndex(l) + 1
    ensures f[lo..hi] == l[lo - DummyIndex(l)..hi - DummyIndex(l)]
  {
  }

  lemma SameMatch(f: Log, snapshot: Log, l: Log, term: nat, i: nat)
    requires Compacts(f, snapshot, l) && i >= DummyIndex(l)
    ensures MatchLog(f, term, i) <==> MatchLog(l, term, i)
  {
    SameEntries(f, snapshot, l, LastIndex(l));
    if i <= LastIndex(l) {
      SameEntries(f, snapshot, l, i);
    }
  }

  /** Votes are decided alike, even when everything is compacted. */
  lemma SameUpToDate(f: Log, snapshot: Log, l: Log, term: nat, index: nat)
    requires Compacts(f, snapshot, l)
    ensures IsLogUpToDate(f, term, index) <==> IsLogUpToDate(l, term, index)
  {
    SameEntries(f, snapshot, l, LastIndex(l));
  }

  /** The test on a compacted log decides whether the candidate's log is at least as up-to-date as the whole log. */
  lemma UpToDateExactly(f: Log, snapshot: Log, l: Log, w: Log)
    requires Compacts(f, snapshot, l) && |w| > 0
    ensures IsLogUpToDate(l, LastTerm(w), |w| - 1) <==> UpToDate(w, f)
  {
    SameEntries(f, snapshot, l, LastIndex(l));
  }

  /** Truncating or appending to either is the same operation. */
  lemma TruncCommutes(f: Log, snapshot: Log, l: Log, high: nat)
    requires Compacts(f, snapshot, l) && DummyIndex(l) < high <= LastIndex(l) + 1
    ensures |f| == LastIndex(l) + 1
    ensures Compacts(f[..high], snapshot, l[..high - DummyIndex(l)])
  {
    var l' := l[..high - DummyIndex(l)];
    assert l'[1..] == l[1..][..|l'| - 1];
  }

  lemma AppendCommutes(f: Log, snapshot: Log, l: Log, entries: Log)
    requires Compacts(f, snapshot, l) && Numbered(entries, LastIndex(l) + 1)
    ensures Compacts(f + entries, snapshot, l + entries)
  {
    hide LogShape, Numbered, Full;
    SameLast(f, snapshot, l);
    Numbering(f, snapshot, l);
    ShapeAppends(l, entries);
    ShapeAppends(f, entries);
    FullAppends(snapshot, l, entries);
  }

  lemma FullAppends(snapshot: Log, l: Log, entries: Log)
    requires |l| > 0
    ensures Full(snapshot, l + entries) == Full(snapshot, l) + entries
  {
    assert (l + entries)[1..] == l[1..] + entries;
  }

  lemma SameLast(f: Log, snapshot: Log, l: Log)
    requires Compacts(f, snapshot, l)
    ensures LastIndex(f) == LastIndex(l)
  {
    SameEntries(f, snapshot, l, LastIndex(l));
  }

  lemma ShapeAppends(l: Log, entries: Log)
    requires LogShape(l) && Numbered(entries, LastIndex(l) + 1)
    ensures LogShape(l + entries)
  {
    var r := l + entries;
    forall k | 0 <= k < |r|
      ensures r[k].index == r[0].index + k
    {
      if k >= |l| {
        assert r[k] == entries[k - |l|];
      }
    }
  }

  lemma {:induction false} SameFirstMissing(f: Log, snapshot: Log, l: Log, entries: Log, j: nat)
    requires Compacts(f, snapshot, l) && Continues(l, entries) && j <= |entries|
    ensures FirstMissing(f, entries, j) == FirstMissing(l, entries, j)
    decreases |entries| - j
  {
    if j < |entries| {
      SameEntries(f, snapshot, l, LastIndex(l));
      if InLog(l, entries[j].index) {
        SameEntries(f, snapshot, l, entries[j].index);
      }
      SameFirstMissing(f, snapshot, l, entries, j + 1);
    }
  }

  lemma Numbering(f: Log, snapshot: Log, l: Log)
    requires Compacts(f, snapshot, l)
    ensures LogShape(f) && LogShape(l) && |l| > 0 && |f| > 0 && DummyIndex(f) == 0 && |f| == LastIndex(l) + 1
  {
  }

  /** A follower merges a leader's entries alike. */
  lemma MergeCommutes(f: Log, snapshot: Log, l: Log, entries: Log)
    requires Compacts(f, snapshot, l) && Continues(l, entries)
    ensures Continues(f, entries) && Compacts(Merge(f, entries), snapshot, Merge(l, entries))
  {
    hide FirstMissing, Present, Compacts;
    SameLast(f, snapshot, l);
    Numbering(f, snapshot, l);
    SameFirstMissing(f, snapshot, l, entries, 0);
    var j := FirstMissing(l, entries, 0);
    if j < |entries| {
      MissingInReach(l, entries, j);
      TruncCommutes(f, snapshot, l, entries[j].index);
      AppendCommutes(f[..entries[j].index], snapshot, l[..entries[j].index - DummyIndex(l)], entries[j..]);
    }
  }

  /** Compacting further changes the representation, not the log. */
  lemma CompactionKeeps(f: Log, snapshot: Log, l: Log, index: nat)
    requires Compacts(f, snapshot, l) && DummyIndex(l) < index <= LastIndex(l)
    ensures |f| == LastIndex(l) + 1
    ensures var kept := l[index - DummyIndex(l)..];
      Compacts(f, f[..index + 1], kept[0 := kept[0].(command := NoCommand)])
  {
    var kept := l[index - DummyIndex(l)..];
    var l' := kept[0 := kept[0].(command := NoCommand)];
    assert l'[1..] == l[index + 1 - DummyIndex(l)..];
    assert f == f[..index + 1] + l'[1..];
  }
}
