/**
 The timestamp rule of the dashboard snapshot (scripts/generate_repo_dashboard_snapshot.py, `write_snapshot`)
 and what it means for the freshness gate of the publish loop. Times are whole seconds.
 */
module SnapshotClock {
  import opened Wrappers
  import PublishLoop

  /** A timestamp field: a parsed time, or text `strptime` refuses. */
  datatype Stamp = At(time: int) | Unparsed(text: string)

  datatype Snapshot = Snapshot(generatedAt: Stamp, freshnessTimestamp: Stamp, body: string)

  /** What the previous write left: no file, one that is not a JSON object or has no stamp, or a stamp. */
  datatype Previous = NoStamp | Previous(stamp: Stamp)

  /** `build_snapshot` stamps both fields with one clock reading. */
  function Built(clock: int, body: string): Snapshot {
    Snapshot(At(clock), At(clock), body)
  }

  /** The snapshot as written over a file with the given previous stamp. */
  function Adjusted(previous: Previous, s: Snapshot): Snapshot {
    if previous.Previous? && previous.stamp.At? && s.generatedAt.At? && s.generatedAt.time <= previous.stamp.time then
      var next := At(previous.stamp.time + 1);
      s.(generatedAt := next, freshnessTimestamp := next)
    else s
  }

  class SnapshotFile {
    var content: Option<Snapshot>      // None: no file, or one that does not parse

    constructor (initial: Option<Snapshot>)
      ensures content == initial
    {
      content := initial;
    }

    function LastStamp(): Previous
      reads this
    {
      match content
      case None => NoStamp
      case Some(s) => Previous(s.generatedAt)
    }

    /** `write_snapshot`: overwrite the file, moving the snapshot's stamps past the previous one if they are not. */
    method WriteSnapshot(snapshot: Snapshot) returns (written: Snapshot)
      modifies this
      ensures written == Adjusted(old(LastStamp()), snapshot)
      ensures content == Some(written)
    {
      written := snapshot;
      var previous := LastStamp();
      if previous.Previous? && previous.stamp.At? && written.generatedAt.At? {
        var current := written.generatedAt.time;
        if current <= previous.stamp.time {
          current := previous.stamp.time + 1;
          written := written.(generatedAt := At(current));
          written := written.(freshnessTimestamp := written.generatedAt);
        }
      }
      content := Some(written);
    }

    /** A series of built snapshots, one after the other. */
    method WriteAll(clocks: seq<int>, body: string)
      requires content.Some? && content.value.generatedAt.At?
      modifies this
      ensures content.Some? && content.value.generatedAt == At(StampAfter(old(content.value.generatedAt.time), clocks))
      ensures clocks != [] ==> content.value.freshnessTimestamp == content.value.generatedAt
    {
      for i := 0 to |clocks|
        invariant content.Some?
            && content.value.generatedAt == At(StampAfter(old(content.value.generatedAt.time), clocks[..i]))
        invariant i > 0 ==> content.value.freshnessTimestamp == content.value.generatedAt
      {
        assert clocks[..i + 1][..i] == clocks[..i];
        var _ := WriteSnapshot(Built(clocks[i], body));
      }
      assert clocks[..|clocks|] == clocks;
    }
  }

  /** The stamp on file after writes at the given clock readings, from a stamp on file. */
  function StampAfter(start: int, clocks: seq<int>): int {
    if clocks == [] then start
    else
      var last, clock := StampAfter(start, clocks[..|clocks| - 1]), clocks[|clocks| - 1];
      if clock <= last then last + 1 else clock
  }

  /** After n writes the stamp is the largest of start + n and, for each reading, that reading plus the number of later
      writes. */
  lemma {:induction false} StampClosedForm(start: int, clocks: seq<int>)
    ensures var n, t := |clocks|, StampAfter(start, clocks);
            && t >= start + n
            && (forall i :: 0 <= i < n ==> t >= clocks[i] + (n - 1 - i))
            && (t == start + n || exists i :: 0 <= i < n && t == clocks[i] + (n - 1 - i))
  {
    if clocks != [] {
      var init, n := clocks[..|clocks| - 1], |clocks|;
      StampClosedForm(start, init);
      var last, t := StampAfter(start, init), StampAfter(start, clocks);
      assert forall i :: 0 <= i < n - 1 ==> init[i] == clocks[i];
      if clocks[n - 1] <= last {
        if last != start + n - 1 {
          var i :| 0 <= i < n - 1 && last == init[i] + (n - 2 - i);
          assert t == clocks[i] + (n - 1 - i);
        }
      } else {
        assert t == clocks[n - 1] + (n - 1 - (n - 1));
      }
    }
  }

  /** Over any writes the stamp strictly increases. */
  lemma {:induction false} StampsIncrease(start: int, clocks: seq<int>, i: nat, j: nat)
    requires i < j <= |clocks|
    ensures StampAfter(start, clocks[..i]) < StampAfter(start, clocks[..j])
    decreases j
  {
    assert clocks[..j][..j - 1] == clocks[..j - 1];
    if i < j - 1 { StampsIncrease(start, clocks, i, j - 1); }
  }

  /** The stamp never runs behind the last clock reading, so the publish loop calls a snapshot stale only once more than
      the threshold has passed since its own write; and it does so as soon as that much has passed since the stamp. */
  lemma StaleOnlyAfterThreshold(
      codec: PublishLoop.Codec, contract: PublishLoop.FreshnessContract, stamp: string, now: int, start: int,
      clocks: seq<int>)
    requires clocks != [] && codec.parseTime(stamp) == Some(StampAfter(start, clocks))
    requires contract.threshold.Some? && contract.version.Some? && contract.threshold.value >= 0
    ensures var f := PublishLoop.EvaluateFreshness(codec, contract, stamp, now);
            && f.Some?
            && (f.value.stale ==> now - clocks[|clocks| - 1] > contract.threshold.value)
            && (f.value.stale <==> now - StampAfter(start, clocks) > contract.threshold.value)
  {
    StampClosedForm(start, clocks);
    var last := |clocks| - 1;
    assert StampAfter(start, clocks) >= clocks[last] + (|clocks| - 1 - last);
  }
}
