/** How each write changes what the disk holds, when records are numbered in order. */
module LogProofs {
  import opened Basics
  import opened Alerts
  import opened Framing
  import opened FramingProofs
  import opened Checkpoint
  import opened WalSpec
  import opened WalProofs
  import opened Pipeline
  import opened PipelineProofs
  import opened Durability

  lemma {:induction false} AboveOfSuffix(logged: seq<Record>, j: nat, k: u64)
    requires Numbered(logged) && j <= k <= |logged|
    ensures Above(logged[j..], k) == logged[k..]
    decreases |logged| - j
  {
    if j == |logged| {
      assert logged[k..] == [];
    } else {
      assert logged[j..][1..] == logged[j + 1..];
      if j == k {
        AboveOfSuffixAll(logged, j, k);
      } else {
        AboveOfSuffix(logged, j + 1, k);
      }
    }
  }

  lemma {:induction false} AboveOfSuffixAll(logged: seq<Record>, j: nat, k: u64)
    requires Numbered(logged) && k <= j <= |logged|
    ensures Above(logged[j..], k) == logged[j..]
    decreases |logged| - j
  {
    if j < |logged| {
      assert logged[j..][1..] == logged[j + 1..];
      AboveOfSuffixAll(logged, j + 1, k);
      assert logged[j..] == [logged[j]] + logged[j + 1..];
    }
  }

  lemma GreatestOfSuffix(logged: seq<Record>, j: nat)
    requires Numbered(logged) && j <= |logged|
    ensures Greatest(logged[j..]) == if j == |logged| then 0 else |logged|
  {
    var rs := logged[j..];
    if j < |logged| {
      assert rs[|rs| - 1].seqNo == |logged|;
      GreatestIs(rs, |logged|);
    } else {
      assert rs == [];
    }
  }

  /** A record of the suffix occurs in it once. */
  lemma {:induction false} CountOfSuffix(logged: seq<Record>, k: nat, x: Item)
    requires Numbered(logged) && k <= |logged|
    ensures Count(logged[k..], x) == if IsLogged(logged, x) && x.seqNo > k then 1 else 0
    decreases |logged| - k
  {
    if k < |logged| {
      CountOfTail(logged[k..], x);
      assert logged[k..][1..] == logged[k + 1..];
      CountOfSuffix(logged, k + 1, x);
    } else {
      assert logged[k..] == [];
    }
  }

  /** Everything past the durable checkpoint comes back, and nothing else. */
  lemma RecoveredAre(c: Codec, d: Disk, logged: seq<Record>, j: nat)
    requires Numbered(logged) && HoldsFrom(c, d, logged, j)
    ensures var k := DurableCheckpoint(d).value;
      Recovered(c, d) == Some(Recovery(if j == |logged| then 0 else |logged|, k, logged[k..]))
  {
    AboveOfSuffix(logged, j, DurableCheckpoint(d).value);
    GreatestOfSuffix(logged, j);
  }

  // ---- Writing ----

  lemma AppendedWhole(c: Codec, d: Disk, logged: seq<Record>, j: nat, r: Record)
    requires RoundTrips(c) && TailClean(c, d) && Encodable(c, r) && HoldsFrom(c, d, logged, j)
    ensures HoldsFrom(c, Extend(d, FrameOf(c, r)), logged + [r], j)
    ensures TailClean(c, Extend(d, FrameOf(c, r)))
  {
    hide Parse, Log, FrameOf, Encodable, ScanUint64, RoundTrips;
    ParseAfterClean(c, LogBytes(d), FrameOf(c, r));
    LogOfOne(c, r);
    ParseOfLog(c, [r]);
    assert (logged + [r])[j..] == logged[j..] + [r];
  }

  /** A torn frame adds nothing that can be read. */
  lemma AppendedInPart(c: Codec, d: Disk, logged: seq<Record>, j: nat, r: Record, k: nat)
    requires RoundTrips(c) && TailClean(c, d) && Encodable(c, r) && k < |FrameOf(c, r)|
    requires HoldsFrom(c, d, logged, j)
    ensures HoldsFrom(c, Extend(d, FrameOf(c, r)[..k]), logged, j)
  {
    ParseAfterClean(c, LogBytes(d), FrameOf(c, r)[..k]);
    ReadFrameOfCut(c, r, k);
  }

  lemma Checkpointed(c: Codec, d: Disk, logged: seq<Record>, j: nat, k: u64)
    requires HoldsFrom(c, d, logged, j) && DurableCheckpoint(d).value <= k <= |logged|
    ensures var e := d.(ckpt := Some(Decimal(k)));
      HoldsFrom(c, e, logged, j) && DurableCheckpoint(e) == Some(k)
  {
    CheckpointRoundTrip(k);
  }

  lemma CompactedLog(c: Codec, t: State, logged: seq<Record>, j: nat, io: CompactIo)
    requires RoundTrips(c) && Numbered(logged) && HoldsFrom(c, t.disk, logged, j)
    requires DurableCheckpoint(t.disk) == Some(t.mem.checkpoint)
    ensures var e := DiskAfterCompact(c, t, io);
      && DurableCheckpoint(e) == DurableCheckpoint(t.disk)
      && HoldsFrom(c, e, logged, if CompactionSwaps(c, t, io) then t.mem.checkpoint else j)
  {
    if CompactionSwaps(c, t, io) {
      AboveOfSuffix(logged, j, t.mem.checkpoint);
      CompactionCleansTail(c, t, io);
    }
  }

  /** A whole acknowledgement keeps on disk all that lies above the new durable checkpoint. */
  lemma AckKeepsDisk(c: Codec, t: State, seqs: set<u64>, io: CkptIo, compactIo: CompactIo, logged: seq<Record>, j: nat)
    requires RoundTrips(c) && Numbered(logged) && HoldsFrom(c, t.disk, logged, j)
    requires DurableCheckpoint(t.disk).value <= t.mem.checkpoint
    requires Advance(t.mem, seqs).checkpoint <= |logged|
    ensures var u := WalSpec.Ack(c, t, seqs, io, compactIo);
      && (exists i: nat :: HoldsFrom(c, u.disk, logged, i))
      && u.mem.checkpoint == Advance(t.mem, seqs).checkpoint && u.mem.acked == Advance(t.mem, seqs).acked
      && u.mem.seqNo == t.mem.seqNo
      && DurableCheckpoint(u.disk) ==
         if u.mem.checkpoint == t.mem.checkpoint || !io.CkptWritten? then DurableCheckpoint(t.disk)
         else Some(u.mem.checkpoint)
  {
    var m := Advance(t.mem, seqs);
    if m.checkpoint == t.mem.checkpoint || !io.CkptWritten? {
      assert HoldsFrom(c, WalSpec.Ack(c, t, seqs, io, compactIo).disk, logged, j);
    } else {
      Checkpointed(c, t.disk, logged, j, m.checkpoint);
      var written := State(t.disk.(ckpt := Some(Decimal(m.checkpoint))), m);
      CompactedLog(c, written, logged, j, compactIo);
      var swaps := m.size > COMPACT_BYTES && CompactionSwaps(c, written, compactIo);
      assert HoldsFrom(c, WalSpec.Ack(c, t, seqs, io, compactIo).disk, logged, if swaps then m.checkpoint else j);
    }
  }
}
