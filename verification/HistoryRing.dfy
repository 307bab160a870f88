/** The per-station history ring against the unbounded reception log (simulation/observation.go). */
module HistoryRing {
  import opened Basics
  import opened Model
  import opened Engine

  ghost predicate RingValid(rc: Receiver) {
    && |rc.history| <= HISTORY_LIMIT
    && (|rc.history| < HISTORY_LIMIT ==> rc.oldest == 0)
    && (rc.history != [] ==> rc.oldest < |rc.history|)
  }

  /** at: index i counted from the oldest slot, around the ring. */
  function At(rc: Receiver, i: nat): Reception
    requires i < |rc.history|
  {
    rc.history[(rc.oldest + i) % |rc.history|]
  }

  /** The retained records, oldest first. */
  function Retained(rc: Receiver): (log: seq<Reception>)
    ensures |log| == |rc.history|
  {
    seq(|rc.history|, i requires 0 <= i < |rc.history| => At(rc, i))
  }

  /** The ring holds exactly the newest HISTORY_LIMIT records of the log. */
  ghost predicate Retains(rc: Receiver, log: seq<Reception>) {
    RingValid(rc) && Retained(rc) == Newest(HISTORY_LIMIT, log)
  }

  lemma NothingRetained()
    ensures Retains(NewReceiver(), [])
  {
  }

  lemma PushedAt(rc: Receiver, r: Reception, i: nat)
    requires RingValid(rc) && |rc.history| == HISTORY_LIMIT && i < HISTORY_LIMIT
    ensures At(Push(rc, r), i) == if i < HISTORY_LIMIT - 1 then At(rc, i + 1) else r
  {
    Wrap(rc.oldest + 1, HISTORY_LIMIT);
    Wrap(Push(rc, r).oldest + i, HISTORY_LIMIT);
    if i < HISTORY_LIMIT - 1 {
      Wrap(rc.oldest + (i + 1), HISTORY_LIMIT);
    }
  }

  lemma PushFull(rc: Receiver, r: Reception)
    requires RingValid(rc) && |rc.history| == HISTORY_LIMIT
    ensures RingValid(Push(rc, r)) && Retained(Push(rc, r)) == Retained(rc)[1..] + [r]
  {
    var next := Push(rc, r);
    assert |next.history| == HISTORY_LIMIT;
    hide Push, At;
    forall i | 0 <= i < HISTORY_LIMIT
      ensures Retained(next)[i] == if i < HISTORY_LIMIT - 1 then Retained(rc)[i + 1] else r
    {
      PushedAt(rc, r, i);
    }
  }

  lemma PushPartial(rc: Receiver, r: Reception)
    requires RingValid(rc) && |rc.history| < HISTORY_LIMIT
    ensures RingValid(Push(rc, r)) && Retained(Push(rc, r)) == Retained(rc) + [r]
  {
    UnrotatedRing(rc);
    UnrotatedRing(Push(rc, r));
  }

  lemma UnrotatedRing(rc: Receiver)
    requires rc.oldest == 0
    ensures Retained(rc) == rc.history
  {
    forall i | 0 <= i < |rc.history|
      ensures At(rc, i) == rc.history[i]
    {
      Wrap(i, |rc.history|);
    }
  }

  /** Replacing the oldest record of a full ring drops it and appends the new one. */
  lemma PushRetains(rc: Receiver, log: seq<Reception>, r: Reception)
    requires Retains(rc, log)
    ensures Retains(Push(rc, r), log + [r])
  {
    NewestAppend(HISTORY_LIMIT, log, r);
    if |rc.history| < HISTORY_LIMIT {
      PushPartial(rc, r);
    } else {
      PushFull(rc, r);
    }
    hide Retained, Push, Newest, RingValid;
    assert |Newest(HISTORY_LIMIT, log)| == |rc.history|;
  }

  lemma RetainedAt(rc: Receiver, log: seq<Reception>, i: nat)
    requires Retains(rc, log) && i < |rc.history|
    ensures |rc.history| <= |log| && At(rc, i) == log[|log| - |rc.history| + i]
  {
    assert Retained(rc)[i] == Newest(HISTORY_LIMIT, log)[i];
  }

  /** A log whose record sequences count up from 1. */
  ghost predicate Contiguous(log: seq<Reception>) {
    forall i :: 0 <= i < |log| ==> log[i].sequence == i + 1
  }

  /** What a reader sees of the ring: record i is log record |log| - |history| + i, so its sequence is known. */
  lemma RetainedSequences(rc: Receiver, log: seq<Reception>)
    requires Retains(rc, log) && Contiguous(log)
    ensures |rc.history| == Min(HISTORY_LIMIT, |log|)
    ensures forall i :: 0 <= i < |rc.history| ==>
              At(rc, i) == log[|log| - |rc.history| + i] && At(rc, i).sequence == |log| - |rc.history| + i + 1
  {
    forall i | 0 <= i < |rc.history|
      ensures At(rc, i) == log[|log| - |rc.history| + i]
    {
      assert Retained(rc)[i] == Newest(HISTORY_LIMIT, log)[i];
    }
  }
}
