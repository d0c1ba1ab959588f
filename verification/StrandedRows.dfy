/** Which outbox rows can still be published (state/postgres_event_store.py): a row is lost exactly when it is claimed by
    a worker that no longer has it in its batch. */
module StrandedRows {
  import opened Sequences
  import opened Envelopes
  import opened Delivery

  lemma StrandedSurvivesClaim(s: State, v: string, ids: seq<string>, w: string, id: string)
    requires ProducerInv(s) && Stranded(s, w, id)
    ensures Stranded(Do(s, Claim(v, ids)), w, id)
  {
    if WorkerOf(s, v).queue == [] && MayClaim(s, ids) {
      var t := DoClaim(s, v, ids);
      assert id !in ids;
      forall e | v == w && e in WorkerOf(t, w).queue
        ensures e.eventId != id
      {
        var k :| 0 <= k < |ids| && RowEvents(s.outbox, ids)[k] == e;
        assert e == s.outbox[ids[k]].event;
      }
    }
  }

  lemma StrandedSurvivesAppend(s: State, e: OperationalEvent, v: nat, w: string, id: string)
    requires Stranded(s, w, id)
    ensures Stranded(Do(s, Append(e, v)), w, id)
  {
  }

  lemma StrandedSurvivesWorker(s: State, step: Step, w: string, id: string)
    requires ProducerInv(s) && Stranded(s, w, id)
    requires step.Send? || step.MarkRaised? || step.WorkerCrash? || step.Foreign?
    ensures Stranded(Do(s, step), w, id)
  {
  }

  lemma StrandedIsAboutProducers(s: State, t: State, w: string, id: string)
    requires SameProducers(s, t) && Stranded(s, w, id)
    ensures Stranded(t, w, id)
  {
  }

  lemma StrandedStays(s: State, step: Step, w: string, id: string)
    requires ProducerInv(s) && Stranded(s, w, id)
    ensures Stranded(Do(s, step), w, id)
  {
    if ConsumerStep(step) {
      ConsumerStepTouchesNoProducer(s, step);
      StrandedIsAboutProducers(s, Do(s, step), w, id);
    } else {
      match step
      case Append(e, v) => StrandedSurvivesAppend(s, e, v, w, id);
      case MarkPublished(v) => StrandedSurvivesMark(s, step, v, w, id);
      case MarkFailed(v) => StrandedSurvivesMark(s, step, v, w, id);
      case Claim(v, ids) => StrandedSurvivesClaim(s, v, ids, w, id);
      case _ => StrandedSurvivesWorker(s, step, w, id);
    }
  }

  lemma StrandedSurvivesMark(s: State, step: Step, v: string, w: string, id: string)
    requires ProducerInv(s) && Stranded(s, w, id) && (step == MarkPublished(v) || step == MarkFailed(v))
    ensures Stranded(Do(s, step), w, id)
  {
    if WorkerOf(s, v).queue != [] {
      var e := WorkerOf(s, v).queue[0];
      ClaimsAreNeverStale(s, v);
      assert e.eventId != id;
      assert forall x :: x in WorkerOf(s, v).queue[1..] ==> x in WorkerOf(s, v).queue;
    }
  }

  lemma {:induction false} StrandedForever(s: State, steps: seq<Step>, w: string, id: string)
    requires ProducerInv(s) && ConsumerInv(s) && Stranded(s, w, id)
    ensures Stranded(Run(s, steps), w, id)
  {
    if steps != [] {
      var n := |steps| - 1;
      StrandedForever(s, steps[..n], w, id);
      RunOnKeepsInv(s, steps[..n]);
      StrandedStays(Run(s, steps[..n]), steps[n], w, id);
    }
  }

  /** A crash between claim and mark leaves the row unpublished in every continuation. */
  lemma CrashStrandsItsBatch(prefix: seq<Step>, w: string, e: OperationalEvent, rest: seq<Step>)
    requires e in WorkerOf(Run(INITIAL, prefix), w).queue
    ensures var t := Run(Do(Run(INITIAL, prefix), WorkerCrash(w)), rest);
      e.eventId in t.outbox && !t.outbox[e.eventId].published
  {
    var s := Run(INITIAL, prefix);
    RunKeepsInv(prefix);
    assert WorkerHoldsClaims(s, w, s.workers[w]);
    StepKeepsInv(s, WorkerCrash(w));
    StrandedForever(Do(s, WorkerCrash(w)), rest, w, e.eventId);
  }

  // ----- every other row can be published -----

  ghost predicate IsPublished(s: State, id: string) { id in s.outbox && s.outbox[id].published }

  ghost predicate CanBePublished(s: State, id: string) {
    exists rest :: IsPublished(Run(s, rest), id)
  }

  lemma StepTowardsPublishing(s: State, step: Step, id: string)
    requires CanBePublished(Do(s, step), id)
    ensures CanBePublished(s, id)
  {
    var rest :| IsPublished(Run(Do(s, step), rest), id);
    RunSingle(s, [step]);
    RunJoin(s, [step], rest);
    assert IsPublished(Run(s, [step] + rest), id);
  }

  lemma PublishedAlready(s: State, id: string)
    requires IsPublished(s, id)
    ensures CanBePublished(s, id)
  {
    assert Run(s, []) == s;
  }

  /** What one step does to the worker with the row. */
  lemma AfterClaim(s: State, w: string, id: string) returns (t: State)
    requires ProducerInv(s) && Claimable(s, id) && WorkerOf(s, w).queue == []
    ensures t == Do(s, Claim(w, [id])) && ProducerInv(t)
    ensures HasRow(t, w, id)
  {
    t := Do(s, Claim(w, [id]));
    assert MayClaim(s, [id]);
    ClaimKeeps(s, w, [id]);
    assert t.workers[w] == Worker(RowEvents(s.outbox, [id]), Ready);
    var queue := RowEvents(s.outbox, [id]);
    assert queue[0] == s.outbox[[id][0]].event;
    assert queue[0] in queue && queue[0].eventId == id;
  }

  /** The worker still has the row in its batch. */
  ghost predicate HasRow(s: State, w: string, id: string) {
    exists e :: e in WorkerOf(s, w).queue && e.eventId == id
  }

  lemma AfterSend(s: State, w: string, id: string) returns (t: State)
    requires ProducerInv(s) && HasRow(s, w, id) && WorkerOf(s, w).phase == Ready
    ensures t == Do(s, Send(w, 0, true, true)) && ProducerInv(t)
    ensures HasRow(t, w, id) && WorkerOf(t, w) == WorkerOf(s, w).(phase := Sent)
  {
    t := Do(s, Send(w, 0, true, true));
    SendKeeps(s, w, 0, true, true);
    assert WorkerOf(t, w).queue == WorkerOf(s, w).queue;
  }

  lemma MarkMovesOn(s: State, w: string)
    requires WorkerOf(s, w).queue != [] && WorkerOf(s, w).phase == Sent && HoldsClaim(s, w, WorkerOf(s, w).queue[0])
    ensures var t := DoMarkPublished(s, w);
      IsPublished(t, WorkerOf(s, w).queue[0].eventId) && WorkerOf(t, w) == Worker(WorkerOf(s, w).queue[1..], Ready)
  {
  }

  lemma ReleaseMovesOn(s: State, w: string)
    requires WorkerOf(s, w).queue != [] && WorkerOf(s, w).phase == Errored && HoldsClaim(s, w, WorkerOf(s, w).queue[0])
    ensures var t := DoMarkFailed(s, w);
      Claimable(t, WorkerOf(s, w).queue[0].eventId) && WorkerOf(t, w) == Worker(WorkerOf(s, w).queue[1..], Ready)
  {
  }

  lemma MarkDoesIt(s: State, w: string)
    ensures Do(s, MarkPublished(w)) == DoMarkPublished(s, w) && Do(s, MarkFailed(w)) == DoMarkFailed(s, w)
  {
  }

  lemma MarkFinds(s: State, w: string, id: string)
    requires HasRow(s, w, id) && WorkerOf(s, w).phase == Sent && HoldsClaim(s, w, WorkerOf(s, w).queue[0])
    ensures var t := DoMarkPublished(s, w);
      && (IsPublished(t, id) || HasRow(t, w, id))
      && WorkerOf(t, w) == Worker(WorkerOf(s, w).queue[1..], Ready)
  {
    MarkMovesOn(s, w);
    RowLeavesTheHead(s, w, id, DoMarkPublished(s, w));
  }

  lemma AfterMark(s: State, w: string, id: string) returns (t: State)
    requires ProducerInv(s) && HasRow(s, w, id) && WorkerOf(s, w).phase == Sent
    ensures t == Do(s, MarkPublished(w)) && ProducerInv(t)
    ensures IsPublished(t, id) || HasRow(t, w, id)
    ensures WorkerOf(t, w) == Worker(WorkerOf(s, w).queue[1..], Ready)
  {
    t := DoMarkPublished(s, w);
    MarkDoesIt(s, w);
    MarkPublishedKeeps(s, w);
    ClaimsAreNeverStale(s, w);
    MarkFinds(s, w, id);
  }

  lemma RowLeavesTheHead(s: State, w: string, id: string, t: State)
    requires HasRow(s, w, id) && WorkerOf(t, w).queue == WorkerOf(s, w).queue[1..]
    ensures WorkerOf(s, w).queue[0].eventId == id || HasRow(t, w, id)
  {
    var queue := WorkerOf(s, w).queue;
    var k :| 0 <= k < |queue| && queue[k].eventId == id;
    if k > 0 {
      assert queue[1..][k - 1] == queue[k];
      assert queue[k] in WorkerOf(t, w).queue;
    }
  }

  lemma ReleaseFinds(s: State, w: string, id: string)
    requires HasRow(s, w, id) && WorkerOf(s, w).phase == Errored && HoldsClaim(s, w, WorkerOf(s, w).queue[0])
    ensures var t := DoMarkFailed(s, w);
      && (Claimable(t, id) || HasRow(t, w, id))
      && WorkerOf(t, w) == Worker(WorkerOf(s, w).queue[1..], Ready)
  {
    ReleaseMovesOn(s, w);
    RowLeavesTheHead(s, w, id, DoMarkFailed(s, w));
  }

  lemma AfterRelease(s: State, w: string, id: string) returns (t: State)
    requires ProducerInv(s) && HasRow(s, w, id) && WorkerOf(s, w).phase == Errored
    ensures t == Do(s, MarkFailed(w)) && ProducerInv(t)
    ensures Claimable(t, id) || HasRow(t, w, id)
    ensures WorkerOf(t, w) == Worker(WorkerOf(s, w).queue[1..], Ready)
  {
    t := DoMarkFailed(s, w);
    MarkDoesIt(s, w);
    MarkFailedKeeps(s, w);
    ClaimsAreNeverStale(s, w);
    ReleaseFinds(s, w, id);
  }

  lemma AfterCrash(s: State, w: string, id: string) returns (t: State)
    requires ProducerInv(s) && Claimable(s, id)
    ensures t == Do(s, WorkerCrash(w)) && ProducerInv(t)
    ensures Claimable(t, id) && WorkerOf(t, w).queue == []
  {
    t := Do(s, WorkerCrash(w));
    WorkerMoveKeeps(s, w, Worker([], Ready));
  }

  function Effort(phase: WorkerPhase): nat { if phase == Ready then 1 else 0 }

  /** The worker works its batch off until it comes to the row. */
  lemma {:induction false} HeldRowCanBePublished(s: State, w: string, id: string)
    requires ProducerInv(s) && HasRow(s, w, id)
    ensures CanBePublished(s, id)
    decreases |WorkerOf(s, w).queue|, 2 + Effort(WorkerOf(s, w).phase)
  {
    match WorkerOf(s, w).phase
    case Ready =>
      var t := AfterSend(s, w, id);
      HeldRowCanBePublished(t, w, id);
      StepTowardsPublishing(s, Send(w, 0, true, true), id);
    case Sent =>
      var t := AfterMark(s, w, id);
      if IsPublished(t, id) {
        PublishedAlready(t, id);
      } else {
        HeldRowCanBePublished(t, w, id);
      }
      StepTowardsPublishing(s, MarkPublished(w), id);
    case Errored =>
      var t := AfterRelease(s, w, id);
      if Claimable(t, id) {
        FreeRowCanBePublished(t, id);
      } else {
        HeldRowCanBePublished(t, w, id);
      }
      StepTowardsPublishing(s, MarkFailed(w), id);
  }

  /** An unclaimed row: some worker starts afresh, claims it alone, sends and marks it. */
  lemma FreeRowCanBePublished(s: State, id: string)
    requires ProducerInv(s) && Claimable(s, id)
    ensures CanBePublished(s, id)
  {
    var w := "";
    var a := AfterCrash(s, w, id);
    var b := AfterClaim(a, w, id);
    ClaimedAloneCanBePublished(b, w, id);
    StepTowardsPublishing(a, Claim(w, [id]), id);
    StepTowardsPublishing(s, WorkerCrash(w), id);
  }

  lemma ClaimedAloneCanBePublished(s: State, w: string, id: string)
    requires ProducerInv(s) && HasRow(s, w, id) && |WorkerOf(s, w).queue| == 1 && WorkerOf(s, w).phase == Ready
    ensures CanBePublished(s, id)
  {
    var b := AfterSend(s, w, id);
    var c := AfterMark(b, w, id);
    PublishedAlready(c, id);
    StepTowardsPublishing(b, MarkPublished(w), id);
    StepTowardsPublishing(s, Send(w, 0, true, true), id);
  }

  /** In every reachable state an unpublished row can still be published exactly when no worker has lost it, which shows
      in its claim and in the batch of the worker that claimed it. */
  lemma PublishableIff(prefix: seq<Step>, id: string)
    requires var s := Run(INITIAL, prefix); id in s.outbox && !s.outbox[id].published
    ensures CanBePublished(Run(INITIAL, prefix), id) <==> !exists w :: Stranded(Run(INITIAL, prefix), w, id)
  {
    var s := Run(INITIAL, prefix);
    RunKeepsInv(prefix);
    if w :| Stranded(s, w, id) {
      forall rest
        ensures !IsPublished(Run(s, rest), id)
      {
        StrandedForever(s, rest, w, id);
      }
    } else if s.outbox[id].claimedBy.None? {
      FreeRowCanBePublished(s, id);
    } else {
      var w := s.outbox[id].claimedBy.value;
      assert !Stranded(s, w, id);
      HeldRowCanBePublished(s, w, id);
    }
  }

  // ----- a run that loses a row -----

  lemma FirstAppend(e: OperationalEvent)
    requires Insertable(e)
    ensures Do(INITIAL, Append(e, 0)).outbox == map[e.eventId := OutboxRow(e.(aggregateVersion := 1), false, None, 0)]
    ensures Do(INITIAL, Append(e, 0)).workers == map[]
  {
    assert FreshId(INITIAL, e.eventId);
  }

  lemma ClaimThenCrash(s: State, w: string, id: string)
    requires Claimable(s, id) && WorkerOf(s, w).queue == []
    ensures Stranded(Do(Do(s, Claim(w, [id])), WorkerCrash(w)), w, id)
  {
    assert MayClaim(s, [id]);
    assert [id][0] == id;
  }

  /** Append, claim, crash: the row is claimed by a worker that has forgotten it, and is never published. */
  lemma CrashLosesARow(e: OperationalEvent, w: string, rest: seq<Step>)
    requires Insertable(e)
    ensures var s := Run(INITIAL, [Append(e, 0), Claim(w, [e.eventId]), WorkerCrash(w)]);
      Stranded(s, w, e.eventId) && !IsPublished(Run(s, rest), e.eventId)
  {
    var steps := [Append(e, 0), Claim(w, [e.eventId]), WorkerCrash(w)];
    RunThree(INITIAL, steps);
    RunKeepsInv(steps);
    FirstAppend(e);
    ClaimThenCrash(Do(INITIAL, steps[0]), w, e.eventId);
    StrandedForever(Run(INITIAL, steps), rest, w, e.eventId);
  }

  function Zeros(n: nat): string { seq(n, i => '0') }

  function NilUuid(): string { Hyphenated(Zeros(32)) }

  /** Where byte i starts in the text of a UUID. */
  function ByteStart(i: nat): nat {
    2 * i + (if i >= 10 then 4 else if i >= 8 then 3 else if i >= 6 then 2 else if i >= 4 then 1 else 0)
  }

  ghost predicate LooksNil(s: string) {
    |s| == 36 && forall k :: 0 <= k < 36 ==> s[k] == if k == 8 || k == 13 || k == 18 || k == 23 then '-' else '0'
  }

  lemma NilCharacters()
    ensures LooksNil(NilUuid())
  {
  }

  lemma PairParses(s: string, i: nat, rest: string, tail: string)
    requires i < 16 && |s| >= 2 && s[0] == '0' && s[1] == '0' && HexPairs(rest, i + 1) == Some(tail)
    requires rest == if |s| > 2 && s[2] == '-' && i % 2 == 1 && i < 15 then s[3..] else s[2..]
    ensures HexPairs(s, i) == Some("00" + tail)
  {
  }

  lemma NextByte(s: string, i: nat)
    requires LooksNil(s) && i < 16
    ensures ByteStart(i + 1) <= 36 && |s[ByteStart(i)..]| >= 2
    ensures s[ByteStart(i)..][0] == '0' && s[ByteStart(i)..][1] == '0'
    ensures
      var here := s[ByteStart(i)..];
      s[ByteStart(i + 1)..] == if |here| > 2 && here[2] == '-' && i % 2 == 1 && i < 15 then here[3..] else here[2..]
  {
  }

  lemma ZerosGrow(n: nat)
    ensures "00" + Zeros(n) == Zeros(n + 2)
  {
  }

  lemma {:induction false} NilParses(s: string, i: nat)
    requires LooksNil(s) && i <= 16
    ensures ByteStart(i) <= 36 && HexPairs(s[ByteStart(i)..], i) == Some(Zeros(2 * (16 - i)))
    decreases 16 - i
  {
    if i == 16 {
      assert s[36..] == "" && Zeros(0) == "";
    } else {
      NilParses(s, i + 1);
      NextByte(s, i);
      PairParses(s[ByteStart(i)..], i, s[ByteStart(i + 1)..], Zeros(2 * (16 - (i + 1))));
      ZerosGrow(2 * (16 - (i + 1)));
    }
  }

  lemma NilIsGenerated()
    ensures GeneratedUuid(NilUuid())
  {
    NilCharacters();
    NilParses(NilUuid(), 0);
    assert NilUuid()[0..] == NilUuid();
  }

  lemma EventWithId(id: string) returns (e: OperationalEvent)
    requires GeneratedUuid(id)
    ensures Insertable(e)
  {
    e := OperationalEvent(id, "T", "flight", "F", 0, "T:F", "Delayed", "1", "2026-01-01T00:00:00+00:00",
                          id, None, "A", map[], "events");
  }

  /** There are events to append. */
  lemma SomeEventIsInsertable() returns (e: OperationalEvent)
    ensures Insertable(e)
  {
    NilIsGenerated();
    e := EventWithId(NilUuid());
  }
}
