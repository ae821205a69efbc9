/**
 * `BatchRectPenWorker` of sam_ops/batch_rect_pen.py: one background run
 * that infers boxes image by image and asks the main thread to draw each
 * image's boxes, checking for cancellation before every image, and reports
 * how many draws the main thread acknowledged.
 *
 * The Qt signals are an event log. The main thread is the environment of a
 * run: when the cancellation flag is first seen set, and the acknowledgements
 * it sends. The detectors are functions from an image to its box list.
 */
module BatchRectPen {
  import opened Wrappers

  datatype FailReason = NoPrompts | UserCancelled

  /** The text of a `progress` signal, by kind. */
  datatype Note =
    | Skipped(idx: nat, total: nat, path: string)
    | DrawRequested(idx: nat, total: nat, byYoloe: bool)
    | Decided(byYoloe: bool)
    | NoResult

  datatype Event =
    | RequestDraw(path: string, boxes: seq<seq<real>>)
    | Progress(note: Note)
    | ProgressStep(idx: nat, total: nat)
    | Finished(success: bool, processed: nat, total: nat)
    | Failed(reason: FailReason)

  /** The flag is seen set at the check before image `idx` (1-based; total + 1 is the check after the loop). */
  predicate CancelSeen(cancelAt: Option<nat>, idx: nat)
  {
    cancelAt.Some? && cancelAt.value <= idx
  }

  /** One image that was not cancelled: skipped when it has no boxes, else a draw request. */
  function StepEvents(idx: nat, total: nat, path: string, boxes: seq<seq<real>>, byYoloe: bool): seq<Event>
  {
    if boxes == [] then [Progress(Skipped(idx, total, path)), ProgressStep(idx, total)]
    else [RequestDraw(path, boxes), Progress(DrawRequested(idx, total, byYoloe)), ProgressStep(idx, total)]
  }

  datatype LoopOutcome = LoopOutcome(events: seq<Event>, requests: nat, cancelled: bool)

  /** The check and the work for image `idx`, after the images before it. */
  function LoopStep(prev: LoopOutcome, idx: nat, total: nat, path: string, boxesFor: string -> seq<seq<real>>,
                    byYoloe: bool, cancelAt: Option<nat>): LoopOutcome
  {
    if prev.cancelled then prev
    else if CancelSeen(cancelAt, idx) then
      LoopOutcome(prev.events + [ProgressStep(idx, total), Failed(UserCancelled)], prev.requests, true)
    else
      var boxes := boxesFor(path);
      LoopOutcome(prev.events + StepEvents(idx, total, path, boxes, byYoloe),
                  prev.requests + (if boxes == [] then 0 else 1), false)
  }

  /** The per-image loop over the first images of the run. */
  function LoopOf(paths: seq<string>, total: nat, boxesFor: string -> seq<seq<real>>, byYoloe: bool,
                  cancelAt: Option<nat>): LoopOutcome
  {
    if |paths| == 0 then LoopOutcome([], 0, false)
    else LoopStep(LoopOf(paths[..|paths| - 1], total, boxesFor, byYoloe, cancelAt), |paths|, total,
                  paths[|paths| - 1], boxesFor, byYoloe, cancelAt)
  }

  function CountTrue(acks: seq<bool>): nat
  {
    if |acks| == 0 then 0 else CountTrue(acks[..|acks| - 1]) + (if acks[|acks| - 1] then 1 else 0)
  }

  /** The worker's state that a run reads and writes. */
  datatype State = State(ackCount: nat, totalImages: nat, cancelled: bool, lastDrawOk: bool, ackReceived: bool)

  /** The main thread's part in a run. */
  datatype Environment = Environment(
    cancelAt: Option<nat>,
    acks: seq<bool>,
    yoloeBoxes: string -> seq<seq<real>>,
    yolovBoxes: string -> seq<seq<real>>,
    decisionFallsBack: bool,
    single: (bool, seq<seq<real>>))

  datatype RunResult = RunResult(events: seq<Event>, state: State)

  /** `ack_draw` on a state. */
  function Ack(s: State, ok: bool): State
  {
    s.(lastDrawOk := ok, ackReceived := true, ackCount := s.ackCount + (if ok then 1 else 0))
  }

  function AckAll(s: State, acks: seq<bool>): (r: State)
    ensures r.ackCount == s.ackCount + CountTrue(acks)
    ensures r.totalImages == s.totalImages && r.cancelled == s.cancelled
  {
    if |acks| == 0 then s else Ack(AckAll(s, acks[..|acks| - 1]), acks[|acks| - 1])
  }

  /** The cancellation flag after the checks up to `idx`. */
  function FlagAt(s: State, env: Environment, idx: nat): bool
  {
    s.cancelled || CancelSeen(env.cancelAt, idx)
  }

  /** A run over a list of images, from the reset of the acknowledgement count to `finished` or `failed`. */
  function ListRunOf(s: State, env: Environment, paths: seq<string>, boxesFor: string -> seq<seq<real>>,
                     byYoloe: bool, prefix: seq<Event>): RunResult
  {
    var total := |paths|;
    var cancelAt := if s.cancelled then Some(1) else env.cancelAt;
    var loop := LoopOf(paths, total, boxesFor, byYoloe, cancelAt);
    var s1 := s.(totalImages := total, ackCount := 0);
    if loop.cancelled then RunResult(prefix + loop.events, s1.(cancelled := true))
    else
      var s2 := AckAll(s1, env.acks);
      if CancelSeen(cancelAt, total + 1) then RunResult(prefix + loop.events + [Failed(UserCancelled)], s2.(cancelled := true))
      else RunResult(prefix + loop.events + [Finished(true, s2.ackCount, total)], s2)
  }

  /** `run`. */
  function RunOf(imagePath: string, bboxes: seq<seq<real>>, resourceList: seq<string>, useYoloe: bool,
                 s: State, env: Environment): RunResult
  {
    if bboxes == [] then RunResult([Failed(NoPrompts)], s)
    else if useYoloe then
      ListRunOf(s, env, if resourceList != [] then resourceList else [imagePath], env.yoloeBoxes, true, [])
    else if resourceList != [] then
      var fallsBack := env.decisionFallsBack;
      ListRunOf(s, env, resourceList, if fallsBack then env.yoloeBoxes else env.yolovBoxes, fallsBack,
                [Progress(Decided(fallsBack))])
    else SingleRunOf(imagePath, s, env)
  }

  /** The single-image path of `run`: one cancellation check, then at most one draw request. */
  function SingleRunOf(imagePath: string, s: State, env: Environment): RunResult
  {
    if FlagAt(s, env, 1) then RunResult([ProgressStep(1, 1), Failed(UserCancelled)], s.(cancelled := true))
    else
      var (ok, list) := env.single;
      if !ok || list == [] then RunResult([Progress(NoResult), ProgressStep(1, 1), Finished(true, 0, 1)], s)
      else
        var s2 := AckAll(s, env.acks);
        var processed := if s2.ackCount >= 1 then 1 else 0;
        RunResult([RequestDraw(imagePath, list), ProgressStep(1, 1), Finished(processed == 1, processed, 1)], s2)
  }

  /** A list run with a prefix emits the prefix, then what the same run without it emits. */
  lemma ListRunPrefix(s: State, env: Environment, paths: seq<string>, boxesFor: string -> seq<seq<real>>,
                      byYoloe: bool, prefix: seq<Event>)
    ensures var r := ListRunOf(s, env, paths, boxesFor, byYoloe, []);
      ListRunOf(s, env, paths, boxesFor, byYoloe, prefix) == RunResult(prefix + r.events, r.state)
  {
    var loop := LoopOf(paths, |paths|, boxesFor, byYoloe, if s.cancelled then Some(1) else env.cancelAt);
    assert [] + loop.events == loop.events;
    assert forall t: seq<Event> :: prefix + loop.events + t == prefix + (loop.events + t);
  }

  class BatchRectPenWorker {
    var imagePath: string
    var bboxes: seq<seq<real>>
    var resourceList: seq<string>
    var useYoloe: bool
    var lastDrawOk: bool
    var ackReceived: bool
    var ackCount: nat
    var totalImages: nat
    var cancelled: bool
    var events: seq<Event>

    function StateOf(): State
      reads this
    {
      State(ackCount, totalImages, cancelled, lastDrawOk, ackReceived)
    }

    /** What a run only reads: the image, the prompt boxes, the resource list and the engine choice. */
    function Config(): (string, seq<seq<real>>, seq<string>, bool)
      reads this
    {
      (imagePath, bboxes, resourceList, useYoloe)
    }

    /**
     * `use_yoloe` None follows the "skip YOLOV" setting, and a settings
     * lookup that raises (None here) means False.
     */
    constructor (imagePath: string, bboxes: seq<seq<real>>, resourceList: Option<seq<string>>, useYoloe: Option<bool>,
                 skipYolovSetting: Option<bool>)
      ensures this.imagePath == imagePath && this.bboxes == bboxes
      ensures this.resourceList == if resourceList.Some? then resourceList.value else []
      ensures this.useYoloe == if useYoloe.Some? then useYoloe.value else skipYolovSetting == Some(true)
      ensures StateOf() == State(0, 0, false, false, false) && events == []
    {
      this.imagePath := imagePath;
      this.bboxes := bboxes;
      this.resourceList := if resourceList.Some? then resourceList.value else [];
      this.useYoloe := if useYoloe.Some? then useYoloe.value else skipYolovSetting == Some(true);
      lastDrawOk := false;
      ackReceived := false;
      ackCount := 0;
      totalImages := 0;
      cancelled := false;
      events := [];
    }

    /** `ack_draw`: records the answer, and counts it only when it reports success. */
    method AckDraw(ok: bool)
      modifies this
      ensures StateOf() == Ack(old(StateOf()), ok)
      ensures events == old(events) && Config() == old(Config())
    {
      lastDrawOk := ok;
      ackReceived := true;
      if ok {
        ackCount := ackCount + 1;
      }
    }

    /** `cancel`. */
    method Cancel()
      modifies this
      ensures StateOf() == old(StateOf()).(cancelled := true)
      ensures events == old(events) && Config() == old(Config())
    {
      cancelled := true;
    }

    method DeliverAcks(acks: seq<bool>)
      modifies this
      ensures StateOf() == AckAll(old(StateOf()), acks)
      ensures events == old(events) && Config() == old(Config())
    {
      for j := 0 to |acks|
        invariant StateOf() == AckAll(old(StateOf()), acks[..j])
        invariant events == old(events) && Config() == old(Config())
      {
        assert acks[..j + 1][..j] == acks[..j];
        AckDraw(acks[j]);
      }
      assert acks[..|acks|] == acks;
    }

    /** The cancellation check and the work for image `idx` of a list run. */
    method VisitImage(idx: nat, total: nat, path: string, boxesFor: string -> seq<seq<real>>, byYoloe: bool,
                      cancelAt: Option<nat>, ghost base: seq<Event>, ghost prev: LoopOutcome)
      returns (drew: bool, stop: bool)
      modifies this
      requires !prev.cancelled && events == base + prev.events
      requires cancelled ==> CancelSeen(cancelAt, idx)
      ensures var next := LoopStep(prev, idx, total, path, boxesFor, byYoloe, cancelAt);
        events == base + next.events && next.requests == prev.requests + (if drew then 1 else 0)
        && stop == next.cancelled
      ensures StateOf() == old(StateOf()).(cancelled := stop)
      ensures Config() == old(Config())
    {
      drew := false;
      stop := false;
      if CancelSeen(cancelAt, idx) {
        cancelled := true;
      }
      if cancelled {
        events := events + [ProgressStep(idx, total), Failed(UserCancelled)];
        stop := true;
        return;
      }
      var boxes := boxesFor(path);
      if boxes == [] {
        events := events + [Progress(Skipped(idx, total, path)), ProgressStep(idx, total)];
      } else {
        drew := true;
        events := events + [RequestDraw(path, boxes), Progress(DrawRequested(idx, total, byYoloe)), ProgressStep(idx, total)];
      }
    }

    /** The loop over the images of a list run. */
    method ImageLoop(paths: seq<string>, boxesFor: string -> seq<seq<real>>, byYoloe: bool, cancelAt: Option<nat>)
      returns (requests: nat, stopped: bool)
      modifies this
      requires cancelled ==> CancelSeen(cancelAt, 1)
      ensures var loop := LoopOf(paths, |paths|, boxesFor, byYoloe, cancelAt);
        events == old(events) + loop.events && requests == loop.requests && stopped == loop.cancelled
      ensures StateOf() == old(StateOf()).(cancelled := stopped || old(cancelled))
      ensures Config() == old(Config())
    {
      var total := |paths|;
      ghost var base := events;
      ghost var s0 := StateOf();
      requests := 0;
      stopped := false;
      for i := 0 to |paths|
        invariant var loop := LoopOf(paths[..i], total, boxesFor, byYoloe, cancelAt);
          events == base + loop.events && requests == loop.requests && !loop.cancelled
        invariant StateOf() == s0 && (cancelled ==> i == 0)
        invariant Config() == old(Config())
      {
        LoopOfSnoc(paths, i, total, boxesFor, byYoloe, cancelAt);
        ghost var prev := LoopOf(paths[..i], total, boxesFor, byYoloe, cancelAt);
        var drew, stop := VisitImage(i + 1, total, paths[i], boxesFor, byYoloe, cancelAt, base, prev);
        if stop {
          stopped := true;
          LoopStopsForGood(paths, i + 1, total, boxesFor, byYoloe, cancelAt);
          return;
        }
        if drew {
          requests := requests + 1;
        }
      }
      assert paths[..|paths|] == paths;
    }

    /** A run over a list of images. */
    method ListRun(paths: seq<string>, boxesFor: string -> seq<seq<real>>, byYoloe: bool, env: Environment)
      modifies this
      ensures var r := ListRunOf(old(StateOf()), env, paths, boxesFor, byYoloe, []);
        events == old(events) + r.events && StateOf() == r.state
      ensures Config() == old(Config())
    {
      ghost var r := ListRunOf(StateOf(), env, paths, boxesFor, byYoloe, []);
      ghost var base := events;
      var total := |paths|;
      var cancelAt := if cancelled then Some(1) else env.cancelAt;
      ghost var loop := LoopOf(paths, total, boxesFor, byYoloe, cancelAt);
      assert [] + loop.events == loop.events;
      totalImages := total;
      ackCount := 0;
      ghost var s1 := StateOf();
      var requests, stopped := ImageLoop(paths, boxesFor, byYoloe, cancelAt);
      if stopped {
        assert r == RunResult(loop.events, s1.(cancelled := true));
        return;
      }
      assert StateOf() == s1;
      DeliverAcks(env.acks);
      ghost var s2 := StateOf();
      assert s2 == AckAll(s1, env.acks);
      if CancelSeen(cancelAt, total + 1) {
        cancelled := true;
      }
      if cancelled {
        events := events + [Failed(UserCancelled)];
        assert r == RunResult(loop.events + [Failed(UserCancelled)], s2.(cancelled := true));
        return;
      }
      events := events + [Finished(true, ackCount, total)];
      assert r == RunResult(loop.events + [Finished(true, s2.ackCount, total)], s2);
    }

    /** `run`. */
    method Run(env: Environment)
      modifies this
      ensures var r := RunOf(old(imagePath), old(bboxes), old(resourceList), old(useYoloe), old(StateOf()), env);
        events == old(events) + r.events && StateOf() == r.state
      ensures Config() == old(Config())
    {
      if bboxes == [] {
        events := events + [Failed(NoPrompts)];
        return;
      }
      if useYoloe {
        var runs := if resourceList != [] then resourceList else [imagePath];
        ListRun(runs, env.yoloeBoxes, true, env);
        return;
      }
      if resourceList != [] {
        var fallsBack := env.decisionFallsBack;
        events := events + [Progress(Decided(fallsBack))];
        ListRunPrefix(StateOf(), env, resourceList, if fallsBack then env.yoloeBoxes else env.yolovBoxes, fallsBack,
                      [Progress(Decided(fallsBack))]);
        ListRun(resourceList, if fallsBack then env.yoloeBoxes else env.yolovBoxes, fallsBack, env);
        return;
      }
      SingleRun(env);
    }

    /** The single-image path of `run`. */
    method SingleRun(env: Environment)
      modifies this
      ensures var r := SingleRunOf(old(imagePath), old(StateOf()), env);
        events == old(events) + r.events && StateOf() == r.state
      ensures Config() == old(Config())
    {
      if CancelSeen(env.cancelAt, 1) {
        cancelled := true;
      }
      if cancelled {
        events := events + [ProgressStep(1, 1), Failed(UserCancelled)];
        return;
      }
      var (ok, list) := env.single;
      if !ok || list == [] {
        events := events + [Progress(NoResult), ProgressStep(1, 1), Finished(true, 0, 1)];
        return;
      }
      events := events + [RequestDraw(imagePath, list)];
      DeliverAcks(env.acks);
      var processed := if ackCount >= 1 then 1 else 0;
      events := events + [ProgressStep(1, 1), Finished(processed == 1, processed, 1)];
    }
  }

  /** The loop over one more image is one more step. */
  lemma LoopOfSnoc(paths: seq<string>, i: nat, total: nat, boxesFor: string -> seq<seq<real>>,
                   byYoloe: bool, cancelAt: Option<nat>)
    requires i < |paths|
    ensures LoopOf(paths[..i + 1], total, boxesFor, byYoloe, cancelAt)
         == LoopStep(LoopOf(paths[..i], total, boxesFor, byYoloe, cancelAt), i + 1, total, paths[i], boxesFor, byYoloe, cancelAt)
  {
    assert paths[..i + 1][..i] == paths[..i];
  }

  /** Once the loop has stopped on a cancellation, later images add nothing. */
  lemma {:induction false} LoopStopsForGood(paths: seq<string>, i: nat, total: nat, boxesFor: string -> seq<seq<real>>,
                                            byYoloe: bool, cancelAt: Option<nat>)
    requires i <= |paths| && LoopOf(paths[..i], total, boxesFor, byYoloe, cancelAt).cancelled
    ensures LoopOf(paths, total, boxesFor, byYoloe, cancelAt) == LoopOf(paths[..i], total, boxesFor, byYoloe, cancelAt)
    decreases |paths|
  {
    if |paths| == i {
      assert paths[..i] == paths;
    } else {
      var init := paths[..|paths| - 1];
      assert init[..i] == paths[..i];
      LoopStopsForGood(init, i, total, boxesFor, byYoloe, cancelAt);
    }
  }

  // ---------------------------------------------------------------------
  // Properties of a run
  // ---------------------------------------------------------------------

  /** The image numbers of the `progress_step` events, in order. */
  function Steps(es: seq<Event>): seq<nat>
  {
    if |es| == 0 then []
    else Steps(es[..|es| - 1]) + (if es[|es| - 1].ProgressStep? then [es[|es| - 1].idx] else [])
  }

  lemma {:induction false} StepsAppend(a: seq<Event>, b: seq<Event>)
    ensures Steps(a + b) == Steps(a) + Steps(b)
    decreases |b|
  {
    if |b| == 0 {
      assert a + b == a;
    } else {
      var bi := b[..|b| - 1];
      assert (a + b)[..|a + b| - 1] == a + bi;
      StepsAppend(a, bi);
    }
  }

  /** 1, 2, ..., n. */
  function UpTo(n: nat): seq<nat>
  {
    if n == 0 then [] else UpTo(n - 1) + [n]
  }

  /** The image a loop stops at, or the number of images when it runs through. */
  function StepsTaken(paths: seq<string>, cancelAt: Option<nat>): nat
  {
    if cancelAt.Some? && 1 <= cancelAt.value <= |paths| then cancelAt.value else |paths|
  }

  /**
   * Every image the loop reaches emits exactly one `progress_step`, with the
   * image numbers running 1, 2, ... in order; a loop cancelled before image c
   * stops there, after the step for c and `failed`.
   */
  lemma {:induction false} LoopStepsInOrder(paths: seq<string>, total: nat, boxesFor: string -> seq<seq<real>>,
                                            byYoloe: bool, cancelAt: Option<nat>)
    requires cancelAt.Some? ==> cancelAt.value >= 1
    ensures var loop := LoopOf(paths, total, boxesFor, byYoloe, cancelAt);
      Steps(loop.events) == UpTo(StepsTaken(paths, cancelAt))
      && (loop.cancelled <==> cancelAt.Some? && cancelAt.value <= |paths|)
      && (loop.cancelled ==> |loop.events| > 0 && loop.events[|loop.events| - 1] == Failed(UserCancelled))
  {
    if |paths| > 0 {
      var init := paths[..|paths| - 1];
      LoopStepsInOrder(init, total, boxesFor, byYoloe, cancelAt);
      var prev := LoopOf(init, total, boxesFor, byYoloe, cancelAt);
      var idx := |paths|;
      var cur := LoopOf(paths, total, boxesFor, byYoloe, cancelAt);
      assert cur == LoopStep(prev, idx, total, paths[idx - 1], boxesFor, byYoloe, cancelAt);
      if prev.cancelled {
        assert cur == prev;
        assert StepsTaken(paths, cancelAt) == StepsTaken(init, cancelAt);
      } else if CancelSeen(cancelAt, idx) {
        assert cancelAt.value == idx && StepsTaken(paths, cancelAt) == idx && StepsTaken(init, cancelAt) == idx - 1;
        var tail := [ProgressStep(idx, total), Failed(UserCancelled)];
        assert cur == LoopOutcome(prev.events + tail, prev.requests, true);
        CancelEventsCounts(idx, total);
        StepsAppend(prev.events, tail);
      } else {
        assert StepsTaken(paths, cancelAt) == idx && StepsTaken(init, cancelAt) == idx - 1;
        var boxes := boxesFor(paths[idx - 1]);
        var tail := StepEvents(idx, total, paths[idx - 1], boxes, byYoloe);
        assert cur.events == prev.events + tail && !cur.cancelled;
        StepEventsCounts(idx, total, paths[idx - 1], boxes, byYoloe);
        StepsAppend(prev.events, tail);
      }
    }
  }

  /** The (image, boxes) of the draw requests in an event sequence. */
  function Draws(es: seq<Event>): seq<(string, seq<seq<real>>)>
  {
    if |es| == 0 then []
    else
      var e := es[|es| - 1];
      Draws(es[..|es| - 1]) + (if e.RequestDraw? then [(e.path, e.boxes)] else [])
  }

  lemma StepsAndDrawsOfOne(e: Event)
    ensures Steps([e]) == if e.ProgressStep? then [e.idx] else []
    ensures Draws([e]) == if e.RequestDraw? then [(e.path, e.boxes)] else []
  {
    assert [e][..0] == [];
  }

  /** The steps and draws of one image's events: one step for the image, and a draw exactly when it has boxes. */
  lemma StepEventsCounts(idx: nat, total: nat, path: string, boxes: seq<seq<real>>, byYoloe: bool)
    ensures Steps(StepEvents(idx, total, path, boxes, byYoloe)) == [idx]
    ensures Draws(StepEvents(idx, total, path, boxes, byYoloe)) == if boxes == [] then [] else [(path, boxes)]
  {
    var a := if boxes == [] then Progress(Skipped(idx, total, path)) else RequestDraw(path, boxes);
    var b := if boxes == [] then ProgressStep(idx, total) else Progress(DrawRequested(idx, total, byYoloe));
    StepsAndDrawsOfOne(a);
    StepsAndDrawsOfOne(b);
    StepsAppend([a], [b]);
    DrawsAppend([a], [b]);
    if boxes != [] {
      var c := ProgressStep(idx, total);
      StepsAndDrawsOfOne(c);
      StepsAppend([a, b], [c]);
      DrawsAppend([a, b], [c]);
      assert [a, b] == [a] + [b];
      assert StepEvents(idx, total, path, boxes, byYoloe) == [a, b] + [c];
    } else {
      assert StepEvents(idx, total, path, boxes, byYoloe) == [a] + [b];
    }
  }

  /** The events a cancelled check adds: its step, then `failed`, and no draw. */
  lemma CancelEventsCounts(idx: nat, total: nat)
    ensures Steps([ProgressStep(idx, total), Failed(UserCancelled)]) == [idx]
    ensures Draws([ProgressStep(idx, total), Failed(UserCancelled)]) == []
  {
    StepsAndDrawsOfOne(ProgressStep(idx, total));
    StepsAndDrawsOfOne(Failed(UserCancelled));
    StepsAppend([ProgressStep(idx, total)], [Failed(UserCancelled)]);
    DrawsAppend([ProgressStep(idx, total)], [Failed(UserCancelled)]);
    assert [ProgressStep(idx, total), Failed(UserCancelled)] == [ProgressStep(idx, total)] + [Failed(UserCancelled)];
  }

  lemma {:induction false} DrawsAppend(a: seq<Event>, b: seq<Event>)
    ensures Draws(a + b) == Draws(a) + Draws(b)
    decreases |b|
  {
    if |b| == 0 {
      assert a + b == a;
    } else {
      var bi := b[..|b| - 1];
      assert (a + b)[..|a + b| - 1] == a + bi;
      DrawsAppend(a, bi);
    }
  }

  /** Every draw is of an image in `paths`, with the non-empty boxes `boxesFor` gives that image. */
  predicate DrawsFrom(ds: seq<(string, seq<seq<real>>)>, paths: seq<string>, boxesFor: string -> seq<seq<real>>)
  {
    forall k :: 0 <= k < |ds| ==> ds[k].1 != [] && ds[k].0 in paths && ds[k].1 == boxesFor(ds[k].0)
  }

  /** Draws from a prefix of the images are draws from all of them. */
  lemma DrawsFromWider(ds: seq<(string, seq<seq<real>>)>, init: seq<string>, paths: seq<string>,
                       boxesFor: string -> seq<seq<real>>)
    requires |init| < |paths| && init == paths[..|init|] && DrawsFrom(ds, init, boxesFor)
    ensures DrawsFrom(ds, paths, boxesFor)
  {
    forall k | 0 <= k < |ds|
      ensures ds[k].0 in paths
    {
      var j :| 0 <= j < |init| && init[j] == ds[k].0;
      assert paths[j] == init[j];
    }
  }

  /**
   * The loop asks for a draw exactly once per reached image with a
   * non-empty box list, with that image's boxes, and `requests` counts the
   * requests.
   */
  lemma {:induction false} LoopDrawsNonEmpty(paths: seq<string>, total: nat, boxesFor: string -> seq<seq<real>>,
                                             byYoloe: bool, cancelAt: Option<nat>)
    ensures var loop := LoopOf(paths, total, boxesFor, byYoloe, cancelAt);
      |Draws(loop.events)| == loop.requests && DrawsFrom(Draws(loop.events), paths, boxesFor)
  {
    if |paths| > 0 {
      var init := paths[..|paths| - 1];
      LoopDrawsNonEmpty(init, total, boxesFor, byYoloe, cancelAt);
      var prev := LoopOf(init, total, boxesFor, byYoloe, cancelAt);
      var idx := |paths|;
      var path := paths[idx - 1];
      var cur := LoopOf(paths, total, boxesFor, byYoloe, cancelAt);
      assert cur == LoopStep(prev, idx, total, path, boxesFor, byYoloe, cancelAt);
      DrawsFromWider(Draws(prev.events), init, paths, boxesFor);
      if prev.cancelled {
        assert cur == prev;
      } else if CancelSeen(cancelAt, idx) {
        var tail := [ProgressStep(idx, total), Failed(UserCancelled)];
        assert cur == LoopOutcome(prev.events + tail, prev.requests, true);
        CancelEventsCounts(idx, total);
        DrawsAppend(prev.events, tail);
      } else {
        var boxes := boxesFor(path);
        var tail := StepEvents(idx, total, path, boxes, byYoloe);
        assert cur == LoopOutcome(prev.events + tail, prev.requests + (if boxes == [] then 0 else 1), false);
        StepEventsCounts(idx, total, path, boxes, byYoloe);
        DrawsAppend(prev.events, tail);
        assert path in paths;
      }
    }
  }

  /** Without prompt boxes the run fails at once and changes nothing else. */
  lemma NoPromptsFailsAtOnce(imagePath: string, resourceList: seq<string>, useYoloe: bool, s: State, env: Environment)
    ensures RunOf(imagePath, [], resourceList, useYoloe, s, env) == RunResult([Failed(NoPrompts)], s)
  {
  }

  /**
   * A YOLOE run goes over the resource list, or the image alone, and a run
   * over the whole list that is not cancelled finishes with success, the
   * number of successful acknowledgements as `processed` and the list's
   * length as total.
   */
  lemma YoloeRunBookkeeping(imagePath: string, bboxes: seq<seq<real>>, resourceList: seq<string>, s: State,
                            env: Environment)
    requires bboxes != [] && !s.cancelled && env.cancelAt.None?
    ensures var runs := if resourceList != [] then resourceList else [imagePath];
      var r := RunOf(imagePath, bboxes, resourceList, true, s, env);
      r.state.totalImages == |runs| && r.state.ackCount == CountTrue(env.acks) && |r.events| > 0
      && r.events[|r.events| - 1] == Finished(true, CountTrue(env.acks), |runs|)
      && Steps(r.events[..|r.events| - 1]) == UpTo(|runs|)
  {
    var runs := if resourceList != [] then resourceList else [imagePath];
    LoopStepsInOrder(runs, |runs|, env.yoloeBoxes, true, None);
    var loop := LoopOf(runs, |runs|, env.yoloeBoxes, true, None);
    var r := RunOf(imagePath, bboxes, resourceList, true, s, env);
    assert r.events == loop.events + [Finished(true, CountTrue(env.acks), |runs|)];
    assert r.events[..|r.events| - 1] == loop.events;
  }

  /** What a list run adds after its loop: nothing when cancelled inside it, else one `failed` or `finished` event. */
  function ListRunTail(s: State, env: Environment, paths: seq<string>, boxesFor: string -> seq<seq<real>>,
                       byYoloe: bool, prefix: seq<Event>): (tail: seq<Event>)
    ensures var loop := LoopOf(paths, |paths|, boxesFor, byYoloe, if s.cancelled then Some(1) else env.cancelAt);
      ListRunOf(s, env, paths, boxesFor, byYoloe, prefix).events == prefix + loop.events + tail
      && |tail| <= 1 && (tail != [] ==> tail[0].Failed? || tail[0].Finished?)
  {
    var cancelAt := if s.cancelled then Some(1) else env.cancelAt;
    var loop := LoopOf(paths, |paths|, boxesFor, byYoloe, cancelAt);
    if loop.cancelled then []
    else if CancelSeen(cancelAt, |paths| + 1) then [Failed(UserCancelled)]
    else
      var s2 := AckAll(s.(totalImages := |paths|, ackCount := 0), env.acks);
      [Finished(true, s2.ackCount, |paths|)]
  }

  /** A list run's events are its prefix, then the loop's, then at most one event that draws nothing. */
  lemma ListRunEvents(s: State, env: Environment, paths: seq<string>, boxesFor: string -> seq<seq<real>>,
                      byYoloe: bool, prefix: seq<Event>)
    ensures var r := ListRunOf(s, env, paths, boxesFor, byYoloe, prefix);
      var loop := LoopOf(paths, |paths|, boxesFor, byYoloe, if s.cancelled then Some(1) else env.cancelAt);
      |r.events| >= |prefix| && r.events[..|prefix|] == prefix
      && Draws(r.events) == Draws(prefix) + Draws(loop.events)
  {
    var r := ListRunOf(s, env, paths, boxesFor, byYoloe, prefix);
    var loop := LoopOf(paths, |paths|, boxesFor, byYoloe, if s.cancelled then Some(1) else env.cancelAt);
    var tail := ListRunTail(s, env, paths, boxesFor, byYoloe, prefix);
    var body := prefix + loop.events;
    assert r.events == body + tail;
    assert body[..|prefix|] == prefix;
    assert (body + tail)[..|prefix|] == body[..|prefix|];
    DrawsAppend(prefix, loop.events);
    DrawsAppend(body, tail);
    if tail != [] {
      assert tail == [tail[0]];
      StepsAndDrawsOfOne(tail[0]);
    }
  }

  /**
   * The YOLOV path over resource images decides once, before the loop, and
   * every image's boxes then come from the engine it chose.
   */
  lemma YolovRunDecidesOnce(imagePath: string, bboxes: seq<seq<real>>, resourceList: seq<string>, s: State,
                            env: Environment)
    requires bboxes != [] && resourceList != [] && !s.cancelled
    ensures var r := RunOf(imagePath, bboxes, resourceList, false, s, env);
      var engine := if env.decisionFallsBack then env.yoloeBoxes else env.yolovBoxes;
      |r.events| > 0 && r.events[0] == Progress(Decided(env.decisionFallsBack))
      && DrawsFrom(Draws(r.events), resourceList, engine)
  {
    var engine := if env.decisionFallsBack then env.yoloeBoxes else env.yolovBoxes;
    var head := [Progress(Decided(env.decisionFallsBack))];
    var r := RunOf(imagePath, bboxes, resourceList, false, s, env);
    assert r == ListRunOf(s, env, resourceList, engine, env.decisionFallsBack, head);
    ListRunEvents(s, env, resourceList, engine, env.decisionFallsBack, head);
    LoopDrawsNonEmpty(resourceList, |resourceList|, engine, env.decisionFallsBack, env.cancelAt);
    StepsAndDrawsOfOne(head[0]);
    var loop := LoopOf(resourceList, |resourceList|, engine, env.decisionFallsBack, env.cancelAt);
    assert Draws(r.events) == [] + Draws(loop.events) == Draws(loop.events);
    assert r.events[0] == r.events[..1][0];
  }

  /**
   * A list run cancelled before image c stops after c's step: the steps are
   * 1..c and the last event is `failed`.
   */
  lemma CancelledListRunStops(s: State, env: Environment, paths: seq<string>, boxesFor: string -> seq<seq<real>>,
                              byYoloe: bool)
    requires !s.cancelled && env.cancelAt.Some? && 1 <= env.cancelAt.value <= |paths|
    ensures var r := ListRunOf(s, env, paths, boxesFor, byYoloe, []);
      Steps(r.events) == UpTo(env.cancelAt.value) && |r.events| > 0 && r.events[|r.events| - 1] == Failed(UserCancelled)
      && r.state.cancelled
  {
    LoopStepsInOrder(paths, |paths|, boxesFor, byYoloe, env.cancelAt);
    assert [] + LoopOf(paths, |paths|, boxesFor, byYoloe, env.cancelAt).events
        == LoopOf(paths, |paths|, boxesFor, byYoloe, env.cancelAt).events;
  }

  /** The single-image path without a result finishes with processed 0 of total 1. */
  lemma SingleImageWithoutResult(imagePath: string, bboxes: seq<seq<real>>, s: State, env: Environment)
    requires bboxes != [] && !s.cancelled && !CancelSeen(env.cancelAt, 1)
    requires !env.single.0 || env.single.1 == []
    ensures RunOf(imagePath, bboxes, [], false, s, env).events
         == [Progress(NoResult), ProgressStep(1, 1), Finished(true, 0, 1)]
  {
  }

  /**
   * The single-image path with boxes asks for one draw and succeeds exactly
   * when some successful acknowledgement was counted.
   */
  lemma SingleImageSucceedsOnAck(imagePath: string, bboxes: seq<seq<real>>, s: State, env: Environment)
    requires bboxes != [] && !s.cancelled && !CancelSeen(env.cancelAt, 1)
    requires env.single.0 && env.single.1 != []
    ensures var r := RunOf(imagePath, bboxes, [], false, s, env);
      var acked := s.ackCount + CountTrue(env.acks) >= 1;
      |r.events| == 3 && r.events[0] == RequestDraw(imagePath, env.single.1)
      && r.events[|r.events| - 1] == Finished(acked, if acked then 1 else 0, 1)
  {
  }
}
