/**
 * The generation endpoint's event stream: the callbacks a generation job
 * calls (image done, step progress, cancelled, done) put events on a
 * queue, and the response generator turns the queue into output lines,
 * stopping at the first terminating event.
 *
 * The queue is a sequence; the thread handoff and the JSON encoding of each
 * line are not modelled, so a line is the event's data payload.
 */
module GenerationStream {
  import opened Wrappers

  /** The request fields the callbacks read. `upscale` is the truthiness of the request's upscale setting. */
  datatype DreamRequest = DreamRequest(
    seed: int,
    config: string,
    upscale: bool,
    gfpganStrength: real,
    iterations: int)

  /** The `data` payload of a queued event. */
  datatype EventData =
    | ResultData(url: string, seed: int, config: string)       // {'event': 'result', 'url', 'seed', 'config'}
    | UpscaleData(action: string, processedFileCnt: string)    // {'event': action, 'processed_file_cnt'}
    | StepData(step: int, url: string)                         // {'event': 'step', 'step', 'url'}
    | EmptyData                                               // {}
    | NoData                                                  // the event carries no 'data' key

  datatype Event = Event(kind: string, data: EventData)

  // ---- Decimal rendering of integers, as Python's str() does it ----

  function DigitChar(d: nat): char
    requires d < 10
  {
    ('0' as int + d) as char
  }

  predicate IsDigit(c: char) {
    '0' <= c <= '9'
  }

  predicate AllDigits(s: string) {
    forall i :: 0 <= i < |s| ==> IsDigit(s[i])
  }

  function NatToString(n: nat): (s: string)
    ensures |s| > 0 && AllDigits(s)
    decreases n
  {
    if n < 10 then [DigitChar(n)] else NatToString(n / 10) + [DigitChar(n % 10)]
  }

  function IntToString(n: int): string {
    if n < 0 then "-" + NatToString(-n) else NatToString(n)
  }

  function ParseNat(s: string): nat
    requires AllDigits(s)
    decreases |s|
  {
    if s == [] then 0 else ParseNat(s[..|s| - 1]) * 10 + (s[|s| - 1] as int - '0' as int)
  }

  predicate IsIntString(s: string) {
    if |s| > 0 && s[0] == '-' then AllDigits(s[1..]) else AllDigits(s)
  }

  function ParseInt(s: string): int
    requires IsIntString(s)
  {
    if |s| > 0 && s[0] == '-' then 0 - ParseNat(s[1..]) as int else ParseNat(s)
  }

  lemma {:induction false} NatToStringRoundTrip(n: nat)
    ensures ParseNat(NatToString(n)) == n
    decreases n
  {
    var s := NatToString(n);
    if n >= 10 {
      NatToStringRoundTrip(n / 10);
      assert s[..|s| - 1] == NatToString(n / 10);
    }
  }

  /** Rendering an integer in decimal loses nothing: parsing it back gives the integer. */
  lemma IntToStringRoundTrip(n: int)
    ensures IsIntString(IntToString(n)) && ParseInt(IntToString(n)) == n
  {
    if n < 0 {
      NatToStringRoundTrip(-n);
      assert IntToString(n)[1..] == NatToString(-n);
    } else {
      NatToStringRoundTrip(n);
    }
  }

  /** `processed_file_cnt`: f'{x}/{iterations}'. */
  function CountString(x: int, iterations: int): string {
    IntToString(x) + "/" + IntToString(iterations)
  }

  // ---- Events the callbacks enqueue ----

  predicate UpscalingRequested(req: DreamRequest) {
    req.upscale || req.gfpganStrength > 0.0
  }

  /**
   * The notice after an image: none until every image of the request is
   * generated, then 'upscaling-started' until every image is upscaled, then
   * 'upscaling-done'.
   */
  function UpscaleAction(iterations: int, generated: int, upscaled: int): (a: Option<string>)
    ensures a.None? <==> generated < iterations
    ensures a == Some("upscaling-started") <==> generated >= iterations && upscaled < iterations
    ensures a == Some("upscaling-done") <==> generated >= iterations && upscaled >= iterations
  {
    if generated >= iterations then
      if upscaled < iterations then Some("upscaling-started") else Some("upscaling-done")
    else None
  }

  /** The event type of an upscaling notice. */
  function NoticeKind(action: string): string {
    if action == "upscaling-started" then "progress" else "done"
  }

  /**
   * What one `image_done` call enqueues, given the counters after its own
   * increment: the result, then possibly the upscaling notice.
   */
  function ImageDoneEvents(imgpath: string, req: DreamRequest, generated: int, upscaled: int): (q: seq<Event>)
    ensures 1 <= |q| <= 2
    ensures q[0] == Event("result", ResultData(imgpath, req.seed, req.config))
    ensures |q| == 2 <==> UpscalingRequested(req) && generated >= req.iterations
    ensures |q| == 2 && upscaled < req.iterations ==>
      q[1] == Event("progress", UpscaleData("upscaling-started", CountString(upscaled + 1, req.iterations)))
    ensures |q| == 2 && upscaled >= req.iterations ==>
      q[1] == Event("done", UpscaleData("upscaling-done", CountString(upscaled + 1, req.iterations)))
  {
    [Event("result", ResultData(imgpath, req.seed, req.config))] + UpscaleNotice(req, generated, upscaled)
  }

  /** The upscaling notice `image_done` queues after the result, if any. */
  function UpscaleNotice(req: DreamRequest, generated: int, upscaled: int): seq<Event> {
    if !UpscalingRequested(req) then []
    else
      match UpscaleAction(req.iterations, generated, upscaled)
      case None => []
      case Some(action) => [Event(NoticeKind(action), UpscaleData(action, CountString(upscaled + 1, req.iterations)))]
  }

  lemma ImageDoneAddsOneResult(imgpath: string, req: DreamRequest, generated: int, upscaled: int)
    ensures ResultCount(ImageDoneEvents(imgpath, req, generated, upscaled)) == 1
  {
    var q := ImageDoneEvents(imgpath, req, generated, upscaled);
    if |q| == 1 {
      assert q[1..] == [];
    } else {
      assert |"progress"| != |"result"| && |"done"| != |"result"|;
      assert q[1].kind == "progress" || q[1].kind == "done";
      assert q[1..][0] == q[1] && q[1].kind != "result";
      assert q[1..][1..] == [];
      assert ResultCount(q[1..]) == 0;
    }
  }

  /** The events the four callbacks can enqueue; note the 'cancelled' spelling. */
  predicate Produced(e: Event) {
    || (e.kind == "result" && e.data.ResultData?)
    || (e.kind == "progress" && (e.data.StepData? || (e.data.UpscaleData? && e.data.action == "upscaling-started")))
    || (e.kind == "done" && (e.data.NoData? || (e.data.UpscaleData? && e.data.action == "upscaling-done")))
    || (e.kind == "cancelled" && e.data.EmptyData?)
  }

  predicate WellFormedQueue(q: seq<Event>) {
    forall i :: 0 <= i < |q| ==> Produced(q[i])
  }

  lemma ImageDoneEventsProduced(imgpath: string, req: DreamRequest, generated: int, upscaled: int)
    ensures WellFormedQueue(ImageDoneEvents(imgpath, req, generated, upscaled))
  {
  }

  lemma WellFormedAppend(a: seq<Event>, b: seq<Event>)
    requires WellFormedQueue(a) && WellFormedQueue(b)
    ensures WellFormedQueue(a + b)
  {
    forall i | 0 <= i < |a + b|
      ensures Produced((a + b)[i])
    {
      if i < |a| {
        assert (a + b)[i] == a[i];
      } else {
        assert (a + b)[i] == b[i - |a|];
      }
    }
  }

  function ResultCount(q: seq<Event>): nat {
    if q == [] then 0 else (if q[0].kind == "result" then 1 else 0) + ResultCount(q[1..])
  }

  lemma {:induction false} ResultCountAppend(a: seq<Event>, b: seq<Event>)
    ensures ResultCount(a + b) == ResultCount(a) + ResultCount(b)
    decreases |a|
  {
    if a == [] {
      assert a + b == b;
    } else {
      assert (a + b)[1..] == a[1..] + b;
      ResultCountAppend(a[1..], b);
    }
  }

  /** Appending one call's events keeps the queue well formed and adds one result. */
  lemma ImageDoneKeepsCount(before: seq<Event>, imgpath: string, req: DreamRequest, generated: int, upscaled: int)
    requires WellFormedQueue(before)
    ensures var q := before + ImageDoneEvents(imgpath, req, generated, upscaled);
      WellFormedQueue(q) && ResultCount(q) == ResultCount(before) + 1
  {
    var added := ImageDoneEvents(imgpath, req, generated, upscaled);
    ImageDoneAddsOneResult(imgpath, req, generated, upscaled);
    ImageDoneEventsProduced(imgpath, req, generated, upscaled);
    WellFormedAppend(before, added);
    ResultCountAppend(before, added);
  }

  /**
   * The state of one generation request: the two counters the `image_done`
   * closure keeps and the queue the callbacks fill. Every `image_done` call
   * adds exactly one result, so the results queued equal the two counters'
   * sum.
   */
  class GenerationSession {
    var imagesGenerated: nat
    var imagesUpscaled: nat
    var queue: seq<Event>

    ghost predicate Valid()
      reads this
    {
      WellFormedQueue(queue) && ResultCount(queue) == imagesGenerated + imagesUpscaled
    }

    constructor ()
      ensures Valid() && imagesGenerated == 0 && imagesUpscaled == 0 && queue == []
    {
      imagesGenerated := 0;
      imagesUpscaled := 0;
      queue := [];
    }

    method ImageDone(imgpath: string, req: DreamRequest, upscaled: bool)
      requires Valid()
      modifies this
      ensures Valid()
      ensures imagesGenerated == old(imagesGenerated) + (if upscaled then 0 else 1)
      ensures imagesUpscaled == old(imagesUpscaled) + (if upscaled then 1 else 0)
      ensures queue == old(queue) + ImageDoneEvents(imgpath, req, imagesGenerated, imagesUpscaled)
    {
      ghost var before := queue;
      var result := Event("result", ResultData(imgpath, req.seed, req.config));
      queue := queue + [result];
      if upscaled {
        imagesUpscaled := imagesUpscaled + 1;
      } else {
        imagesGenerated := imagesGenerated + 1;
      }
      QueueUpscaleNotice(req);
      assert queue == before + ([result] + UpscaleNotice(req, imagesGenerated, imagesUpscaled));
      ImageDoneKeepsCount(before, imgpath, req, imagesGenerated, imagesUpscaled);
    }

    /** The tail of `image_done`: queue the upscaling notice the counters call for. */
    method QueueUpscaleNotice(req: DreamRequest)
      modifies this
      ensures imagesGenerated == old(imagesGenerated) && imagesUpscaled == old(imagesUpscaled)
      ensures queue == old(queue) + UpscaleNotice(req, imagesGenerated, imagesUpscaled)
    {
      var upscalingRequested := req.upscale || req.gfpganStrength > 0.0;
      if upscalingRequested {
        var action: Option<string> := None;
        if imagesGenerated >= req.iterations {
          if imagesUpscaled < req.iterations {
            action := Some("upscaling-started");
          } else {
            action := Some("upscaling-done");
          }
        }
        if action.Some? {
          var x := imagesUpscaled + 1;
          var notice := Event(NoticeKind(action.value), UpscaleData(action.value, CountString(x, req.iterations)));
          queue := queue + [notice];
        }
      }
    }

    method ImageProgress(step: int, imgpath: string)
      requires Valid()
      modifies this
      ensures Valid()
      ensures imagesGenerated == old(imagesGenerated) && imagesUpscaled == old(imagesUpscaled)
      ensures queue == old(queue) + [Event("progress", StepData(step + 1, imgpath))]
    {
      ResultCountAppend(queue, [Event("progress", StepData(step + 1, imgpath))]);
      queue := queue + [Event("progress", StepData(step + 1, imgpath))];
    }

    method ImageCanceled()
      requires Valid()
      modifies this
      ensures Valid()
      ensures imagesGenerated == old(imagesGenerated) && imagesUpscaled == old(imagesUpscaled)
      ensures queue == old(queue) + [Event("cancelled", EmptyData)]
    {
      ResultCountAppend(queue, [Event("cancelled", EmptyData)]);
      queue := queue + [Event("cancelled", EmptyData)];
    }

    method Done()
      requires Valid()
      modifies this
      ensures Valid()
      ensures imagesGenerated == old(imagesGenerated) && imagesUpscaled == old(imagesUpscaled)
      ensures queue == old(queue) + [Event("done", NoData)]
    {
      ResultCountAppend(queue, [Event("done", NoData)]);
      queue := queue + [Event("done", NoData)];
    }
  }

  // ---- The response generator ----

  /** The loop breaks on 'done' and on 'canceled' (one l). */
  predicate IsTerminator(e: Event) {
    e.kind == "done" || e.kind == "canceled"
  }

  predicate IsStreamed(e: Event) {
    e.kind == "progress" || e.kind == "result"
  }

  /** The lines the generator yields from the queue, before it breaks or waits for more. */
  function Responses(q: seq<Event>): (r: seq<EventData>)
    ensures |r| <= |q|
    ensures |r| <= StopIndex(q) + 1
    ensures q != [] && q[0].kind == "done" ==> r == []
    decreases |q|
  {
    if q == [] then []
    else if IsStreamed(q[0]) then [q[0].data] + Responses(q[1..])
    else if q[0].kind == "canceled" then [q[0].data]
    else if q[0].kind == "done" then []
    else Responses(q[1..])
  }

  /** Reference definition: the payloads of the streamed events, in queue order. */
  function Payloads(q: seq<Event>): seq<EventData>
    decreases |q|
  {
    if q == [] then []
    else (if IsStreamed(q[0]) then [q[0].data] else []) + Payloads(q[1..])
  }

  /** The index of the first terminating event, or the queue's length. */
  function StopIndex(q: seq<Event>): (i: nat)
    ensures i <= |q|
    ensures i < |q| ==> IsTerminator(q[i])
    ensures forall j :: 0 <= j < i ==> !IsTerminator(q[j])
    decreases |q|
  {
    if q == [] then 0 else if IsTerminator(q[0]) then 0 else 1 + StopIndex(q[1..])
  }

  /**
   * The generator yields exactly the streamed payloads before the first
   * terminator, plus the payload of a 'canceled' terminator.
   */
  lemma {:induction false} ResponsesBeforeStop(q: seq<Event>)
    ensures var k := StopIndex(q);
      Responses(q) == Payloads(q[..k]) + (if k < |q| && q[k].kind == "canceled" then [q[k].data] else [])
    decreases |q|
  {
    if q != [] && !IsTerminator(q[0]) {
      var t := q[1..];
      ResponsesBeforeStop(t);
      var k := StopIndex(q);
      assert k == 1 + StopIndex(t);
      var tail := if k < |q| && q[k].kind == "canceled" then [q[k].data] else [];
      assert tail == if k - 1 < |t| && t[k - 1].kind == "canceled" then [t[k - 1].data] else [];
      var head := if IsStreamed(q[0]) then [q[0].data] else [];
      assert q[..k][0] == q[0] && q[..k][1..] == t[..k - 1];
      assert Payloads(q[..k]) == head + Payloads(t[..k - 1]);
      assert Responses(q) == head + Responses(t);
      ConcatAssoc(head, Payloads(t[..k - 1]), tail);
    } else if q != [] {
      assert q[..0] == [];
    }
  }

  /** One step of the generator from position `i` of the queue. */
  lemma ResponsesFrom(q: seq<Event>, i: nat)
    requires i < |q|
    ensures Responses(q[i..]) ==
      if IsStreamed(q[i]) then [q[i].data] + Responses(q[i + 1..])
      else if q[i].kind == "canceled" then [q[i].data]
      else if q[i].kind == "done" then []
      else Responses(q[i + 1..])
    ensures StopIndex(q[i..]) == if IsTerminator(q[i]) then 0 else 1 + StopIndex(q[i + 1..])
  {
    assert q[i..][0] == q[i] && q[i..][1..] == q[i + 1..];
  }

  lemma ConcatAssoc<T>(a: seq<T>, b: seq<T>, c: seq<T>)
    ensures a + b + c == a + (b + c)
  {
  }

  /** The event types the generator tests for are pairwise different. */
  lemma KindsDistinct()
    ensures "progress" != "result" && "progress" != "canceled" && "progress" != "done"
    ensures "result" != "canceled" && "result" != "done" && "canceled" != "done"
  {
    assert "progress"[0] != "canceled"[0];
  }

  /** The loop invariant of the generator carries over the event at position `i`. */
  lemma GeneratorStep(q: seq<Event>, i: nat, lines: seq<EventData>)
    requires i < |q|
    requires lines + Responses(q[i..]) == Responses(q) && StopIndex(q) == i + StopIndex(q[i..])
    ensures IsStreamed(q[i]) ==>
      lines + [q[i].data] + Responses(q[i + 1..]) == Responses(q) && StopIndex(q) == i + 1 + StopIndex(q[i + 1..])
    ensures q[i].kind == "canceled" ==> lines + [q[i].data] == Responses(q) && StopIndex(q) < |q|
    ensures q[i].kind == "done" ==> lines == Responses(q) && StopIndex(q) < |q|
    ensures !IsStreamed(q[i]) && !IsTerminator(q[i]) ==>
      lines + Responses(q[i + 1..]) == Responses(q) && StopIndex(q) == i + 1 + StopIndex(q[i + 1..])
  {
    KindsDistinct();
    ResponsesFrom(q, i);
    if IsStreamed(q[i]) {
      ConcatAssoc(lines, [q[i].data], Responses(q[i + 1..]));
    }
  }

  /**
   * `generateResponse` over a queue: consume events in order, yield the
   * payload of progress and result events, stop at the first 'done'
   * (without yielding it) or 'canceled' (yielding it). `stopped` is false
   * when the queue ran dry, where the generator would wait for more.
   */
  method GenerateResponse(q: seq<Event>) returns (lines: seq<EventData>, stopped: bool)
    ensures lines == Responses(q)
    ensures stopped <==> StopIndex(q) < |q|
  {
    lines := [];
    stopped := false;
    var i := 0;
    while i < |q| && !stopped
      invariant 0 <= i <= |q|
      invariant !stopped ==> lines + Responses(q[i..]) == Responses(q) && StopIndex(q) == i + StopIndex(q[i..])
      invariant stopped ==> lines == Responses(q) && StopIndex(q) < |q|
      decreases |q| - i, !stopped
    {
      var event := q[i];
      GeneratorStep(q, i, lines);
      if event.kind == "progress" {
        lines := lines + [event.data];
      } else if event.kind == "result" {
        lines := lines + [event.data];
      } else if event.kind == "canceled" {
        lines := lines + [event.data];
        stopped := true;
      } else if event.kind == "done" {
        stopped := true;
      }
      if !stopped {
        i := i + 1;
      }
    }
    if !stopped {
      assert q[i..] == [];
    }
  }

  /** An event spelt 'cancelled', which is what the cancel callback enqueues, neither streams nor stops. */
  lemma {:induction false} CancelledEventIgnored(a: seq<Event>, d: EventData, b: seq<Event>)
    ensures Responses(a + [Event("cancelled", d)] + b) == Responses(a + b)
    decreases |a|
  {
    if a == [] {
      assert a + [Event("cancelled", d)] + b == [Event("cancelled", d)] + b;
      assert ([Event("cancelled", d)] + b)[1..] == b;
      assert ([Event("cancelled", d)] + b)[0] == Event("cancelled", d);
      assert a + b == b;
    } else {
      assert (a + [Event("cancelled", d)] + b)[1..] == a[1..] + [Event("cancelled", d)] + b;
      assert (a + b)[1..] == a[1..] + b;
      assert (a + [Event("cancelled", d)] + b)[0] == a[0] == (a + b)[0];
      CancelledEventIgnored(a[1..], d, b);
    }
  }

  /** The first 'done' ends the stream, whatever follows it, and is itself not yielded. */
  lemma {:induction false} DoneEndsStream(a: seq<Event>, d: EventData, b: seq<Event>)
    requires forall i :: 0 <= i < |a| ==> !IsTerminator(a[i])
    ensures Responses(a + [Event("done", d)] + b) == Payloads(a)
    decreases |a|
  {
    if a == [] {
      assert a + [Event("done", d)] + b == [Event("done", d)] + b;
    } else {
      assert (a + [Event("done", d)] + b)[1..] == a[1..] + [Event("done", d)] + b;
      assert (a + [Event("done", d)] + b)[0] == a[0];
      DoneEndsStream(a[1..], d, b);
    }
  }

  /**
   * The upscaling-done notice travels as a 'done' event, so the generator
   * stops at it and never yields it.
   */
  lemma {:induction false} UpscalingDoneNeverStreamed(q: seq<Event>)
    requires WellFormedQueue(q)
    ensures forall k :: 0 <= k < |Responses(q)| ==>
      !(Responses(q)[k].UpscaleData? && Responses(q)[k].action == "upscaling-done")
    decreases |q|
  {
    if q != [] {
      assert Produced(q[0]);
      UpscalingDoneNeverStreamed(q[1..]);
    }
  }
}
