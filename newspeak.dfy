/**
 * The utterance dispatcher of `newspeak.py`: a loop that moves items from the
 * speech queue into a local list and hands them to the speech engine one at
 * a time, waiting for the finished-utterance callback when an item asks for it.
 */
module NewSpeak {

  import opened Wrappers

  /** What `output_text` and `all_text_complete` put on the speech queue. */
  datatype Item = Utterance(text: string, waitFinish: bool) | Terminate

  /** The calls the loop makes on the speech engine, in order. */
  datatype EngineCall = Stop | Say(text: string) | Iterate | EndLoop

  /** The speech queue `sayQ` as the producer side fills it. */
  class SayQueue {
    var items: seq<Item>

    constructor ()
      ensures items == []
    {
      items := [];
    }

    /** `output_text(text, waitFinish)`: enqueue the pair `(text, waitFinish)`. */
    method OutputText(text: string, waitFinish: bool)
      modifies this
      ensures items == old(items) + [Utterance(text, waitFinish)]
    {
      items := items + [Utterance(text, waitFinish)];
    }

    /** `all_text_complete()`: enqueue the string marker `"terminate"`. */
    method AllTextComplete()
      modifies this
      ensures items == old(items) + [Terminate]
    {
      items := items + [Terminate];
    }
  }

  // ---------------------------------------------------------------------------
  // Specification of one iteration
  // ---------------------------------------------------------------------------

  /** The loop's own state: the list `local_queue` and the flag `ended`. */
  datatype Digester = Digester(localQueue: seq<Item>, ended: bool)

  /** The state the loop starts in: nothing queued and no utterance running. */
  const Initial: Digester := Digester([], true)

  datatype Outcome =
    | Continue(next: Digester, calls: seq<EngineCall>)
    | Break(last: Digester)

  /** `local_queue` after the item received this iteration, if any, is appended. */
  function Received(d: Digester, incoming: Option<Item>): seq<Item> {
    if incoming.Some? then d.localQueue + [incoming.value] else d.localQueue
  }

  /** The texts of the utterances among `items`, in order. */
  function Texts(items: seq<Item>): seq<string> {
    if items == [] then []
    else (if items[0].Utterance? then [items[0].text] else []) + Texts(items[1..])
  }

  /** The texts handed to `say`, in order. */
  function SaidTexts(calls: seq<EngineCall>): seq<string> {
    if calls == [] then []
    else (if calls[0].Say? then [calls[0].text] else []) + SaidTexts(calls[1..])
  }

  /** The items a run of `get` calls delivered, skipping the empty polls. */
  function Arrivals(incoming: seq<Option<Item>>): seq<Item> {
    if incoming == [] then []
    else (if incoming[0].Some? then [incoming[0].value] else []) + Arrivals(incoming[1..])
  }

  lemma {:induction false} TextsAppend(a: seq<Item>, b: seq<Item>)
    ensures Texts(a + b) == Texts(a) + Texts(b)
  {
    if a == [] {
      assert a + b == b;
    } else {
      assert (a + b)[0] == a[0] && (a + b)[1..] == a[1..] + b;
      TextsAppend(a[1..], b);
    }
  }

  lemma {:induction false} SaidTextsAppend(a: seq<EngineCall>, b: seq<EngineCall>)
    ensures SaidTexts(a + b) == SaidTexts(a) + SaidTexts(b)
  {
    if a == [] {
      assert a + b == b;
    } else {
      assert (a + b)[0] == a[0] && (a + b)[1..] == a[1..] + b;
      SaidTextsAppend(a[1..], b);
    }
  }

  lemma SaidTextsOfDispatch(t: string)
    ensures SaidTexts([Stop, Say(t), Iterate]) == [t]
  {
    assert SaidTexts([Iterate]) == [];
    assert [Say(t), Iterate][1..] == [Iterate];
    assert SaidTexts([Say(t), Iterate]) == [t];
    assert [Stop, Say(t), Iterate][1..] == [Say(t), Iterate];
  }

  /**
   * One pass of the `while True` body (without the callback): take in the
   * received item, and if the list is non-empty and the last utterance has
   * ended, stop at the terminate marker or say and pop the head.
   */
  function Step(d: Digester, incoming: Option<Item>): Outcome {
    var q := Received(d, incoming);
    if |q| > 0 && d.ended then
      if q[0] == Terminate then Break(Digester(q, d.ended))
      else Continue(Digester(q[1..], !q[0].waitFinish), [Stop, Say(q[0].text), Iterate])
    else Continue(Digester(q, d.ended), [Iterate])
  }

  /**
   * Each iteration keeps FIFO order: what it says, followed by what is left in
   * the list, is the list it received; and the exit leaves the list untouched.
   */
  lemma StepKeepsOrder(d: Digester, incoming: Option<Item>)
    ensures Step(d, incoming).Break? ==> Step(d, incoming).last == Digester(Received(d, incoming), d.ended)
    ensures var o := Step(d, incoming); o.Continue? ==>
      SaidTexts(o.calls) + Texts(o.next.localQueue) == Texts(Received(d, incoming))
  {
    var q := Received(d, incoming);
    if |q| > 0 && d.ended && q[0] != Terminate {
      SaidTextsOfDispatch(q[0].text);
      assert q == [q[0]] + q[1..];
      TextsAppend([q[0]], q[1..]);
    } else {
      assert SaidTexts([Iterate]) == [];
    }
  }

  /** The `finished-utterance` callback `on_end`. */
  function OnEnd(d: Digester): (e: Digester)
    ensures e.ended && e.localQueue == d.localQueue
  {
    d.(ended := true)
  }

  /** Each iteration appends at most the one received item, and only at the tail. */
  lemma StepAppendsAtTail(d: Digester, incoming: Option<Item>)
    ensures Step(d, incoming).Continue? ==>
      var q := Step(d, incoming).next.localQueue;
      q == Received(d, incoming) || [Received(d, incoming)[0]] + q == Received(d, incoming)
    ensures |Received(d, incoming)| <= |d.localQueue| + 1
    ensures Received(d, incoming)[..|d.localQueue|] == d.localQueue
  {
  }

  /** Nothing is said or popped unless the list is non-empty and `ended` holds. */
  lemma StepWaitsUntilEnded(d: Digester, incoming: Option<Item>)
    requires !d.ended || Received(d, incoming) == []
    ensures Step(d, incoming) == Continue(Digester(Received(d, incoming), d.ended), [Iterate])
  {
  }

  /** At the terminate marker the loop exits, without saying or popping anything. */
  lemma StepStopsAtTerminate(d: Digester, incoming: Option<Item>)
    requires d.ended && Received(d, incoming) != [] && Received(d, incoming)[0] == Terminate
    ensures Step(d, incoming).Break?
    ensures Step(d, incoming).last.localQueue == Received(d, incoming)
  {
  }

  /**
   * Otherwise exactly the head is said and removed, and `ended` becomes
   * `not waitFinish` of that head.
   */
  lemma StepSpeaksHead(d: Digester, incoming: Option<Item>)
    requires d.ended && Received(d, incoming) != [] && Received(d, incoming)[0].Utterance?
    ensures var head := Received(d, incoming)[0];
      && Step(d, incoming).Continue?
      && SaidTexts(Step(d, incoming).calls) == [head.text]
      && Step(d, incoming).next.localQueue == Received(d, incoming)[1..]
      && Step(d, incoming).next.ended == !head.waitFinish
  {
    SaidTextsOfDispatch(Received(d, incoming)[0].text);
  }

  // ---------------------------------------------------------------------------
  // Specification of a whole run
  // ---------------------------------------------------------------------------

  datatype RunResult = RunResult(last: Digester, log: seq<EngineCall>, terminated: bool)

  /**
   * The loop from state `d`, where `incoming[i]` is what `sayQ.get(False)`
   * returned in iteration `i` (`None` for an empty queue) and `finished[i]`
   * says whether `on_end` fired during that iteration's engine calls. The run
   * ends at the terminate marker with `endLoop`, or when the script runs out.
   */
  function Run(d: Digester, incoming: seq<Option<Item>>, finished: seq<bool>): RunResult
    requires |incoming| == |finished|
    decreases |incoming|
  {
    if incoming == [] then RunResult(d, [], false)
    else match Step(d, incoming[0])
      case Break(last) => RunResult(last, [EndLoop], true)
      case Continue(next, calls) =>
        var after := if finished[0] then OnEnd(next) else next;
        var rest := Run(after, incoming[1..], finished[1..]);
        RunResult(rest.last, calls + rest.log, rest.terminated)
  }

  /** One iteration of `Run`, unfolded. */
  lemma RunUnfold(d: Digester, incoming: seq<Option<Item>>, finished: seq<bool>)
    requires |incoming| == |finished| && incoming != []
    ensures Step(d, incoming[0]).Break? ==>
      Run(d, incoming, finished) == RunResult(Step(d, incoming[0]).last, [EndLoop], true)
    ensures Step(d, incoming[0]).Continue? ==>
      var next := Step(d, incoming[0]).next;
      var after := if finished[0] then OnEnd(next) else next;
      var rest := Run(after, incoming[1..], finished[1..]);
      Run(d, incoming, finished) == RunResult(rest.last, Step(d, incoming[0]).calls + rest.log, rest.terminated)
  {
  }

  /** Moving one Continue iteration of a run from the pending part to the finished prefix. */
  lemma RunAdvance(whole: RunResult, prefix: seq<EngineCall>, d: Digester,
                   incoming: seq<Option<Item>>, finished: seq<bool>, after: Digester)
    requires |incoming| == |finished| && incoming != []
    requires Step(d, incoming[0]).Continue?
    requires after == if finished[0] then OnEnd(Step(d, incoming[0]).next) else Step(d, incoming[0]).next
    requires var r := Run(d, incoming, finished); whole == RunResult(r.last, prefix + r.log, r.terminated)
    ensures var r := Run(after, incoming[1..], finished[1..]);
      whole == RunResult(r.last, (prefix + Step(d, incoming[0]).calls) + r.log, r.terminated)
  {
    RunUnfold(d, incoming, finished);
    var r := Run(after, incoming[1..], finished[1..]);
    var calls := Step(d, incoming[0]).calls;
    assert prefix + (calls + r.log) == (prefix + calls) + r.log;
  }

  lemma ArrivalsCons(incoming: seq<Option<Item>>)
    requires incoming != []
    ensures Arrivals(incoming) ==
      (if incoming[0].Some? then [incoming[0].value] else []) + Arrivals(incoming[1..])
  {
  }

  lemma PrefixExtend(c: seq<string>, a: seq<string>, b: seq<string>)
    requires a <= b
    ensures c + a <= c + b
  {
    assert (c + b)[..|c + a|] == c + a;
  }

  /** Gluing one step's said texts onto what the rest of a run says keeps the prefix relation. */
  lemma ChainPrefix(said: seq<string>, later: seq<string>, queued: seq<string>,
                    arriving: seq<string>, pending: seq<string>, first: seq<string>)
    requires later <= queued + arriving
    requires said + queued == pending + first
    ensures said + later <= pending + first + arriving
  {
    PrefixExtend(said, later, queued + arriving);
    assert said + (queued + arriving) == (said + queued) + arriving;
  }

  /**
   * FIFO order: the texts said over a run are a prefix of the texts of the
   * utterances pending at the start followed by those received, in order.
   */
  lemma {:induction false} RunSpeaksInOrder(d: Digester, incoming: seq<Option<Item>>, finished: seq<bool>)
    requires |incoming| == |finished|
    ensures SaidTexts(Run(d, incoming, finished).log) <= Texts(d.localQueue) + Texts(Arrivals(incoming))
    decreases |incoming|
  {
    if incoming != [] {
      var pending := Texts(d.localQueue);
      var first := if incoming[0].Some? then [incoming[0].value] else [];
      ArrivalsCons(incoming);
      TextsAppend(first, Arrivals(incoming[1..]));
      TextsAppend(d.localQueue, first);
      assert Received(d, incoming[0]) == d.localQueue + first;
      var total := pending + Texts(Arrivals(incoming));
      assert total == pending + Texts(first) + Texts(Arrivals(incoming[1..]));
      var o := Step(d, incoming[0]);
      StepKeepsOrder(d, incoming[0]);
      if o.Break? {
        assert Run(d, incoming, finished).log == [EndLoop];
        assert SaidTexts([EndLoop]) == [];
      } else {
        var next, calls := o.next, o.calls;
        var after := if finished[0] then OnEnd(next) else next;
        var rest := Run(after, incoming[1..], finished[1..]);
        assert Run(d, incoming, finished).log == calls + rest.log;
        RunSpeaksInOrder(after, incoming[1..], finished[1..]);
        SaidTextsAppend(calls, rest.log);
        assert Texts(Received(d, incoming[0])) == pending + Texts(first);
        ChainPrefix(SaidTexts(calls), SaidTexts(rest.log), Texts(next.localQueue),
                    Texts(Arrivals(incoming[1..])), pending, Texts(first));
      }
    }
  }

  /**
   * While an utterance that asked to be waited for is still running and the
   * callback does not fire, nothing is said and the loop does not exit, even
   * with the terminate marker at the head.
   */
  lemma {:induction false} NoSayUntilOnEnd(d: Digester, incoming: seq<Option<Item>>, finished: seq<bool>)
    requires |incoming| == |finished| && !d.ended
    requires forall i :: 0 <= i < |finished| ==> !finished[i]
    ensures SaidTexts(Run(d, incoming, finished).log) == []
    ensures !Run(d, incoming, finished).terminated
    ensures !Run(d, incoming, finished).last.ended
    decreases |incoming|
  {
    if incoming != [] {
      var next := Digester(Received(d, incoming[0]), false);
      assert Step(d, incoming[0]) == Continue(next, [Iterate]);
      NoSayUntilOnEnd(next, incoming[1..], finished[1..]);
      SaidTextsAppend([Iterate], Run(next, incoming[1..], finished[1..]).log);
    }
  }

  // ---------------------------------------------------------------------------
  // The loop itself
  // ---------------------------------------------------------------------------

  /**
   * `speech_digester_loop`, driven by a script of `get` results and callback
   * firings; returns the engine calls made and whether the loop exited at the
   * terminate marker.
   */
  method SpeechDigesterLoop(incoming: seq<Option<Item>>, finished: seq<bool>)
    returns (log: seq<EngineCall>, terminated: bool)
    requires |incoming| == |finished|
    ensures var r := Run(Initial, incoming, finished); log == r.log && terminated == r.terminated
    ensures SaidTexts(log) <= Texts(Arrivals(incoming))
  {
    var ended := true;
    var localQueue: seq<Item> := [];
    log := [];
    terminated := false;
    var i := 0;
    while i < |incoming|
      invariant 0 <= i <= |incoming| && !terminated
      invariant var r := Run(Digester(localQueue, ended), incoming[i..], finished[i..]);
        Run(Initial, incoming, finished) == RunResult(r.last, log + r.log, r.terminated)
    {
      ghost var before := Digester(localQueue, ended);
      ghost var prefix := log;
      ghost var o := Step(before, incoming[i]);
      assert incoming[i..][0] == incoming[i] && incoming[i..][1..] == incoming[i + 1..];
      assert finished[i..][0] == finished[i] && finished[i..][1..] == finished[i + 1..];
      var nextUtterance := incoming[i];
      if nextUtterance.Some? {
        localQueue := localQueue + [nextUtterance.value];
      }
      assert localQueue == Received(before, incoming[i]);
      ghost var calls := [Iterate];
      if |localQueue| > 0 && ended {
        if localQueue[0] == Terminate {
          assert o.Break?;
          terminated := true;
          break;
        }
        calls := [Stop, Say(localQueue[0].text), Iterate];
        ended := !localQueue[0].waitFinish;
        log := log + [Stop, Say(localQueue[0].text)];
        localQueue := localQueue[1..];
      }
      log := log + [Iterate];
      assert log == prefix + calls;
      assert o == Continue(Digester(localQueue, ended), calls);
      if finished[i] {
        ended := true;
      }
      RunAdvance(Run(Initial, incoming, finished), prefix, before, incoming[i..], finished[i..],
                 Digester(localQueue, ended));
      i := i + 1;
    }
    if terminated {
      log := log + [EndLoop];
    }
    RunSpeaksInOrder(Initial, incoming, finished);
    assert Texts(Initial.localQueue) == [];
    assert Texts(Initial.localQueue) + Texts(Arrivals(incoming)) == Texts(Arrivals(incoming));
  }
}
