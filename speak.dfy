/**
 * The background speech client of `speak.py`: a worker thread that speaks
 * each string appearing at the head of a shared deque, and the
 * start / stop / restart controls over that thread.
 */
module Speak {

  /**
   * A worker thread, known only by its identity: each `new Worker()` is a
   * thread no one has seen before.
   */
  class Worker {
    constructor ()
    {
    }
  }

  function Min(a: nat, b: nat): nat {
    if a <= b then a else b
  }

  class SpeechClient {
    /** The shared deque `_queue`; the producer appends, the worker pops the head. */
    var queue: seq<string>
    var profileTime: bool
    /** `_thread`: the current worker, or `None`. */
    var thread: Worker?
    /** `_kill_flag`: set when the workers are asked to stop. */
    var killFlag: bool
    /** Every string `_speak` has been handed, in order. */
    var spoken: seq<string>
    /** The workers started and not yet joined. */
    ghost var live: set<Worker>

    ghost predicate Valid()
      reads this
    {
      thread != null ==> thread in live
    }

    /** `__init__`: no worker yet, and the kill flag clear. */
    constructor (queue: seq<string>, profileTime: bool)
      ensures Valid()
      ensures this.queue == queue && this.profileTime == profileTime
      ensures thread == null && !killFlag && spoken == [] && live == {}
    {
      this.queue := queue;
      this.profileTime := profileTime;
      thread := null;
      killFlag := false;
      spoken := [];
      live := {};
    }

    /**
     * `start(force)`: without a worker, or when forced, clear the kill flag and
     * start a fresh worker; a forced start leaves the previous worker running,
     * neither signalled nor joined.
     */
    method Start(force: bool)
      requires Valid()
      modifies this
      ensures Valid()
      ensures old(thread) == null || force ==>
        && thread != null && fresh(thread)
        && !killFlag
        && live == old(live) + {thread}
      ensures old(thread) != null && !force ==>
        thread == old(thread) && killFlag == old(killFlag) && live == old(live)
      ensures queue == old(queue) && spoken == old(spoken) && profileTime == old(profileTime)
    {
      if thread == null || force {
        killFlag := false;
        thread := new Worker();
        live := live + {thread};
      }
    }

    /**
     * `stop()`: with a worker, set the kill flag and join it (the joined worker
     * is gone); without one, change nothing.
     */
    method Stop()
      requires Valid()
      modifies this
      ensures Valid() && thread == null
      ensures old(thread) != null ==> killFlag && live == old(live) - {old(thread)}
      ensures old(thread) == null ==> killFlag == old(killFlag) && live == old(live)
      ensures queue == old(queue) && spoken == old(spoken) && profileTime == old(profileTime)
    {
      if thread != null {
        killFlag := true;
        live := live - {thread};
        thread := null;
      }
    }

    /** `restart()`: stop, then start by force; from any state a fresh worker runs with the flag clear. */
    method Restart()
      requires Valid()
      modifies this
      ensures Valid()
      ensures thread != null && fresh(thread) && !killFlag
      ensures old(thread) != null ==> old(thread) !in live
      ensures live == (if old(thread) == null then old(live) else old(live) - {old(thread)}) + {thread}
      ensures queue == old(queue) && spoken == old(spoken) && profileTime == old(profileTime)
    {
      Stop();
      Start(true);
    }

    /**
     * One pass of the worker: if the deque is empty, one sleep of the wait
     * loop, which changes nothing; otherwise pop the head and speak it.
     */
    method WorkerPass() returns (spoke: bool)
      modifies this`queue, this`spoken
      ensures spoke == (old(queue) != [])
      ensures spoke ==> queue == old(queue)[1..] && spoken == old(spoken) + [old(queue)[0]]
      ensures !spoke ==> queue == old(queue) && spoken == old(spoken)
    {
      spoke := queue != [];
      if spoke {
        var head := queue[0];
        queue := queue[1..];
        spoken := spoken + [head];
      }
    }

    /**
     * `_thread_function`, for `turns` passes of the scheduler: while the kill
     * flag is clear, wait for the deque and speak its head. The items spoken are
     * exactly the first ones of the deque, in order, and the rest stays put.
     */
    method ThreadFunction(turns: nat)
      modifies this`queue, this`spoken
      ensures var k := if killFlag then 0 else Min(turns, |old(queue)|);
        spoken == old(spoken) + old(queue)[..k] && queue == old(queue)[k..]
    {
      var t := 0;
      ghost var done := 0;
      while t < turns && !killFlag
        invariant 0 <= t <= turns
        invariant killFlag ==> t == 0
        invariant done == Min(t, |old(queue)|)
        invariant spoken == old(spoken) + old(queue)[..done] && queue == old(queue)[done..]
      {
        var spoke := WorkerPass();
        if spoke {
          assert old(queue)[..done + 1] == old(queue)[..done] + [old(queue)[done]];
          done := done + 1;
        }
        t := t + 1;
      }
    }
  }

  /**
   * Two stops in a row end in the state one stop gives: the worker, if any,
   * is joined once, and the second call changes nothing.
   */
  method StopTwice(c: SpeechClient)
    requires c.Valid()
    modifies c
    ensures c.Valid() && c.thread == null
    ensures c.killFlag == (old(c.thread) != null || old(c.killFlag))
    ensures c.live == if old(c.thread) == null then old(c.live) else old(c.live) - {old(c.thread)}
    ensures c.queue == old(c.queue) && c.spoken == old(c.spoken) && c.profileTime == old(c.profileTime)
  {
    c.Stop();
    ghost var afterFirst := (c.thread, c.killFlag, c.live);
    c.Stop();
    assert (c.thread, c.killFlag, c.live) == afterFirst;
  }

  /** A client fed `["a", "b", "c"]` and run for three passes speaks them in that order. */
  method SpeaksInEnqueueOrder(a: string, b: string, c: string) returns (spoken: seq<string>)
    ensures spoken == [a, b, c]
  {
    var client := new SpeechClient([a, b, c], false);
    client.Start(false);
    client.ThreadFunction(3);
    spoken := client.spoken;
  }
}
