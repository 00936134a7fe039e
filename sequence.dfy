/** `JMAP.Sequence`: a runner of asynchronous steps. Steps are queued with
    `then`; each `go` runs the next one, handing it the data it was given
    (and a bound `go` to continue with); `afterwards( index, length )` is
    called once the last step has started, or when the run is cancelled.

    As for the authority, the state is given twice: the datatype `SeqState`,
    whose member functions specify each operation, and the class `Sequence`,
    whose methods follow the JavaScript ones and are proved to implement
    them. A step is known by its identity; what it does when run (and when
    it calls the `go` it is handed) is its own business, so running it is
    recorded as an event, as are the calls of `afterwards` and the `cancel`
    event fired. */
module Sequences {
  import opened Json

  /** Identity of a step function. */
  type StepId = nat

  datatype Event =
    // fn( go.bind( this ), data )
    | Ran(step: StepId, data: Json)
    // this.afterwards( index, length )
    | Afterwards(index: nat, length: nat)
    // this.fire( 'cancel' )
    | Cancelled

  datatype SeqState = SeqState(queue: seq<StepId>, index: nat, length: nat, events: seq<Event>) {
    /** `length` never counts more steps than are queued, so the step `go`
        reads at `index < length` is always there. */
    predicate Inv() {
      length <= |queue|
    }

    /** Every step has been started, or the run was cancelled. */
    predicate Finished() {
      length <= index
    }

    /** `then( fn )`: queue the step and count it. */
    function Then(fn: StepId): (r: SeqState)
      requires Inv()
      ensures r.Inv()
    {
      this.(queue := queue + [fn], length := length + 1)
    }

    /** `go( data )`: when a step is left, move past it, run it, and call
        `afterwards` if it was the last. */
    function Go(data: Json): (r: SeqState)
      requires Inv()
      ensures r.Inv()
    {
      if index < length then
        var next := index + 1;
        this.(index := next,
              events := events + [Ran(queue[index], data)]
                        + (if next == length then [Afterwards(next, length)] else []))
      else this
    }

    /** `cancel()`: when a step is left, drop the rest, call `afterwards`
        with how far the run got, and fire `cancel`. */
    function Cancel(): (r: SeqState)
      requires Inv()
      ensures r.Inv()
    {
      if index < length then this.(length := 0, events := events + [Afterwards(index, length), Cancelled])
      else this
    }
  }

  /** `new JMAP.Sequence()`. */
  const Initial: SeqState := SeqState([], 0, 0, [])

  /** The steps queued in order with `then`. */
  function ThenAll(s: SeqState, fns: seq<StepId>): (r: SeqState)
    requires s.Inv()
    ensures r.Inv()
    decreases |fns|
  {
    if fns == [] then s else ThenAll(s.Then(fns[0]), fns[1..])
  }

  /** `go` called once with each of `ds`, in order. */
  function GoAll(s: SeqState, ds: seq<Json>): (r: SeqState)
    requires s.Inv()
    ensures r.Inv()
    decreases |ds|
  {
    if ds == [] then s else GoAll(s.Go(ds[0]), ds[1..])
  }

  /** The events of running `fns[k]` with `ds[k]` for each `k`. */
  function Runs(fns: seq<StepId>, ds: seq<Json>): (evs: seq<Event>)
    requires |fns| == |ds|
    ensures |evs| == |fns|
  {
    if fns == [] then [] else [Ran(fns[0], ds[0])] + Runs(fns[1..], ds[1..])
  }

  /** The `k`th event is the `k`th step run with the `k`th data. */
  lemma {:induction false} RunsAt(fns: seq<StepId>, ds: seq<Json>, k: nat)
    requires |fns| == |ds| && k < |fns|
    ensures Runs(fns, ds)[k] == Ran(fns[k], ds[k])
  {
    if k > 0 {
      RunsAt(fns[1..], ds[1..], k - 1);
    }
  }

  /** Queuing steps appends them to the queue and counts them, and changes
      nothing else. */
  lemma {:induction false} ThenAllQueues(s: SeqState, fns: seq<StepId>)
    requires s.Inv()
    ensures ThenAll(s, fns) == s.(queue := s.queue + fns, length := s.length + |fns|)
    decreases |fns|
  {
    if fns == [] {
      assert s.queue + fns == s.queue;
    } else {
      ThenAllQueues(s.Then(fns[0]), fns[1..]);
      assert s.queue + [fns[0]] + fns[1..] == s.queue + fns;
    }
  }

  /** The events `GoAll( s, ds )` adds when no more calls are made than
      steps are left: the next `|ds|` steps, then `afterwards` if the last
      step was reached. */
  function GoEvents(s: SeqState, ds: seq<Json>): seq<Event>
    requires s.Inv() && s.index + |ds| <= s.length
  {
    var next := s.index + |ds|;
    Runs(s.queue[s.index..next], ds)
    + (if |ds| > 0 && next == s.length then [Afterwards(s.length, s.length)] else [])
  }

  /** One step of `GoEvents`: the step at `index`, then the events of going
      on from the next. */
  lemma GoEventsStep(s: SeqState, ds: seq<Json>, t: SeqState)
    requires s.Inv() && s.index + |ds| <= s.length && |ds| > 1
    requires t.queue == s.queue && t.index == s.index + 1 && t.length == s.length
    ensures GoEvents(s, ds) == [Ran(s.queue[s.index], ds[0])] + GoEvents(t, ds[1..])
  {
    var steps := s.queue[s.index..s.index + |ds|];
    assert steps[0] == s.queue[s.index];
    assert steps[1..] == s.queue[s.index + 1..s.index + |ds|];
  }

  /** `GoEvents` of one call is what `go` adds. */
  lemma GoOnce(s: SeqState, ds: seq<Json>)
    requires s.Inv() && s.index < s.length && |ds| == 1
    ensures s.Go(ds[0]).events == s.events + GoEvents(s, ds)
  {
    var e := Ran(s.queue[s.index], ds[0]);
    var last: seq<Event> := if s.index + 1 == s.length then [Afterwards(s.length, s.length)] else [];
    assert s.queue[s.index..s.index + 1] == [s.queue[s.index]];
    assert Runs([s.queue[s.index]], ds) == [e];
    assert GoEvents(s, ds) == [e] + last;
    assert s.Go(ds[0]).events == s.events + [e] + last;
  }

  /** Going on from a step that is not the last: the step runs and the
      rest of the calls go on from the next. */
  lemma GoAllStep(s: SeqState, ds: seq<Json>) returns (t: SeqState)
    requires s.Inv() && s.index + |ds| <= s.length && |ds| > 1
    ensures t == s.(index := s.index + 1, events := s.events + [Ran(s.queue[s.index], ds[0])])
    ensures t.Inv() && GoAll(s, ds) == GoAll(t, ds[1..])
  {
    t := s.Go(ds[0]);
  }

  /** Going `|ds|` times from step `index`, with no more calls than steps
      left, runs the next `|ds|` queued steps in order, each with its own
      data, and calls `afterwards( length, length )` just after the last
      step has started. */
  lemma {:induction false} GoAllRuns(s: SeqState, ds: seq<Json>)
    requires s.Inv() && s.index + |ds| <= s.length
    ensures var r := GoAll(s, ds);
      && r.queue == s.queue && r.length == s.length && r.index == s.index + |ds|
      && r.events == s.events + GoEvents(s, ds)
    decreases |ds|
  {
    if ds == [] {
      assert GoEvents(s, ds) == [];
    } else if |ds| == 1 {
      assert GoAll(s.Go(ds[0]), ds[1..]) == s.Go(ds[0]);
      GoOnce(s, ds);
    } else {
      var t := GoAllStep(s, ds);
      GoAllRuns(t, ds[1..]);
      GoEventsStep(s, ds, t);
      var e := Ran(s.queue[s.index], ds[0]);
      var later := GoEvents(t, ds[1..]);
      assert s.events + [e] + later == s.events + ([e] + later);
    }
  }

  /** A new sequence given `fns` and then gone through with as many data
      runs every step once, in order, each with its data, and calls
      `afterwards` once at the end with the number of steps twice. */
  lemma RunToTheEnd(fns: seq<StepId>, ds: seq<Json>)
    requires |fns| == |ds| > 0
    ensures var r := GoAll(ThenAll(Initial, fns), ds);
      r.Finished() && r.events == Runs(fns, ds) + [Afterwards(|fns|, |fns|)]
  {
    ThenAllQueues(Initial, fns);
    var s := ThenAll(Initial, fns);
    assert s.queue == fns && s.queue[0..|ds|] == fns;
    GoAllRuns(s, ds);
    assert [] + GoEvents(s, ds) == GoEvents(s, ds);
  }

  /** Once every step has started, or the run was cancelled, `go` and
      `cancel` do nothing: `afterwards` is not called a second time. */
  lemma FinishedIsInert(s: SeqState, data: Json)
    requires s.Inv() && s.Finished()
    ensures s.Go(data) == s && s.Cancel() == s
  {
  }

  /** Cancelling a run that still has steps to go stops it: `afterwards` is
      told how many steps were started out of how many, and no step runs
      afterwards. */
  lemma CancelStops(s: SeqState, ds: seq<Json>)
    requires s.Inv() && !s.Finished()
    ensures var c := s.Cancel();
      && c.Finished() && c.queue == s.queue && c.index == s.index
      && c.events == s.events + [Afterwards(s.index, s.length), Cancelled]
      && GoAll(c, ds) == c
  {
    var c := s.Cancel();
    GoAllInert(c, ds);
  }

  lemma {:induction false} GoAllInert(s: SeqState, ds: seq<Json>)
    requires s.Inv() && s.Finished()
    ensures GoAll(s, ds) == s
    decreases |ds|
  {
    if ds != [] {
      GoAllInert(s.Go(ds[0]), ds[1..]);
    }
  }

  /** `cancel` sets `length` to 0 and leaves the queue as it is, so a step
      queued after cancelling a run that had not started is counted as the
      first step, and `go` then runs the step queued first, not the new
      one. */
  lemma CancelKeepsOldSteps(a: StepId, b: StepId, data: Json)
    requires a != b
    ensures Initial.Then(a).Cancel().Then(b).Go(data).events
         == [Afterwards(0, 1), Cancelled, Ran(a, data), Afterwards(1, 1)]
  {
  }

  /** The JavaScript object. */
  class Sequence {
    var queue: seq<StepId>
    var index: nat
    var length: nat
    var events: seq<Event>

    function State(): SeqState
      reads this
    {
      SeqState(queue, index, length, events)
    }

    predicate Valid()
      reads this
    {
      State().Inv()
    }

    /** `init()`. */
    constructor ()
      ensures State() == Initial && Valid()
    {
      queue := [];
      index := 0;
      length := 0;
      events := [];
    }

    /** `then( fn )`. */
    method Then(fn: StepId)
      requires Valid()
      modifies this
      ensures Valid() && State() == old(State()).Then(fn)
    {
      queue := queue + [fn];
      length := length + 1;
    }

    /** `go( data )`: `index` and `length` are read once at the start, so
        the test for the last step uses the values from before the step
        ran. */
    method Go(data: Json)
      requires Valid()
      modifies this
      ensures Valid() && State() == old(State()).Go(data)
    {
      var i := index;
      var n := length;
      if i < n {
        var fn := queue[i];
        i := i + 1;
        index := i;
        events := events + [Ran(fn, data)];
        if i == n {
          events := events + [Afterwards(i, n)];
        }
      }
    }

    /** `cancel()`. */
    method Cancel()
      requires Valid()
      modifies this
      ensures Valid() && State() == old(State()).Cancel()
    {
      var i := index;
      var n := length;
      if i < n {
        length := 0;
        events := events + [Afterwards(i, n)];
        events := events + [Cancelled];
      }
    }
  }
}
