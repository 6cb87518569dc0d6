/** What a run of the controller's loop handled, and what it kept of it. */
module RunLog {
  import opened DialogueTypes
  import opened DialogueReducer
  import opened ControllerModel
  import opened TimerLiveness
  import opened ControllerLaws
  import opened Text

  /** An observation taken off the queue, and the state it met. */
  datatype Handled = Handled(obs: Observation, fsm: FsmState, ds: DialogueState)

  /** The message it leaves: a user message that meets a turn under way, or that the reducer takes. */
  function Kept(h: Handled): seq<Fragment> {
    var busy := h.fsm == FsmState.Thinking || h.fsm == Routing || h.fsm == Acting;
    var open := h.fsm == Listening || h.fsm == FsmState.Idle;
    if h.obs.kind == ObservationKind.UserMessage && (busy || (open && Takes(h.ds))) then [FragmentOf(h.obs, 0)] else []
  }

  /** A system event that is handed to the reducer. */
  predicate StartsEvent(h: Handled) {
    h.obs.kind == ObservationKind.SystemEvent && (h.fsm == Listening || h.fsm == FsmState.Idle)
  }

  ghost predicate SomeEvent(handled: seq<Handled>) {
    exists h :: h in handled && StartsEvent(h)
  }

  lemma SomeEventSnoc(handled: seq<Handled>, h: Handled)
    ensures SomeEvent(handled + [h]) <==> SomeEvent(handled) || StartsEvent(h)
  {
    assert h in handled + [h];
    assert forall x :: x in handled ==> x in handled + [h];
  }

  function AllKept(handled: seq<Handled>): seq<Fragment> {
    if handled == [] then [] else AllKept(handled[..|handled| - 1]) + Kept(handled[|handled| - 1])
  }

  lemma AllKeptSnoc(handled: seq<Handled>, h: Handled)
    ensures AllKept(handled + [h]) == AllKept(handled) + Kept(h)
  {
    assert (handled + [h])[..|handled|] == handled;
  }

  /** Messages without the time they were accepted at. */
  function Undated(fs: seq<Fragment>): seq<Fragment> {
    seq(|fs|, i requires 0 <= i < |fs| => fs[i].(timestamp := 0))
  }

  lemma UndatedSnoc(fs: seq<Fragment>, f: Fragment)
    ensures Undated(fs + [f]) == Undated(fs) + [f.(timestamp := 0)]
  {}

  /** The observations were handled in the order of the inputs, each at most once: number k is input at[k]. The
      queue holds the end of the inputs, all of it after what was handled. */
  ghost predicate InOrder(handled: seq<Handled>, at: seq<nat>, inputs: seq<Observation>, queue: seq<Observation>) {
    && |at| == |handled| && |queue| <= |inputs| && queue == inputs[|inputs| - |queue|..]
    && (forall k :: 0 <= k < |at| ==> at[k] < |inputs| - |queue| && handled[k].obs == inputs[at[k]])
    && (forall j, k :: 0 <= j < k < |at| ==> at[j] < at[k])
  }

  lemma NothingHandled(queue: seq<Observation>)
    ensures InOrder([], [], queue + Concat([]), queue) && queue + Concat([]) == queue
    ensures AllKept([]) == [] && NoneLost([]) && !SomeEvent([]) && Backlog(|queue|, []) == |queue|
  {}

  lemma ArrivalsExtend(
    handled: seq<Handled>, at: seq<nat>, first: seq<Observation>, arrivals: seq<seq<Observation>>, i: nat,
    queue: seq<Observation>)
    requires i < |arrivals| && InOrder(handled, at, first + Concat(arrivals[..i]), queue)
    ensures InOrder(handled, at, first + Concat(arrivals[..i + 1]), queue + arrivals[i])
    ensures |first + Concat(arrivals[..i + 1])| == |first + Concat(arrivals[..i])| + |arrivals[i]|
  {
    hide Concat;
    assert arrivals[..i + 1] == arrivals[..i] + [arrivals[i]];
    ConcatSnoc(arrivals[..i], arrivals[i]);
    assert first + Concat(arrivals[..i + 1]) == first + Concat(arrivals[..i]) + arrivals[i];
  }

  lemma HandledNext(
    handled: seq<Handled>, at: seq<nat>, inputs: seq<Observation>, queue: seq<Observation>, h: Handled,
    rest: seq<Observation>)
    requires InOrder(handled, at, inputs, queue) && queue != [] && h.obs == queue[0]
    requires (rest == queue[1..] || rest == [])
    ensures |queue| <= |inputs| && InOrder(handled + [h], at + [|inputs| - |queue|], inputs, rest)
  {}

  lemma QueueEmptied(handled: seq<Handled>, at: seq<nat>, inputs: seq<Observation>, queue: seq<Observation>)
    requires InOrder(handled, at, inputs, queue)
    ensures InOrder(handled, at, inputs, [])
  {}

  /** Every message is that of a different input, a user message, and they come in the order of the inputs. */
  ghost predicate DrawnFrom(fs: seq<Fragment>, inputs: seq<Observation>) {
    exists at: seq<nat> :: Drawn(fs, inputs, at)
  }

  ghost predicate Drawn(fs: seq<Fragment>, inputs: seq<Observation>, at: seq<nat>) {
    && |at| == |fs|
    && (forall k :: 0 <= k < |at| ==>
          at[k] < |inputs| && inputs[at[k]].kind == ObservationKind.UserMessage
            && fs[k] == FragmentOf(inputs[at[k]], 0))
    && (forall j, k :: 0 <= j < k < |at| ==> at[j] < at[k])
  }

  lemma KeptIs(h: Handled)
    ensures Kept(h) == [] || (h.obs.kind == ObservationKind.UserMessage && Kept(h) == [FragmentOf(h.obs, 0)])
  {}

  lemma InOrderFront(handled: seq<Handled>, at: seq<nat>, inputs: seq<Observation>, queue: seq<Observation>)
    requires InOrder(handled, at, inputs, queue) && handled != []
    ensures var last := |handled| - 1;
      && InOrder(handled[..last], at[..last], inputs, queue)
      && at[last] < |inputs| && handled[last].obs == inputs[at[last]]
      && forall k :: 0 <= k < last ==> at[k] < at[last]
  {}

  lemma {:induction false} DrawnMore(fs: seq<Fragment>, inputs: seq<Observation>, from: seq<nat>, p: nat)
    requires Drawn(fs, inputs, from) && p < |inputs| && inputs[p].kind == ObservationKind.UserMessage
    requires forall k :: 0 <= k < |from| ==> from[k] < p
    ensures Drawn(fs + [FragmentOf(inputs[p], 0)], inputs, from + [p])
  {}

  lemma NothingDrawn(inputs: seq<Observation>)
    ensures Drawn([], inputs, [])
  {}

  lemma {:induction false} KeptAt(
    handled: seq<Handled>, at: seq<nat>, inputs: seq<Observation>, queue: seq<Observation>, bound: nat)
    returns (from: seq<nat>)
    requires |at| == |handled| && InOrder(handled, at, inputs, queue) && forall k :: 0 <= k < |at| ==> at[k] < bound
    ensures Drawn(AllKept(handled), inputs, from) && forall k :: 0 <= k < |from| ==> from[k] < bound
    decreases |handled|
  {
    hide Kept, InOrder, Drawn;
    from := [];
    if handled == [] {
      NothingDrawn(inputs);
    } else {
      var last := |handled| - 1;
      InOrderFront(handled, at, inputs, queue);
      from := KeptAt(handled[..last], at[..last], inputs, queue, at[last]);
      KeptIs(handled[last]);
      if Kept(handled[last]) != [] {
        DrawnMore(AllKept(handled[..last]), inputs, from, at[last]);
        from := from + [at[last]];
      } else {
        assert AllKept(handled) == AllKept(handled[..last]);
      }
    }
  }

  lemma KeptAreDrawn(handled: seq<Handled>, at: seq<nat>, inputs: seq<Observation>, queue: seq<Observation>)
    requires InOrder(handled, at, inputs, queue)
    ensures DrawnFrom(AllKept(handled), inputs)
  {
    var from := KeptAt(handled, at, inputs, queue, |inputs|);
  }

  // ---------- what is lost ----------

  /** A user message that left nothing. */
  predicate Lost(h: Handled) {
    h.obs.kind == ObservationKind.UserMessage && Kept(h) == []
  }

  ghost predicate NoneLost(handled: seq<Handled>) {
    forall h :: h in handled ==> !Lost(h)
  }

  lemma NoneLostSnoc(handled: seq<Handled>, h: Handled)
    ensures NoneLost(handled + [h]) <==> NoneLost(handled) && !Lost(h)
  {
    assert h in handled + [h];
    assert forall x :: x in handled ==> x in handled + [h];
  }

  /** The state met by a lost message is one the controller cannot leave. */
  lemma {:induction false} LostMeansWedged(v: View, h: Handled)
    requires Settled(v) && Lost(h) && h.fsm == v.fsm && h.ds == v.ds
    ensures Wedged(v)
  {
    SettledIsQuiet(v);
  }

  /** The user messages among some observations. */
  function Messages(inputs: seq<Observation>): seq<Fragment> {
    if inputs == [] then []
    else
      var last := inputs[|inputs| - 1];
      Messages(inputs[..|inputs| - 1]) + if last.kind == ObservationKind.UserMessage then [FragmentOf(last, 0)] else []
  }

  /** With nothing lost and nothing skipped, what is kept is every user message. */
  lemma {:induction false} AllTaken(
    handled: seq<Handled>, at: seq<nat>, inputs: seq<Observation>, queue: seq<Observation>)
    requires InOrder(handled, at, inputs, queue) && |handled| + |queue| == |inputs| && NoneLost(handled)
    ensures AllKept(handled) == Messages(inputs[..|handled|])
  {
    forall k | 0 <= k < |handled| ensures handled[k].obs == inputs[k] { NoneSkipped(at, |handled|, k); }
    KeptAreMessages(handled, inputs[..|handled|]);
  }

  lemma {:induction false} NoneSkipped(at: seq<nat>, n: nat, k: nat)
    requires |at| == n && k < n && forall j :: 0 <= j < n ==> at[j] < n
    requires forall i, j :: 0 <= i < j < n ==> at[i] < at[j]
    ensures at[k] == k
  {
    AtLeast(at, k);
    AtMost(at, k);
  }

  lemma {:induction false} AtLeast(at: seq<nat>, k: nat)
    requires k < |at| && forall i, j :: 0 <= i < j < |at| ==> at[i] < at[j]
    ensures at[k] >= k
  {
    if k > 0 { AtLeast(at, k - 1); assert at[k - 1] < at[k]; }
  }

  lemma {:induction false} AtMost(at: seq<nat>, k: nat)
    requires k < |at| && (forall j :: 0 <= j < |at| ==> at[j] < |at|)
    requires forall i, j :: 0 <= i < j < |at| ==> at[i] < at[j]
    ensures at[k] <= k
    decreases |at| - k
  {
    if k + 1 < |at| { AtMost(at, k + 1); assert at[k] < at[k + 1]; }
  }

  lemma {:induction false} KeptAreMessages(handled: seq<Handled>, inputs: seq<Observation>)
    requires |handled| == |inputs| && NoneLost(handled)
    requires forall k :: 0 <= k < |handled| ==> handled[k].obs == inputs[k]
    ensures AllKept(handled) == Messages(inputs)
    decreases |handled|
  {
    hide Kept;
    if handled != [] {
      var last := |handled| - 1;
      assert handled[last] in handled && forall h :: h in handled[..last] ==> h in handled;
      KeptAreMessages(handled[..last], inputs[..last]);
      KeptIs(handled[last]);
    }
  }

  // ---------- how much waits ----------

  function Less(n: nat): nat {
    if n == 0 then 0 else n - 1
  }

  /** How many observations wait when the run starts with n and every iteration takes one off, if there is one. */
  function Backlog(n: nat, arrivals: seq<seq<Observation>>): nat {
    if arrivals == [] then n
    else Less(Backlog(n, arrivals[..|arrivals| - 1]) + |arrivals[|arrivals| - 1]|)
  }

  lemma BacklogSnoc(n: nat, arrivals: seq<seq<Observation>>, i: nat)
    requires i < |arrivals|
    ensures Backlog(n, arrivals[..i + 1]) == Less(Backlog(n, arrivals[..i]) + |arrivals[i]|)
  {
    assert arrivals[..i + 1][..i] == arrivals[..i];
  }

  function Idle(k: nat): seq<seq<Observation>> {
    seq(k, _ => [])
  }

  /** Every iteration without arrivals takes one off the backlog, so enough of them clear it. */
  lemma {:induction false} BacklogDrains(n: nat, arrivals: seq<seq<Observation>>, k: nat)
    ensures Backlog(n, arrivals + Idle(k)) == if k <= Backlog(n, arrivals) then Backlog(n, arrivals) - k else 0
    decreases k
  {
    hide Backlog;
    if k == 0 {
      assert arrivals + Idle(0) == arrivals;
    } else {
      var all := arrivals + Idle(k);
      assert all[..|all| - 1] == arrivals + Idle(k - 1) && all[|all| - 1] == [];
      BacklogDrains(n, arrivals, k - 1);
      BacklogSnoc(n, all, |all| - 1);
      assert all[..|all|] == all;
    }
  }

  lemma NothingUndated()
    ensures Undated([]) == []
  {}
}
