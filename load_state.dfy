/** CUILoadState: the per-window record of the registry, with its two
    parallel queues of callbacks (and their arguments) waiting for the load. */
module UILoadState {
  import opened UITypes
  import UINames

  /** The calls a drain of the queues makes, in queue order: each callback
      once, with the window and the arguments queued beside it. */
  function Invocations(callbacks: seq<Callback>, args: seq<seq<Arg>>, ui: KUIController?): (r: seq<Event>)
    requires |callbacks| == |args|
    ensures |r| == |callbacks|
  {
    if callbacks == [] then []
    else [Invoked(callbacks[0], ui, args[0])] + Invocations(callbacks[1..], args[1..], ui)
  }

  /** The k-th call of a drain is the k-th queued callback with its own arguments. */
  lemma {:induction false} InvocationsAt(callbacks: seq<Callback>, args: seq<seq<Arg>>, ui: KUIController?, k: nat)
    requires |callbacks| == |args| && k < |callbacks|
    ensures Invocations(callbacks, args, ui)[k] == Invoked(callbacks[k], ui, args[k])
  {
    if k > 0 {
      InvocationsAt(callbacks[1..], args[1..], ui, k - 1);
    }
  }

  /** Draining two queues one after the other is draining their concatenation:
      what is queued later is called later. */
  lemma {:induction false} InvocationsAppend(c1: seq<Callback>, a1: seq<seq<Arg>>, c2: seq<Callback>, a2: seq<seq<Arg>>, ui: KUIController?)
    requires |c1| == |a1| && |c2| == |a2|
    ensures Invocations(c1 + c2, a1 + a2, ui) == Invocations(c1, a1, ui) + Invocations(c2, a2, ui)
  {
    if c1 != [] {
      InvocationsAppend(c1[1..], a1[1..], c2, a2, ui);
      assert (c1 + c2)[1..] == c1[1..] + c2;
      assert (a1 + a2)[1..] == a1[1..] + a2;
    } else {
      assert c1 + c2 == c2 && a1 + a2 == a2;
    }
  }

  datatype CUILoadState = CUILoadState(
    templateName: string,
    instanceName: string,
    uiType: string,
    uiWindow: KUIController?,
    isLoading: bool,
    isStaticUI: bool,
    openWhenFinish: bool,
    openArgs: Option<seq<Arg>>,
    callbacksWhenFinish: seq<Callback>,
    callbacksArgsWhenFinish: seq<seq<Arg>>)
  {
    /** The two queues are parallel: the k-th arguments belong to the k-th callback. */
    predicate Valid() {
      |callbacksWhenFinish| == |callbacksArgsWhenFinish|
    }

    /** While loading, queue the callback with its arguments (a missing array
        becomes an empty one) and call nothing; otherwise call it at once with
        the window. Gives the new state and the calls made. */
    function DoCallback(callback: Callback, args: Option<seq<Arg>>): (r: (CUILoadState, seq<Event>))
      requires Valid()
      ensures r.0.Valid()
      ensures isLoading ==> r.1 == []
      ensures isLoading ==> r.0 == this.(callbacksWhenFinish := callbacksWhenFinish + [callback],
                                         callbacksArgsWhenFinish := callbacksArgsWhenFinish + [args.GetOr([])])
      ensures !isLoading ==> r.0 == this && r.1 == [Invoked(callback, uiWindow, args.GetOr([]))]
    {
      var a := if args.None? then [] else args.value;
      if isLoading then
        (this.(callbacksWhenFinish := callbacksWhenFinish + [callback],
               callbacksArgsWhenFinish := callbacksArgsWhenFinish + [a]), [])
      else
        (this, [Invoked(callback, uiWindow, a)])
    }

    /** Once loaded, drain both queues in FIFO order, calling every queued
        callback exactly once with its own arguments; nothing else changes. */
    method OnUIWindowLoadedCallbacks() returns (drained: CUILoadState, fired: seq<Event>)
      requires Valid() && !isLoading
      ensures drained == this.(callbacksWhenFinish := [], callbacksArgsWhenFinish := [])
      ensures fired == Invocations(callbacksWhenFinish, callbacksArgsWhenFinish, uiWindow)
    {
      var st := this;
      fired := [];
      while |st.callbacksWhenFinish| > 0
        invariant st == this.(callbacksWhenFinish := st.callbacksWhenFinish,
                              callbacksArgsWhenFinish := st.callbacksArgsWhenFinish)
        invariant st.Valid()
        invariant fired + Invocations(st.callbacksWhenFinish, st.callbacksArgsWhenFinish, uiWindow)
               == Invocations(callbacksWhenFinish, callbacksArgsWhenFinish, uiWindow)
        decreases |st.callbacksWhenFinish|
      {
        var callback := st.callbacksWhenFinish[0];
        var args := st.callbacksArgsWhenFinish[0];
        ghost var rest := Invocations(st.callbacksWhenFinish[1..], st.callbacksArgsWhenFinish[1..], uiWindow);
        assert Invocations(st.callbacksWhenFinish, st.callbacksArgsWhenFinish, uiWindow)
            == [Invoked(callback, uiWindow, args)] + rest;
        st := st.(callbacksWhenFinish := st.callbacksWhenFinish[1..],
                  callbacksArgsWhenFinish := st.callbacksArgsWhenFinish[1..]);
        var (next, f) := st.DoCallback(callback, Some(args));
        st := next;
        fired := fired + f;
      }
      drained := st;
    }
  }

  /** FIFO: a callback queued while loading is called by the later drain
      after every callback queued before it, with its own arguments. */
  lemma QueuedCallbackRunsLast(st: CUILoadState, callback: Callback, args: Option<seq<Arg>>, ui: KUIController?)
    requires st.Valid() && st.isLoading
    ensures var (next, fired) := st.DoCallback(callback, args);
      && fired == []
      && Invocations(next.callbacksWhenFinish, next.callbacksArgsWhenFinish, ui)
         == Invocations(st.callbacksWhenFinish, st.callbacksArgsWhenFinish, ui) + [Invoked(callback, ui, args.GetOr([]))]
  {
    InvocationsAppend(st.callbacksWhenFinish, st.callbacksArgsWhenFinish, [callback], [args.GetOr([])], ui);
  }

  /** `new CUILoadState(template, instance)`: loading, no window, not static,
      not to be opened, no open arguments and two empty queues. */
  function NewLoadState(template: string, instance: string): (st: CUILoadState)
    ensures st.Valid()
    ensures st.templateName == template && st.instanceName == instance && st.uiType == "KUI" + template
    ensures st.isLoading && st.uiWindow == null && !st.isStaticUI
    ensures !st.openWhenFinish && st.openArgs == None
    ensures st.callbacksWhenFinish == [] && st.callbacksArgsWhenFinish == []
  {
    CUILoadState(template, instance, UINames.UIType(template), null, true, false, false, None, [], [])
  }

  /** What LoadWindow registers: a static state, its own template, still
      loading, with the open request and its arguments. */
  function StaticLoadState(name: string, openWhenFinish: bool, args: seq<Arg>): (st: CUILoadState)
    ensures st.Valid()
    ensures st.templateName == name && st.instanceName == name && st.uiType == "KUI" + name
    ensures st.isStaticUI && st.isLoading && st.uiWindow == null
    ensures st.openWhenFinish == openWhenFinish && st.openArgs == Some(args)
    ensures st.callbacksWhenFinish == [] && st.callbacksArgsWhenFinish == []
  {
    NewLoadState(name, name).(isStaticUI := true, openArgs := Some(args), openWhenFinish := openWhenFinish)
  }

  /** The placeholder OpenDynamicWindow registers for an instance before the
      template is touched: not static, loading, no window, to be opened. */
  function DynamicPlaceholder(template: string, instance: string): (st: CUILoadState)
    ensures st.Valid()
    ensures st.templateName == template && st.instanceName == instance
    ensures !st.isStaticUI && st.isLoading && st.uiWindow == null
    ensures st.openWhenFinish && st.openArgs == None
    ensures st.callbacksWhenFinish == [] && st.callbacksArgsWhenFinish == []
  {
    NewLoadState(template, instance).(isStaticUI := false, isLoading := true, uiWindow := null, openWhenFinish := true)
  }

  /** Why the drain is only run once loading is over: on a state still
      loading, one turn of the drain loop (dequeue a pair, hand it to
      DoCallback) puts the pair straight back at the end of the queue, so
      the queue never shrinks and the loop would not end. */
  lemma DrainTurnWhileLoading(st: CUILoadState)
    requires st.Valid() && st.isLoading && |st.callbacksWhenFinish| > 0
    ensures var dequeued := st.(callbacksWhenFinish := st.callbacksWhenFinish[1..],
                                callbacksArgsWhenFinish := st.callbacksArgsWhenFinish[1..]);
      var r := dequeued.DoCallback(st.callbacksWhenFinish[0], Some(st.callbacksArgsWhenFinish[0]));
      && r.1 == []
      && |r.0.callbacksWhenFinish| == |st.callbacksWhenFinish|
      && r.0.callbacksWhenFinish == st.callbacksWhenFinish[1..] + [st.callbacksWhenFinish[0]]
  {
  }
}
