/** KUIModule: the window registry and the open / close / load state machine
    over it. */
module UIModule {
  import opened UITypes
  import opened UILoadState
  import UIArgs

  /** A registry entry is well formed: its queues are parallel, it is filed
      under its instance name, a static window is its own template and has its
      open arguments, the window exists exactly when loading is over, and the
      window carries the entry's name. */
  ghost predicate EntryOk(name: string, st: CUILoadState) {
    && st.Valid()
    && st.instanceName == name
    && (st.isStaticUI ==> st.templateName == name && st.openArgs.Some?)
    && (st.isLoading <==> st.uiWindow == null)
    && (st.uiWindow != null ==> st.uiWindow.uiName == name)
  }

  /** Callbacks wait only while a window is loading (`except` names the entry
      whose drain is under way). */
  ghost predicate Drained(reg: map<string, CUILoadState>, except: set<string>) {
    forall n :: n in reg && n !in except && !reg[n].isLoading ==> reg[n].callbacksWhenFinish == []
  }

  ghost predicate Distinct(names: seq<string>) {
    forall i, j :: 0 <= i < j < |names| ==> names[i] != names[j]
  }

  /** What OnOpen shows for a loaded window: a close first if it is already
      active, then BeforeOpen with the arguments. */
  function OpenTrace(c: KUIController, args: seq<Arg>, wasActive: bool): seq<Event> {
    (if wasActive then [OnClose(c)] else []) + [BeforeOpen(c, args)]
  }

  /** What CloseWindow shows for a loaded window: OnClose, the close event,
      and the destruction of a window that is not static. */
  function CloseTrace(c: KUIController, isStatic: bool): seq<Event> {
    [OnClose(c), CloseEvent(c)] + (if isStatic then [] else [Destroyed(c)])
  }

  /** The trace `before` followed by what InitWindow shows for window `c`
      (active or not), opened or not, static or not, with the queues its state
      had: the init hooks, then the open and the drained callbacks, or only
      the callbacks, or a close that destroys the window and drops the
      callbacks. */
  function InitTrace(before: seq<Event>, c: KUIController, open: bool, wasActive: bool, isStatic: bool,
                     args: seq<Arg>, callbacks: seq<Callback>, callbackArgs: seq<seq<Arg>>): seq<Event>
    requires |callbacks| == |callbackArgs|
  {
    var hooked := before + [OnInit(c), InitEvent(c)];
    if open then
      hooked + OpenTrace(c, args, wasActive) + Invocations(callbacks, callbackArgs, c)
    else if isStatic then
      hooked + Invocations(callbacks, callbackArgs, c)
    else
      hooked + CloseTrace(c, false)
  }

  /** InitWindow always starts with the init hook and the init event. */
  lemma InitTraceStartsWithInit(before: seq<Event>, c: KUIController, open: bool, wasActive: bool, isStatic: bool,
                                args: seq<Arg>, callbacks: seq<Callback>, callbackArgs: seq<seq<Arg>>)
    requires |callbacks| == |callbackArgs|
    ensures var t := InitTrace(before, c, open, wasActive, isStatic, args, callbacks, callbackArgs);
      |t| >= |before| + 2 && t[..|before| + 2] == before + [OnInit(c), InitEvent(c)]
  {
    var hooked := before + [OnInit(c), InitEvent(c)];
    var t := InitTrace(before, c, open, wasActive, isStatic, args, callbacks, callbackArgs);
    var rest := if open then OpenTrace(c, args, wasActive) + Invocations(callbacks, callbackArgs, c)
                else if isStatic then Invocations(callbacks, callbackArgs, c)
                else CloseTrace(c, false);
    assert t == hooked + rest;
    assert (hooked + rest)[..|hooked|] == hooked;
  }

  /** Opening at the end of a load shows BeforeOpen with the open arguments
      right after the init events (after a close if the window was active),
      and the queued callbacks, each once and in order, after it. */
  lemma InitTraceOpenThenCallbacks(before: seq<Event>, c: KUIController, wasActive: bool, isStatic: bool,
                                   args: seq<Arg>, callbacks: seq<Callback>, callbackArgs: seq<seq<Arg>>)
    requires |callbacks| == |callbackArgs|
    ensures var t := InitTrace(before, c, true, wasActive, isStatic, args, callbacks, callbackArgs);
      var k := |before| + 2 + (if wasActive then 1 else 0);
      && |t| == k + 1 + |callbacks|
      && t[k] == BeforeOpen(c, args)
      && (wasActive ==> t[k - 1] == OnClose(c))
      && forall j :: 0 <= j < |callbacks| ==> t[k + 1 + j] == Invoked(callbacks[j], c, callbackArgs[j])
  {
    var k := |before| + 2 + (if wasActive then 1 else 0);
    forall j | 0 <= j < |callbacks|
      ensures InitTrace(before, c, true, wasActive, isStatic, args, callbacks, callbackArgs)[k + 1 + j]
           == Invoked(callbacks[j], c, callbackArgs[j])
    {
      InvocationsAt(callbacks, callbackArgs, c, j);
    }
  }

  /** A window that is neither opened nor static is closed and destroyed at
      the end of its load and none of its queued callbacks is called. */
  lemma InitTraceDropsCallbacks(before: seq<Event>, c: KUIController, wasActive: bool,
                                args: seq<Arg>, callbacks: seq<Callback>, callbackArgs: seq<seq<Arg>>)
    requires |callbacks| == |callbackArgs|
    ensures var t := InitTrace(before, c, false, wasActive, false, args, callbacks, callbackArgs);
      && t == before + [OnInit(c), InitEvent(c), OnClose(c), CloseEvent(c), Destroyed(c)]
      && forall j :: |before| <= j < |t| ==> !t[j].Invoked?
  {
  }

  /** The registry after InitWindow on entry `name`: the drained entry stays
      when the window is opened or static, otherwise the entry is gone. */
  function AfterInit(reg: map<string, CUILoadState>, name: string, open: bool): map<string, CUILoadState>
    requires name in reg
  {
    if open || reg[name].isStaticUI
    then reg[name := reg[name].(callbacksWhenFinish := [], callbacksArgsWhenFinish := [])]
    else reg - {name}
  }

  /** The trace `before` followed by the Destroyed events of the entries of
      `names` that have a window, in list order. */
  ghost function DestroyTrace(before: seq<Event>, names: seq<string>, reg: map<string, CUILoadState>): seq<Event> {
    if names == [] then before
    else
      var n := names[|names| - 1];
      var t := DestroyTrace(before, names[..|names| - 1], reg);
      if n in reg && reg[n].uiWindow != null then t + [Destroyed(reg[n].uiWindow)] else t
  }

  /** The trace `before` followed by the close traces of the loaded entries
      of `names`, last name first. */
  ghost function CloseAllTrace(before: seq<Event>, names: seq<string>, reg: map<string, CUILoadState>): seq<Event> {
    if names == [] then before
    else
      var n := names[0];
      var t := CloseAllTrace(before, names[1..], reg);
      if n in reg && reg[n].uiWindow != null then t + CloseTrace(reg[n].uiWindow, reg[n].isStaticUI) else t
  }

  /** The registry DestroyAllWindows leaves after the prefix `destroyed` of
      its list: the listed entries still loading survive. */
  ghost function AfterDestroying(reg: map<string, CUILoadState>, destroyed: seq<string>): map<string, CUILoadState> {
    map n | n in reg && (n !in destroyed || reg[n].isLoading) :: reg[n]
  }

  /** Destroying one more name `m` drops it unless it is still loading. */
  lemma AfterDestroyingStep(reg: map<string, CUILoadState>, destroyed: seq<string>, m: string)
    requires m in reg && m !in destroyed
    ensures AfterDestroying(reg, destroyed + [m])
         == if reg[m].isLoading then AfterDestroying(reg, destroyed) else AfterDestroying(reg, destroyed) - {m}
  {
  }

  /** Destroying one more name `m` appends its Destroyed event, if it has a window. */
  lemma DestroyTraceStep(before: seq<Event>, destroyed: seq<string>, m: string, reg: map<string, CUILoadState>)
    ensures DestroyTrace(before, destroyed + [m], reg)
         == DestroyTrace(before, destroyed, reg)
            + (if m in reg && reg[m].uiWindow != null then [Destroyed(reg[m].uiWindow)] else [])
  {
    assert (destroyed + [m])[..|destroyed|] == destroyed;
  }

  /** The registry CloseAllWindows leaves after closing the suffix `closed`
      of its list: the closed entries that are not static are gone. */
  ghost function AfterClosing(reg: map<string, CUILoadState>, closed: seq<string>): map<string, CUILoadState> {
    map n | n in reg && (n !in closed || reg[n].isStaticUI) :: reg[n]
  }

  /** Closing one more name `m` extends the closed suffix by `m`. */
  lemma AfterClosingStep(reg: map<string, CUILoadState>, m: string, closed: seq<string>)
    requires m in reg && m !in closed
    ensures AfterClosing(reg, [m] + closed)
         == if reg[m].isStaticUI then AfterClosing(reg, closed) else AfterClosing(reg, closed) - {m}
  {
  }

  /** Closing one more loaded name `m` first appends its close trace. */
  lemma CloseAllTraceStep(before: seq<Event>, m: string, closed: seq<string>, reg: map<string, CUILoadState>)
    requires m in reg && reg[m].uiWindow != null
    ensures CloseAllTrace(before, [m] + closed, reg)
         == CloseAllTrace(before, closed, reg) + CloseTrace(reg[m].uiWindow, reg[m].isStaticUI)
  {
    assert ([m] + closed)[1..] == closed;
  }

  class KUIModule {
    /** `UIWindows`, keyed by instance name. */
    var uiWindows: map<string, CUILoadState>
    /** Everything the module has shown the outside world, oldest first. */
    var trace: seq<Event>
    /** BeforeOpen continuations handed out and not yet fired. */
    var pendingOpens: seq<PendingOpen>

    ghost predicate Wf()
      reads this
    {
      forall n :: n in uiWindows ==> EntryOk(n, uiWindows[n])
    }

    ghost predicate Valid()
      reads this
    {
      Wf() && Drained(uiWindows, {})
    }

    constructor ()
      ensures Valid()
      ensures uiWindows == map[] && trace == [] && pendingOpens == []
    {
      uiWindows := map[];
      trace := [];
      pendingOpens := [];
    }

    /** ContainsKey. Every entry is filed under its own instance name, so a
        registered name is never registered a second time, under any template. */
    function IsLoad(name: string): (b: bool)
      reads this
      ensures b <==> name in uiWindows
      ensures Wf() && b ==> uiWindows[name].instanceName == name
    {
      name in uiWindows
    }

    /** The window of a registered, loaded entry, or null. */
    function GetUIBase(name: string): (ui: KUIController?)
      reads this
      ensures ui != null <==> name in uiWindows && uiWindows[name].uiWindow != null
      ensures ui != null ==> ui == uiWindows[name].uiWindow
      ensures Wf() ==> (ui == null <==> name !in uiWindows || uiWindows[name].isLoading)
      ensures Wf() && ui != null ==> ui.uiName == name
    {
      if name in uiWindows && uiWindows[name].uiWindow != null then uiWindows[name].uiWindow else null
    }

    /** The windows an operation on `name` may touch. */
    function WindowOf(name: string): set<KUIController>
      reads this
    {
      if GetUIBase(name) == null then {} else {GetUIBase(name)}
    }

    /** Every window of the registry. */
    function Windows(): set<KUIController>
      reads this
    {
      set n | n in uiWindows && uiWindows[n].uiWindow != null :: uiWindows[n].uiWindow
    }

    /** A name is open when it is registered, has its window, and the window
        is active; a loading window is never open. */
    function IsOpen(name: string): (b: bool)
      reads this, WindowOf(name)
      ensures b <==> name in uiWindows && uiWindows[name].uiWindow != null && uiWindows[name].uiWindow.active
      ensures b ==> IsLoad(name)
      ensures Wf() && b ==> !uiWindows[name].isLoading
    {
      var ui := GetUIBase(name);
      if ui == null then false else ui.active
    }

    /** What OnOpen does to the registered entry `name`. */
    twostate predicate Opened(name: string, args: seq<Arg>)
      requires old(Wf()) && old(name in uiWindows)
      reads this
    {
      var st := old(uiWindows[name]);
      if st.isLoading then
        && uiWindows == old(uiWindows)[name := st.(openWhenFinish := true, openArgs := Some(args))]
        && trace == old(trace) && pendingOpens == old(pendingOpens)
      else
        && uiWindows == old(uiWindows)
        && trace == old(trace) + OpenTrace(st.uiWindow, args, old(st.uiWindow.active))
        && pendingOpens == old(pendingOpens) + [PendingOpen(st.uiWindow, args)]
    }

    /** What OpenWindow does: start loading an unknown name, to be opened
        with these arguments, or open the entry there is. */
    twostate predicate WindowOpened(name: string, args: seq<Arg>)
      requires old(Wf())
      reads this
    {
      if name in old(uiWindows) then Opened(name, args)
      else
        && uiWindows == old(uiWindows)[name := StaticLoadState(name, true, args)]
        && trace == old(trace) && pendingOpens == old(pendingOpens)
    }

    /** What CloseWindow does to the registry and the trace: nothing for an
        unknown name, cancel the open of a loading one, otherwise close the
        window and drop the entry if it is not static. */
    twostate predicate Closed(name: string)
      requires old(Wf())
      reads this
    {
      && pendingOpens == old(pendingOpens)
      && if name !in old(uiWindows) then
           uiWindows == old(uiWindows) && trace == old(trace)
         else
           var st := old(uiWindows[name]);
           if st.isLoading then
             uiWindows == old(uiWindows)[name := st.(openWhenFinish := false)] && trace == old(trace)
           else
             && trace == old(trace) + CloseTrace(st.uiWindow, st.isStaticUI)
             && uiWindows == (if st.isStaticUI then old(uiWindows) else old(uiWindows) - {name})
    }

    /** Register a static load state for `name`; the load itself is the
        separate step LoadUIAssetBundle. Loading a name twice is a programming
        error the source only logs and asserts before the duplicate add throws. */
    method LoadWindow(name: string, openWhenFinish: bool, args: seq<Arg>) returns (st: CUILoadState)
      requires Valid() && name !in uiWindows
      modifies this
      ensures Valid()
      ensures st == StaticLoadState(name, openWhenFinish, args)
      ensures uiWindows == old(uiWindows)[name := st]
      ensures trace == old(trace) && pendingOpens == old(pendingOpens)
    {
      st := NewLoadState(name, name);
      st := st.(isStaticUI := true);
      st := st.(openArgs := Some(args));
      st := st.(openWhenFinish := openWhenFinish);
      uiWindows := uiWindows[name := st];
    }

    /** Open a registered entry: while it loads, remember to open it with
        these arguments; once loaded, close it first if it is active and hand
        BeforeOpen the continuation that finishes the open. */
    method OnOpen(name: string, args: seq<Arg>)
      requires Wf() && name in uiWindows
      modifies this
      ensures Wf() && Opened(name, args)
    {
      var st := uiWindows[name];
      if st.isLoading {
        st := st.(openWhenFinish := true);
        st := st.(openArgs := Some(args));
        uiWindows := uiWindows[name := st];
        return;
      }
      var uiBase := st.uiWindow;
      if uiBase.active {
        trace := trace + [OnClose(uiBase)];
      }
      trace := trace + [BeforeOpen(uiBase, args)];
      pendingOpens := pendingOpens + [PendingOpen(uiBase, args)];
    }

    /** The controller fires the k-th BeforeOpen continuation: the window
        becomes active, then OnOpen and the open event. */
    method ConfirmOpen(k: nat)
      requires Valid() && k < |pendingOpens|
      modifies this, pendingOpens[k].c
      ensures Valid() && uiWindows == old(uiWindows)
      ensures var p := old(pendingOpens[k]);
        && p.c.active
        && trace == old(trace) + [Event.OnOpen(p.c, p.args), OpenEvent(p.c)]
        && pendingOpens == old(pendingOpens[..k] + pendingOpens[k + 1..])
    {
      var p := pendingOpens[k];
      pendingOpens := pendingOpens[..k] + pendingOpens[k + 1..];
      p.c.active := true;
      trace := trace + [Event.OnOpen(p.c, p.args), OpenEvent(p.c)];
    }

    /** Destroy the window of `name` and drop its entry; an entry without a
        window (unknown, or still loading) is left alone. */
    method DestroyWindow(name: string)
      requires Wf()
      modifies this
      ensures Wf() && pendingOpens == old(pendingOpens)
      ensures var ui := old(GetUIBase(name));
        if ui == null then uiWindows == old(uiWindows) && trace == old(trace)
        else uiWindows == old(uiWindows) - {name} && trace == old(trace) + [Destroyed(ui)]
    {
      var ui := GetUIBase(name);
      if ui == null {
        return;
      }
      trace := trace + [Destroyed(ui)];
      uiWindows := uiWindows - {name};
    }

    /** Close `name`. Afterwards it is not open, whatever it was. */
    method CloseWindow(name: string)
      requires Wf()
      modifies this, WindowOf(name)
      ensures Wf() && Closed(name) && !IsOpen(name)
      ensures old(Valid()) ==> Valid()
      ensures name in old(uiWindows) && !old(uiWindows[name]).isLoading ==> !old(uiWindows[name]).uiWindow.active
    {
      if name !in uiWindows {
        return;
      }
      var st := uiWindows[name];
      if st.isLoading {
        uiWindows := uiWindows[name := st.(openWhenFinish := false)];
        return;
      }
      st.uiWindow.active := false;
      trace := trace + [OnClose(st.uiWindow), CloseEvent(st.uiWindow)];
      if !st.isStaticUI {
        DestroyWindow(name);
      }
    }

    /** The load state of `name` has its window `c`: initialise it, open it
        or hide it (closing, and so destroying, a window that is not static),
        then drain the callbacks queued while it loaded. */
    method InitWindow(name: string, c: KUIController, open: bool, args: seq<Arg>)
      requires Wf() && Drained(uiWindows, {name})
      requires name in uiWindows && !uiWindows[name].isLoading && uiWindows[name].uiWindow == c
      modifies this, c
      ensures Valid()
      ensures var st := old(uiWindows[name]);
        && trace == InitTrace(old(trace), c, open, old(c.active), st.isStaticUI, args,
                              st.callbacksWhenFinish, st.callbacksArgsWhenFinish)
        && uiWindows == AfterInit(old(uiWindows), name, open)
        && pendingOpens == old(pendingOpens) + (if open then [PendingOpen(c, args)] else [])
        && c.active == (open && old(c.active))
    {
      trace := trace + [OnInit(c), InitEvent(c)];
      if open {
        OnOpen(name, args);
      }
      if !open {
        if !uiWindows[name].isStaticUI {
          CloseWindow(c.uiName);
          return;
        } else {
          c.active := false;
        }
      }
      DrainCallbacks(name);
    }

    /** Run OnUIWindowLoadedCallbacks on the loaded entry `name` and keep the
        drained state. */
    method DrainCallbacks(name: string)
      requires Wf() && Drained(uiWindows, {name})
      requires name in uiWindows && !uiWindows[name].isLoading
      modifies this
      ensures Valid() && pendingOpens == old(pendingOpens)
      ensures var st := old(uiWindows[name]);
        && uiWindows == old(uiWindows)[name := st.(callbacksWhenFinish := [], callbacksArgsWhenFinish := [])]
        && trace == old(trace) + Invocations(st.callbacksWhenFinish, st.callbacksArgsWhenFinish, st.uiWindow)
    {
      var st := uiWindows[name];
      var drained, fired := st.OnUIWindowLoadedCallbacks();
      uiWindows := uiWindows[name := drained];
      trace := trace + fired;
    }

    /** The end of the load coroutine of the static entry `name`: the new
        window (inactive, named after the template) is stamped on the state,
        filtered by the bridge, and initialised with the open request and the
        arguments the state holds at that moment. */
    method LoadUIAssetBundle(name: string) returns (c: KUIController)
      requires Valid() && name in uiWindows && uiWindows[name].isLoading && uiWindows[name].isStaticUI
      modifies this
      ensures Valid() && fresh(c)
      ensures c.uiName == name && c.uiTemplateName == name && !c.active
      ensures var st := old(uiWindows[name]);
        && uiWindows == AfterInit(old(uiWindows)[name := st.(uiWindow := c, isLoading := false)], name, st.openWhenFinish)
        && trace == InitTrace(old(trace) + [UIObjectFilter(c, c)], c, st.openWhenFinish, false, true,
                              st.openArgs.value, st.callbacksWhenFinish, st.callbacksArgsWhenFinish)
        && pendingOpens == old(pendingOpens) + (if st.openWhenFinish then [PendingOpen(c, st.openArgs.value)] else [])
    {
      var openState := uiWindows[name];
      c := new KUIController(openState.templateName, openState.templateName, false);
      openState := openState.(uiWindow := c);
      trace := trace + [UIObjectFilter(c, c)];
      openState := openState.(isLoading := false);
      uiWindows := uiWindows[name := openState];
      InitWindow(name, c, openState.openWhenFinish, openState.openArgs.value);
    }

    /** What the clone step does for instance `name` of `template`, cloned
        from window `ui` into `clone` with the caller's arguments `args`. */
    twostate predicate Cloned(ui: KUIController, template: string, name: string, args: seq<Arg>, new clone: KUIController)
      requires old(Wf()) && old(name in uiWindows)
      reads this, clone
    {
      var st := old(uiWindows[name]);
      var open := st.openWhenFinish;
      && clone.uiName == name && clone.uiTemplateName == template
      && clone.active == (open && old(ui.active))
      && trace == InitTrace(old(trace) + [UIObjectFilter(ui, clone)], clone, open, old(ui.active), st.isStaticUI,
                            args, st.callbacksWhenFinish, st.callbacksArgsWhenFinish)
      && uiWindows == AfterInit(old(uiWindows)[name := st.(isLoading := false, uiWindow := clone)], name, open)
      && pendingOpens == old(pendingOpens) + (if open then [PendingOpen(clone, args)] else [])
    }

    /** Clone window `ui` into the instance the packed arguments name: the
        clone copies the active flag of `ui`, is filtered by the bridge, is
        stamped on the instance state, and is initialised with the caller's
        arguments (the packed array without its first two entries). */
    method OnDynamicWindowCallback(ui: KUIController, totalArgs: seq<Arg>) returns (ghost clone: KUIController)
      requires Valid() && UIArgs.Unpack(totalArgs).Some? && totalArgs[1].s in uiWindows
      modifies this
      ensures Valid() && fresh(clone)
      ensures var (template, name, args) := UIArgs.Unpack(totalArgs).value;
        Cloned(ui, template, name, args, clone)
    {
      var template := totalArgs[0].s;
      var name := totalArgs[1].s;
      var uiObj := new KUIController(name, template, ui.active);
      trace := trace + [UIObjectFilter(ui, uiObj)];
      var instanceUIState := uiWindows[name];
      instanceUIState := instanceUIState.(isLoading := false);
      instanceUIState := instanceUIState.(uiWindow := uiObj);
      uiWindows := uiWindows[name := instanceUIState];
      var originArgs := UIArgs.CopyOriginArgs(totalArgs);
      InitWindow(name, uiObj, instanceUIState.openWhenFinish, originArgs);
      clone := uiObj;
    }

    /** The body of the closure OpenDynamicWindow queues on the template: pack
        the names in front of the captured arguments and clone the template's
        window as it is when the closure runs. */
    method DynamicCloneCallback(template: string, instanceName: string, args: seq<Arg>) returns (ghost clone: KUIController)
      requires Valid() && GetUIBase(template) != null && instanceName in uiWindows
      requires uiWindows[instanceName].isLoading && !uiWindows[instanceName].isStaticUI
      modifies this
      ensures Valid() && fresh(clone)
      ensures Cloned(old(GetUIBase(template)), template, instanceName, args, clone)
    {
      var totalArgs := UIArgs.Pack(template, instanceName, args);
      UIArgs.UnpackPack(template, instanceName, args);
      clone := OnDynamicWindowCallback(GetUIBase(template), totalArgs);
    }

    /** Run `callback` on the window `name` once it is loaded, starting a load
        that does not open the window when there is no entry. */
    method CallUI(name: string, callback: Callback, args: Option<seq<Arg>>)
      requires Valid()
      modifies this
      ensures Valid() && pendingOpens == old(pendingOpens)
      ensures var st := if name in old(uiWindows) then old(uiWindows[name]) else StaticLoadState(name, false, []);
        var r := st.DoCallback(callback, args);
        uiWindows == old(uiWindows)[name := r.0] && trace == old(trace) + r.1
    {
      var st: CUILoadState;
      if name !in uiWindows {
        st := LoadWindow(name, false, []);
      } else {
        st := uiWindows[name];
      }
      var (next, fired) := st.DoCallback(callback, args);
      uiWindows := uiWindows[name := next];
      trace := trace + fired;
    }

    /** CallUI for dynamic instances: an unknown name is an error that is only
        logged, and nothing is loaded. */
    method CallDynamicUI(name: string, callback: Callback, args: Option<seq<Arg>>)
      requires Valid()
      modifies this
      ensures Valid() && pendingOpens == old(pendingOpens)
      ensures name !in old(uiWindows) ==> uiWindows == old(uiWindows) && trace == old(trace)
      ensures name in old(uiWindows) ==>
        var r := old(uiWindows[name]).DoCallback(callback, args);
        uiWindows == old(uiWindows)[name := r.0] && trace == old(trace) + r.1
    {
      if name !in uiWindows {
        return;
      }
      var openState := uiWindows[name];
      var (next, fired) := openState.DoCallback(callback, args);
      uiWindows := uiWindows[name := next];
      trace := trace + fired;
    }

    /** Open `name`, loading it (to be opened with `args`) when it has no entry. */
    method OpenWindow(name: string, args: seq<Arg>) returns (st: CUILoadState)
      requires Valid()
      modifies this
      ensures Valid() && name in uiWindows && st == uiWindows[name]
      ensures WindowOpened(name, args)
    {
      if name !in uiWindows {
        st := LoadWindow(name, true, args);
        return;
      }
      OnOpen(name, args);
      st := uiWindows[name];
    }

    /** Close `name` if it is open, otherwise open it. */
    method ToggleWindow(name: string, args: seq<Arg>)
      requires Valid()
      modifies this, WindowOf(name)
      ensures Valid()
      ensures old(IsOpen(name)) ==> Closed(name) && !IsOpen(name) && !old(GetUIBase(name)).active
      ensures !old(IsOpen(name)) ==> WindowOpened(name, args)
      ensures !old(IsOpen(name)) ==> forall c | c in old(WindowOf(name)) :: c.active == old(c.active)
    {
      if IsOpen(name) {
        CloseWindow(name);
      } else {
        var _ := OpenWindow(name, args);
      }
    }

    /** Open instance `instanceName` of `template`. A known instance is simply
        opened. Otherwise a loading placeholder is registered and the clone
        closure, with the caller's arguments, is queued on the template through
        CallUI (which loads the template if need be). */
    method OpenDynamicWindow(template: string, instanceName: string, args: seq<Arg>) returns (st: CUILoadState)
      requires Valid()
      modifies this
      ensures Valid() && instanceName in uiWindows && st == uiWindows[instanceName]
      ensures instanceName in old(uiWindows) ==> Opened(instanceName, args)
      ensures instanceName !in old(uiWindows) ==>
        var reg := old(uiWindows)[instanceName := DynamicPlaceholder(template, instanceName)];
        var t := if template in reg then reg[template] else StaticLoadState(template, false, []);
        var r := t.DoCallback(DynamicClone(template, instanceName, args), Some([]));
        && uiWindows == reg[template := r.0]
        && trace == old(trace) + r.1
        && pendingOpens == old(pendingOpens)
    {
      if instanceName in uiWindows {
        OnOpen(instanceName, args);
        st := uiWindows[instanceName];
        return;
      }
      uiWindows := uiWindows[instanceName := DynamicPlaceholder(template, instanceName)];
      CallUI(template, DynamicClone(template, instanceName, args), Some([]));
      st := uiWindows[instanceName];
    }

    /** The first loop of DestroyAllWindows: every key that passes IsLoad,
        in the dictionary's order (which the model leaves open). */
    method LoadedNames() returns (names: seq<string>)
      ensures Distinct(names)
      ensures forall n :: n in names <==> IsLoad(n)
    {
      var keys := uiWindows.Keys;
      names := [];
      while keys != {}
        invariant keys <= uiWindows.Keys
        invariant Distinct(names)
        invariant forall n :: n in names ==> n in uiWindows && n !in keys
        invariant forall n :: n in uiWindows ==> n in keys || n in names
        decreases keys
      {
        var key :| key in keys;
        if IsLoad(key) {
          names := names + [key];
        }
        keys := keys - {key};
      }
    }

    /** The second loop of DestroyAllWindows: DestroyWindow on each listed
        name, which drops exactly the listed entries that have a window. */
    method DestroyListed(names: seq<string>)
      requires Valid() && Distinct(names)
      modifies this
      ensures Valid() && pendingOpens == old(pendingOpens)
      ensures uiWindows == AfterDestroying(old(uiWindows), names)
      ensures trace == DestroyTrace(old(trace), names, old(uiWindows))
    {
      for i := 0 to |names|
        invariant Valid() && pendingOpens == old(pendingOpens)
        invariant uiWindows == AfterDestroying(old(uiWindows), names[..i])
        invariant trace == DestroyTrace(old(trace), names[..i], old(uiWindows))
      {
        assert names[..i + 1] == names[..i] + [names[i]];
        assert names[i] !in names[..i];
        if names[i] in old(uiWindows) {
          AfterDestroyingStep(old(uiWindows), names[..i], names[i]);
        }
        DestroyTraceStep(old(trace), names[..i], names[i], old(uiWindows));
        DestroyWindow(names[i]);
      }
      assert names[..|names|] == names;
    }

    /** Destroy every window that has an entry. Every key passes the IsLoad
        test, so all are listed; DestroyWindow then skips the entries still
        loading, so exactly those survive. */
    method DestroyAllWindows() returns (ghost loadList: seq<string>)
      requires Valid()
      modifies this
      ensures Valid() && pendingOpens == old(pendingOpens)
      ensures Distinct(loadList) && (forall n :: n in loadList <==> n in old(uiWindows))
      ensures uiWindows == map n | n in old(uiWindows) && old(uiWindows)[n].isLoading :: old(uiWindows)[n]
      ensures trace == DestroyTrace(old(trace), loadList, old(uiWindows))
    {
      var list := LoadedNames();
      DestroyListed(list);
      loadList := list;
    }

    /** The first loop of CloseAllWindows: every key that is open, in the
        dictionary's order. */
    method OpenNames() returns (names: seq<string>)
      ensures Distinct(names)
      ensures forall n :: n in names <==> IsOpen(n)
    {
      var keys := uiWindows.Keys;
      names := [];
      while keys != {}
        invariant keys <= uiWindows.Keys
        invariant Distinct(names)
        invariant forall n :: n in names ==> IsOpen(n) && n !in keys
        invariant forall n :: n in uiWindows && n !in keys && IsOpen(n) ==> n in names
        decreases keys
      {
        var key :| key in keys;
        if IsOpen(key) {
          names := names + [key];
        }
        keys := keys - {key};
      }
    }

    /** One turn of the second loop of CloseAllWindows: close `names[i]`,
        extending the closed suffix of the list by one. */
    method CloseListedAt(names: seq<string>, i: nat, ghost reg: map<string, CUILoadState>, ghost before: seq<Event>)
      requires Valid() && Distinct(names) && i < |names|
      requires forall n :: n in names ==> n in reg && !reg[n].isLoading
      requires uiWindows == AfterClosing(reg, names[i + 1..])
      requires trace == CloseAllTrace(before, names[i + 1..], reg)
      modifies this, WindowOf(names[i])
      ensures Valid() && pendingOpens == old(pendingOpens)
      ensures uiWindows == AfterClosing(reg, names[i..])
      ensures trace == CloseAllTrace(before, names[i..], reg)
      ensures !reg[names[i]].uiWindow.active
      ensures forall c: KUIController :: c in old(Windows()) && c != reg[names[i]].uiWindow ==> c.active == old(c.active)
    {
      assert names[i] !in names[i + 1..];
      assert names[i..] == [names[i]] + names[i + 1..];
      AfterClosingStep(reg, names[i], names[i + 1..]);
      CloseAllTraceStep(before, names[i], names[i + 1..], reg);
      CloseWindow(names[i]);
    }

    /** The second loop of CloseAllWindows: CloseWindow on each listed loaded
        name, last first. */
    method CloseListedReversed(names: seq<string>)
      requires Valid() && Distinct(names)
      requires forall n :: n in names ==> n in uiWindows && !uiWindows[n].isLoading
      modifies this, Windows()
      ensures Valid() && pendingOpens == old(pendingOpens)
      ensures forall n :: n in names ==> !old(uiWindows)[n].uiWindow.active
      ensures forall c: KUIController :: c in old(Windows()) && (forall n :: n in names ==> c != old(uiWindows)[n].uiWindow) ==>
        c.active == old(c.active)
      ensures uiWindows == AfterClosing(old(uiWindows), names)
      ensures trace == CloseAllTrace(old(trace), names, old(uiWindows))
    {
      var i := |names|;
      while i > 0
        invariant 0 <= i <= |names|
        invariant Valid() && pendingOpens == old(pendingOpens)
        invariant uiWindows == AfterClosing(old(uiWindows), names[i..])
        invariant forall k :: i <= k < |names| ==> !old(uiWindows)[names[k]].uiWindow.active
        invariant forall c: KUIController :: c in old(Windows()) && (forall n :: n in names[i..] ==> c != old(uiWindows)[n].uiWindow) ==>
          c.active == old(c.active)
        invariant trace == CloseAllTrace(old(trace), names[i..], old(uiWindows))
      {
        i := i - 1;
        assert old(uiWindows)[names[i]].uiWindow in old(Windows());
        CloseListedAt(names, i, old(uiWindows), old(trace));
      }
      assert names[0..] == names;
    }

    /** Close every open window: collect the open names, then close them last
        first. Closed static windows stay registered, the others go. */
    method CloseAllWindows() returns (ghost toCloses: seq<string>)
      requires Valid()
      modifies this, Windows()
      ensures Valid() && pendingOpens == old(pendingOpens)
      ensures Distinct(toCloses) && (forall n :: n in toCloses <==> old(IsOpen(n)))
      ensures forall n :: n in toCloses ==> !IsOpen(n)
      ensures forall n :: !IsOpen(n)
      ensures forall n :: n in toCloses ==> n in old(uiWindows) && old(uiWindows)[n].uiWindow != null
      ensures uiWindows == AfterClosing(old(uiWindows), toCloses)
      ensures trace == CloseAllTrace(old(trace), toCloses, old(uiWindows))
    {
      var list := OpenNames();
      CloseListedReversed(list);
      toCloses := list;
    }
  }
}
