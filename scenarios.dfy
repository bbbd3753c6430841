/** Flows a game drives through the module, each from a fresh module, with
    the trace and registry they end in. The load of a window is the step
    LoadUIAssetBundle and the controller confirming an open is ConfirmOpen. */
module UIScenarios {
  import opened UITypes
  import opened UILoadState
  import opened UIModule

  /** The events of a load that shows window `c` and a two-phase open of it. */
  function LoadedOpen(c: KUIController, args: seq<Arg>): seq<Event> {
    [UIObjectFilter(c, c), OnInit(c), InitEvent(c), BeforeOpen(c, args), Event.OnOpen(c, args), OpenEvent(c)]
  }

  /** Opening a window twice while it loads registers one state; the load
      opens it with the arguments of the last request, in two phases. */
  method OpenTwiceThenLoad(first: seq<Arg>, last: seq<Arg>) returns (m: KUIModule, c: KUIController)
    ensures fresh(m) && fresh(c) && m.Valid() && m.IsOpen("Login")
    ensures m.uiWindows == map["Login" := StaticLoadState("Login", true, last).(uiWindow := c, isLoading := false)]
    ensures m.trace == LoadedOpen(c, last) && m.pendingOpens == []
  {
    m := new KUIModule();
    var _ := m.OpenWindow("Login", first);
    var _ := m.OpenWindow("Login", last);
    assert m.uiWindows == map["Login" := StaticLoadState("Login", true, last)];
    c := m.LoadUIAssetBundle("Login");
    m.ConfirmOpen(0);
  }

  /** A close while loading cancels the open: the window loads hidden and
      stays registered. */
  method CloseWhileLoading(args: seq<Arg>) returns (m: KUIModule, c: KUIController)
    ensures m.Valid() && !m.IsOpen("Login") && m.IsLoad("Login")
    ensures m.trace == [UIObjectFilter(c, c), OnInit(c), InitEvent(c)]
    ensures m.pendingOpens == []
  {
    m := new KUIModule();
    var _ := m.OpenWindow("Login", args);
    m.CloseWindow("Login");
    c := m.LoadUIAssetBundle("Login");
  }

  /** CallUI on an unknown window loads it without opening it; the queued
      callbacks run once it has loaded, in order, with their own arguments,
      and a later one runs at once. */
  method CallbacksWaitForTheLoad() returns (m: KUIModule, c: KUIController)
    ensures m.Valid() && !m.IsOpen("Bag")
    ensures m.trace == [UIObjectFilter(c, c), OnInit(c), InitEvent(c),
                        Invoked(User(1), c, []), Invoked(User(2), c, [Str("x")]),
                        Invoked(User(3), c, [])]
    ensures m.pendingOpens == []
  {
    m := new KUIModule();
    m.CallUI("Bag", User(1), None);
    m.CallUI("Bag", User(2), Some([Str("x")]));
    assert m.uiWindows["Bag"] == StaticLoadState("Bag", false, []).(
      callbacksWhenFinish := [User(1), User(2)], callbacksArgsWhenFinish := [[], [Str("x")]]);
    c := m.LoadUIAssetBundle("Bag");
    assert Invocations([User(1), User(2)], [[], [Str("x")]], c)
        == [Invoked(User(1), c, []), Invoked(User(2), c, [Str("x")])];
    assert m.trace == [UIObjectFilter(c, c), OnInit(c), InitEvent(c),
                       Invoked(User(1), c, []), Invoked(User(2), c, [Str("x")])];
    m.CallUI("Bag", User(3), None);
  }

  /** After DestroyWindow, opening the name starts a new load that makes a
      new window. */
  method DestroyThenReopen(args: seq<Arg>) returns (m: KUIModule, c1: KUIController, c2: KUIController)
    ensures m.Valid() && c1 != c2 && m.GetUIBase("Login") == c2
    ensures m.trace == LoadedOpen(c1, args) + [Destroyed(c1)]
                       + [UIObjectFilter(c2, c2), OnInit(c2), InitEvent(c2), BeforeOpen(c2, args)]
    ensures m.pendingOpens == [PendingOpen(c2, args)]
  {
    m, c1 := OpenTwiceThenLoad(args, args);
    m.DestroyWindow("Login");
    assert m.uiWindows == map[];
    var _ := m.OpenWindow("Login", args);
    assert m.uiWindows == map["Login" := StaticLoadState("Login", true, args)];
    c2 := m.LoadUIAssetBundle("Login");
  }

  /** Toggling an open static window closes it and keeps it registered;
      toggling again opens it. */
  method ToggleTwice(args: seq<Arg>) returns (m: KUIModule, c: KUIController)
    ensures m.Valid() && m.IsOpen("Login")
    ensures m.trace == LoadedOpen(c, args) + [OnClose(c), CloseEvent(c)]
                       + [BeforeOpen(c, args)] + [Event.OnOpen(c, args), OpenEvent(c)]
  {
    m, c := OpenTwiceThenLoad(args, args);
    ghost var reg := m.uiWindows;
    m.ToggleWindow("Login", args);
    assert m.uiWindows == reg && !c.active;
    m.ToggleWindow("Login", args);
    assert m.pendingOpens == [PendingOpen(c, args)];
    m.ConfirmOpen(0);
  }

  /** A dynamic instance of a template not yet loaded: a hidden placeholder
      is registered and the template loads without opening; its drain calls
      the clone closure. */
  method DynamicTemplateLoads(args: seq<Arg>) returns (m: KUIModule, t: KUIController)
    ensures fresh(m) && fresh(t) && m.Valid() && !t.active
    ensures m.uiWindows == map["Tip1" := DynamicPlaceholder("Tip", "Tip1"),
                               "Tip" := StaticLoadState("Tip", false, []).(uiWindow := t, isLoading := false)]
    ensures m.trace == [UIObjectFilter(t, t), OnInit(t), InitEvent(t), Invoked(DynamicClone("Tip", "Tip1", args), t, [])]
    ensures m.pendingOpens == []
  {
    m := new KUIModule();
    var _ := m.OpenDynamicWindow("Tip", "Tip1", args);
    ghost var queued := StaticLoadState("Tip", false, []).DoCallback(DynamicClone("Tip", "Tip1", args), Some([]));
    assert queued.0 == StaticLoadState("Tip", false, []).(
                                callbacksWhenFinish := [DynamicClone("Tip", "Tip1", args)],
                                callbacksArgsWhenFinish := [[]]);
    assert "Tip" !in map["Tip1" := DynamicPlaceholder("Tip", "Tip1")];
    assert m.uiWindows == map["Tip1" := DynamicPlaceholder("Tip", "Tip1"),
                              "Tip" := StaticLoadState("Tip", false, []).(
                                callbacksWhenFinish := [DynamicClone("Tip", "Tip1", args)],
                                callbacksArgsWhenFinish := [[]])];
    t := m.LoadUIAssetBundle("Tip");
    assert Invocations([DynamicClone("Tip", "Tip1", args)], [[]], t) == [Invoked(DynamicClone("Tip", "Tip1", args), t, [])];
  }

  /** The clone step then opens a new window for the instance, named after
      it, with the arguments the closure captured. */
  method DynamicInstance(args: seq<Arg>) returns (m: KUIModule, t: KUIController, ghost clone: KUIController)
    ensures fresh(m) && fresh(clone) && m.Valid() && m.IsOpen("Tip1") && !m.IsOpen("Tip")
    ensures clone != t && clone.uiName == "Tip1" && clone.uiTemplateName == "Tip"
    ensures m.GetUIBase("Tip1") == clone && !m.uiWindows["Tip1"].isStaticUI
    ensures m.trace == [UIObjectFilter(t, t), OnInit(t), InitEvent(t), Invoked(DynamicClone("Tip", "Tip1", args), t, [])]
                       + [UIObjectFilter(t, clone), OnInit(clone), InitEvent(clone), BeforeOpen(clone, args)]
                       + [Event.OnOpen(clone, args), OpenEvent(clone)]
  {
    m, t := DynamicTemplateLoads(args);
    clone := m.DynamicCloneCallback("Tip", "Tip1", args);
    assert m.pendingOpens == [PendingOpen(clone, args)];
    m.ConfirmOpen(0);
  }

  /** Toggling an open dynamic instance destroys it; toggling the name again
      starts a static load of a window named after the instance. */
  method ToggleDynamicInstance(args: seq<Arg>) returns (m: KUIModule)
    ensures m.Valid() && "Tip1" in m.uiWindows && m.uiWindows["Tip1"] == StaticLoadState("Tip1", true, args)
  {
    var t;
    ghost var clone;
    m, t, clone := DynamicInstance(args);
    m.ToggleWindow("Tip1", args);
    assert "Tip1" !in m.uiWindows;
    m.ToggleWindow("Tip1", args);
  }
}
