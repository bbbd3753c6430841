/** Values shared by the window registry, its load states and the module:
    argument arrays, callbacks, controllers and the observable trace. */
module UITypes {

  datatype Option<T> = None | Some(value: T) {
    function GetOr(default: T): T {
      match this
      case Some(v) => v
      case None => default
    }
  }

  /** One element of an `object[]` argument array. The core only ever casts
      elements to `string`; every other object is known by its identity. */
  datatype Arg = Str(s: string) | Obj(id: nat)

  /** A callback handed to CallUI / CallDynamicUI. A user callback is opaque;
      the closure OpenDynamicWindow queues on the template carries what it
      captured: the template, the instance name and the caller's arguments. */
  datatype Callback =
    | User(id: nat)
    | DynamicClone(template: string, instanceName: string, args: seq<Arg>)

  /** A window controller: an object with an identity, the two names the core
      stamps on it, and the active flag of its game object (`activeSelf`). */
  class KUIController {
    const uiName: string
    const uiTemplateName: string
    var active: bool

    constructor (name: string, template: string, isActive: bool)
      ensures uiName == name && uiTemplateName == template && active == isActive
    {
      uiName := name;
      uiTemplateName := template;
      active := isActive;
    }
  }

  /** What the outside world sees: controller hooks, the three module events,
      the bridge filter, object destruction and callback invocations. */
  datatype Event =
    | UIObjectFilter(source: KUIController, target: KUIController)
    | OnInit(c: KUIController)
    | BeforeOpen(c: KUIController, args: seq<Arg>)
    | OnOpen(c: KUIController, args: seq<Arg>)
    | OnClose(c: KUIController)
    | InitEvent(c: KUIController)
    | OpenEvent(c: KUIController)
    | CloseEvent(c: KUIController)
    | Destroyed(c: KUIController)
    | Invoked(callback: Callback, ui: KUIController?, args: seq<Arg>)

  /** The continuation handed to BeforeOpen, not yet fired by the controller. */
  datatype PendingOpen = PendingOpen(c: KUIController, args: seq<Arg>)
}
