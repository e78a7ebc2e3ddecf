/** The browser-side collaborators: `localStorage`, the Angular `Router` (its navigations
    are recorded, not performed) and the network (the requests that left the client). */
module Browser {
  import opened Wrappers
  import opened Http

  class LocalStorage {
    var items: map<string, string>

    constructor (initial: map<string, string>)
      ensures items == initial
    {
      items := initial;
    }

    /** `getItem`: `null` for a missing key. */
    function GetItem(key: string): (r: Option<string>)
      reads this
      ensures r.Some? <==> key in items
      ensures r.Some? ==> r.value == items[key]
    {
      if key in items then Some(items[key]) else None
    }

    method SetItem(key: string, value: string)
      modifies this
      ensures items == old(items)[key := value]
    {
      items := items[key := value];
    }

    method RemoveItem(key: string)
      modifies this
      ensures items == old(items) - {key}
    {
      items := items - {key};
    }
  }

  /** Every `router.navigate(commands)` call, in order. */
  class Router {
    var history: seq<seq<string>>

    constructor ()
      ensures history == []
    {
      history := [];
    }

    method Navigate(commands: seq<string>)
      modifies this
      ensures history == old(history) + [commands]
    {
      history := history + [commands];
    }
  }

  /** Every request handed to the server, in the order they were sent. */
  class Network {
    var sent: seq<Request>

    constructor ()
      ensures sent == []
    {
      sent := [];
    }

    method Transmit(req: Request)
      modifies this
      ensures sent == old(sent) + [req]
    {
      sent := sent + [req];
    }
  }
}
