/** The router, recorded as the list of navigations requested of it. Where the
    application navigates is an output of the model, not a view change. */
module Navigation {

  datatype Navigation = Navigation(path: string, query: map<string, string>)

  const LoginPath := "/login"
  const DashboardPath := "/dashboard"

  function To(path: string): Navigation {
    Navigation(path, map[])
  }

  class Router {
    var history: seq<Navigation>

    constructor ()
      ensures history == []
    {
      history := [];
    }

    method Navigate(n: Navigation)
      modifies this
      ensures history == old(history) + [n]
    {
      history := history + [n];
    }
  }
}

/** notification.service.ts: the list of toasts currently shown. `show`
    appends one entry, `remove` filters out an id, `clear` empties the list. */
module Notifications {
  import opened Common

  datatype Kind = Success | Error | Warning | Info

  /** What a caller hands to `show`: everything but the id and timestamp. */
  datatype Draft = Draft(kind: Kind, title: string, message: string, duration: Option<int>)

  datatype Notification = Notification(
    id: string, kind: Kind, title: string, message: string, duration: int)

  const DefaultDuration := 5000

  /** The entry `show` builds: the caller's fields, the generated id, and
      `duration || 5000`. */
  function Stamped(d: Draft, id: string): (n: Notification)
    ensures n.id == id
    ensures n.kind == d.kind && n.title == d.title && n.message == d.message
    ensures n.duration != 0
    ensures d.duration.Some? && d.duration.value != 0 ==> n.duration == d.duration.value
    ensures !(d.duration.Some? && d.duration.value != 0) ==> n.duration == DefaultDuration
  {
    var duration := if d.duration.Some? && d.duration.value != 0 then d.duration.value else DefaultDuration;
    Notification(id, d.kind, d.title, d.message, duration)
  }

  /** The list `remove(id)` leaves: `filter(n => n.id !== id)`. */
  function WithoutId(s: seq<Notification>, id: string): (r: seq<Notification>)
    ensures forall n :: n in r <==> n in s && n.id != id
  {
    Filter(s, (n: Notification) => n.id != id)
  }

  lemma WithoutIdKeepsOrder(s: seq<Notification>, id: string)
    ensures IsSubsequence(WithoutId(s, id), s)
  {
    FilterIsSubsequence(s, (n: Notification) => n.id != id);
  }

  /** Removing an id that no entry carries changes nothing. */
  lemma WithoutUnknownId(s: seq<Notification>, id: string)
    requires forall n :: n in s ==> n.id != id
    ensures WithoutId(s, id) == s
  {
    FilterAll(s, (n: Notification) => n.id != id);
  }

  class NotificationService {
    var notifications: seq<Notification>
    /** How many ids have been drawn from the generator. */
    var issued: nat
    /** The (random) id generator, as the sequence of ids it yields. */
    const idSource: nat -> string

    constructor (idSource: nat -> string)
      ensures notifications == [] && issued == 0 && this.idSource == idSource
    {
      notifications := [];
      issued := 0;
      this.idSource := idSource;
    }

    /** `show`; the automatic removal timer is not modelled. */
    method Show(d: Draft)
      modifies this
      ensures issued == old(issued) + 1
      ensures notifications == old(notifications) + [Stamped(d, idSource(old(issued)))]
    {
      notifications := notifications + [Stamped(d, idSource(issued))];
      issued := issued + 1;
    }

    method NotifySuccess(title: string, message: string, duration: Option<int>)
      modifies this
      ensures issued == old(issued) + 1
      ensures notifications == old(notifications) + [Stamped(Draft(Success, title, message, duration), idSource(old(issued)))]
    {
      Show(Draft(Success, title, message, duration));
    }

    method NotifyError(title: string, message: string, duration: Option<int>)
      modifies this
      ensures issued == old(issued) + 1
      ensures notifications == old(notifications) + [Stamped(Draft(Error, title, message, duration), idSource(old(issued)))]
    {
      Show(Draft(Error, title, message, duration));
    }

    method NotifyWarning(title: string, message: string, duration: Option<int>)
      modifies this
      ensures issued == old(issued) + 1
      ensures notifications == old(notifications) + [Stamped(Draft(Warning, title, message, duration), idSource(old(issued)))]
    {
      Show(Draft(Warning, title, message, duration));
    }

    method NotifyInfo(title: string, message: string, duration: Option<int>)
      modifies this
      ensures issued == old(issued) + 1
      ensures notifications == old(notifications) + [Stamped(Draft(Info, title, message, duration), idSource(old(issued)))]
    {
      Show(Draft(Info, title, message, duration));
    }

    method Remove(id: string)
      modifies this
      ensures issued == old(issued)
      ensures notifications == WithoutId(old(notifications), id)
    {
      notifications := WithoutId(notifications, id);
    }

    method Clear()
      modifies this
      ensures issued == old(issued)
      ensures notifications == []
    {
      notifications := [];
    }
  }
}
