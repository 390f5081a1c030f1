/** The page's toast notifications (showNotification in script.js). Showing a
    notification first removes every notification on the page and then
    appends the new one; each notification later removes itself, unless it
    has already been detached. Elements are identified by an id handed out
    at creation. */
module Notifications {
  import opened Wrappers

  const SuccessBackground: string := "linear-gradient(135deg, #10b981, #059669)"
  const ErrorBackground: string := "linear-gradient(135deg, #ef4444, #dc2626)"
  const InfoBackground: string := "linear-gradient(135deg, #3b82f6, #2563eb)"

  /** One notification element: its id, text, type, class list and background. */
  datatype Notice = Notice(id: nat, message: string, kind: string, className: string, background: string)

  /** The background lookup `colors[type] || colors.info`: the three known
      types get their own gradient, every other type the `info` one. */
  function Background(kind: string): (bg: string)
    ensures bg == SuccessBackground <==> kind == "success"
    ensures bg == ErrorBackground <==> kind == "error"
    ensures bg == InfoBackground <==> kind != "success" && kind != "error"
  {
    if kind == "success" then SuccessBackground
    else if kind == "error" then ErrorBackground
    else InfoBackground
  }

  /** The element built for a call: class `notification notification-<type>`. */
  function MakeNotice(id: nat, message: string, kind: string): (n: Notice)
    ensures n.id == id && n.message == message && n.kind == kind
    ensures n.background == Background(kind)
  {
    Notice(id, message, kind, "notification notification-" + kind, Background(kind))
  }

  /** The notifications left after detaching the element with the given id
      (in document order). */
  function Without(ns: seq<Notice>, id: nat): (r: seq<Notice>)
    ensures forall n :: n in r <==> n in ns && n.id != id
    ensures |r| <= |ns|
  {
    if ns == [] then []
    else if ns[0].id == id then Without(ns[1..], id)
    else [ns[0]] + Without(ns[1..], id)
  }

  /** Detaching an element that is no longer on the page changes nothing. */
  lemma {:induction false} WithoutAbsent(ns: seq<Notice>, id: nat)
    requires forall n :: n in ns ==> n.id != id
    ensures Without(ns, id) == ns
  {
    if ns != [] {
      assert ns[0] in ns;
      assert forall n :: n in ns[1..] ==> n in ns;
      WithoutAbsent(ns[1..], id);
      assert ns == [ns[0]] + ns[1..];
    }
  }

  /** The notifications currently attached to the page body. */
  class NotificationArea {
    var notices: seq<Notice>
    var nextId: nat

    /** At most one notification is ever attached, and every attached one
        carries an id that has already been handed out. */
    ghost predicate Valid()
      reads this
    {
      |notices| <= 1 && forall n :: n in notices ==> n.id < nextId
    }

    constructor ()
      ensures Valid() && notices == [] && nextId == 0
    {
      notices := [];
      nextId := 0;
    }

    /** showNotification(message, type): every existing notification is
        removed, then the new one is appended. An absent type means `info`. */
    method Show(message: string, kind: Option<string>) returns (id: nat)
      requires Valid()
      modifies this
      ensures Valid()
      ensures id == old(nextId) && nextId == old(nextId) + 1
      ensures notices == [MakeNotice(id, message, kind.GetOr("info"))]
      ensures forall n :: n in old(notices) ==> n !in notices
    {
      id := nextId;
      nextId := nextId + 1;
      var existing := notices;
      while existing != []
        invariant notices == existing && nextId == old(nextId) + 1
        invariant forall n :: n in notices ==> n in old(notices)
        decreases |existing|
      {
        existing := Without(existing, existing[0].id);
        notices := existing;
      }
      notices := notices + [MakeNotice(id, message, kind.GetOr("info"))];
    }

    /** The delayed removal: detach the element if it still has a parent. */
    method RemoveLater(id: nat)
      requires Valid()
      modifies this
      ensures Valid() && nextId == old(nextId)
      ensures notices == Without(old(notices), id)
      ensures (forall n :: n in old(notices) ==> n.id != id) ==> notices == old(notices)
    {
      if forall n :: n in notices ==> n.id != id {
        WithoutAbsent(notices, id);
      }
      notices := Without(notices, id);
    }
  }
}
