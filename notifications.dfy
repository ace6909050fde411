/** The toast service: at most one notification on the page; a new one
    replaces whatever is shown; a toast goes away when its close button is
    pressed or its five-second timer fires. */
module Notifications {

  /** The `colorMap` background colour of each known notification type. */
  const Palette: map<string, string> :=
    map["success" := "#22c55e", "error" := "#ef4444", "warning" := "#f59e0b", "info" := "#3b82f6"]

  /** Background colour of a toast of the given type: its own colour when
      the type is known, the `info` colour otherwise. */
  function ColorFor(kind: string): (c: string)
    ensures c in Palette.Values
    ensures kind in Palette ==> c == Palette[kind]
    ensures c == Palette["info"] <==> (kind == "info" || kind !in Palette)
  {
    if kind in Palette then Palette[kind] else Palette["info"]
  }

  /** One `.notification` element. */
  class Toast {
    const message: string
    const kind: string
    const className: string
    const color: string

    constructor (message: string, kind: string)
      ensures this.message == message && this.kind == kind
      ensures className == "notification notification--" + kind
      ensures color == ColorFor(kind)
    {
      this.message := message;
      this.kind := kind;
      className := "notification notification--" + kind;
      color := ColorFor(kind);
    }
  }

  /** s with every occurrence of t taken out, order kept. */
  function Without(s: seq<Toast>, t: Toast): (r: seq<Toast>)
    ensures t !in r
    ensures forall i :: 0 <= i < |r| ==> r[i] in s && r[i] != t
    ensures forall i :: 0 <= i < |s| && s[i] != t ==> s[i] in r
    ensures t !in s ==> r == s
    ensures |r| <= |s|
  {
    if s == [] then []
    else if s[0] == t then Without(s[1..], t)
    else [s[0]] + Without(s[1..], t)
  }

  /** The toasts attached to the document body. */
  class NotificationCenter {
    var shown: seq<Toast>

    ghost predicate Valid()
      reads this
    {
      |shown| <= 1
    }

    constructor ()
      ensures Valid() && shown == []
    {
      shown := [];
    }

    /** `showNotification`: every existing toast is removed, then a new one
        of the given type (default `info`) is appended. */
    method Show(message: string, kind: string := "info") returns (t: Toast)
      requires Valid()
      modifies this
      ensures Valid()
      ensures fresh(t) && shown == [t]
      ensures t.message == message && t.kind == kind && t.color == ColorFor(kind)
      ensures t.className == "notification notification--" + kind
    {
      shown := [];
      t := new Toast(message, kind);
      shown := shown + [t];
    }

    /** The close button of t, or its auto-dismiss timer: removes t if it is
        still attached, and nothing else. */
    method Dismiss(t: Toast)
      requires Valid()
      modifies this
      ensures Valid()
      ensures shown == Without(old(shown), t)
      ensures t in old(shown) ==> shown == []
      ensures t !in old(shown) ==> shown == old(shown)
    {
      shown := Without(shown, t);
    }
  }

  /** Showing B while A is displayed removes A; A's later dismissal then
      leaves B in place. */
  method ReplaceThenDismissOld()
  {
    var center := new NotificationCenter();
    var a := center.Show("Syncing data to GoSystem Tax...", "info");
    var b := center.Show("Data synchronized successfully!", "success");
    assert center.shown == [b] && a !in center.shown;
    center.Dismiss(a);
    assert center.shown == [b];
    center.Dismiss(b);
    assert center.shown == [];
  }
}
