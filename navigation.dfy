/** Navigation: which tab and which section carry the `active` class. */
module Navigation {
  import opened Strings

  /** A `.nav-link` or a `.section`: the key it is matched on (a link's
      `data-section` attribute, absent when the attribute is missing; a
      section's `id`, which is always present) and whether it carries `active`. */
  datatype Marker = Marker(key: Option<string>, active: bool)

  /** Every marker carries a key: true of sections, whose `id` is never null. */
  predicate AllKeyed(ms: seq<Marker>)
  {
    forall i :: 0 <= i < |ms| ==> ms[i].key.Some?
  }

  /** Every marker loses `active`, then gets it back exactly when its key
      equals the requested name. The name is null (None) when the clicked
      link has no `data-section`, and then it equals the key of every link
      without one. */
  function Activate(ms: seq<Marker>, name: Option<string>): (r: seq<Marker>)
  {
    seq(|ms|, i requires 0 <= i < |ms| => ms[i].(active := ms[i].key == name))
  }

  /** Exactly the markers keyed by the name are active; keys are untouched. */
  lemma ActivateExclusive(ms: seq<Marker>, name: Option<string>)
    ensures |Activate(ms, name)| == |ms|
    ensures forall i :: 0 <= i < |ms| ==>
      Activate(ms, name)[i].key == ms[i].key && (Activate(ms, name)[i].active <==> ms[i].key == name)
  {
  }

  /** A name no marker is keyed by leaves every marker inactive. */
  lemma UnknownNameDeactivatesAll(ms: seq<Marker>, name: Option<string>)
    requires forall i :: 0 <= i < |ms| ==> ms[i].key != name
    ensures forall i :: 0 <= i < |Activate(ms, name)| ==> !Activate(ms, name)[i].active
  {
  }

  /** With distinct keys, a known name leaves exactly one marker active. */
  lemma KnownNameActivatesOne(ms: seq<Marker>, name: string, k: nat)
    requires k < |ms| && ms[k].key == Some(name)
    requires forall i, j :: 0 <= i < j < |ms| ==> ms[i].key != ms[j].key
    ensures Activate(ms, Some(name))[k].active
    ensures forall i :: 0 <= i < |ms| && Activate(ms, Some(name))[i].active ==> i == k
  {
  }

  /** A click on a link without `data-section` switches to the null name:
      every link lacking the attribute becomes active, and no section does. */
  lemma NullNameActivatesUnkeyed(links: seq<Marker>, sections: seq<Marker>)
    requires AllKeyed(sections)
    ensures forall i :: 0 <= i < |links| ==> (Activate(links, None)[i].active <==> links[i].key.None?)
    ensures forall i :: 0 <= i < |sections| ==> !Activate(sections, None)[i].active
  {
  }

  /** Only the last switch matters: what was active before is forgotten. */
  lemma ActivateForgetsHistory(ms: seq<Marker>, first: Option<string>, second: Option<string>)
    ensures Activate(Activate(ms, first), second) == Activate(ms, second)
  {
  }

  /** Switching changes no key, so sections stay keyed. */
  lemma ActivateKeepsKeyed(ms: seq<Marker>, name: Option<string>)
    requires AllKeyed(ms)
    ensures AllKeyed(Activate(ms, name))
  {
  }
}
