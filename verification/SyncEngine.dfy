/**
 The delete half of every sync: list, then delete one by one what a closure does not vouch for.
 The closure may dereference nil, and then the process dies where it stands.
 */
module SyncEngine {
  import opened Kube

  datatype Verdict = Keep | Drop | Panic

  datatype Outcome = Completed | Errored | Crashed

  /** `to` is `from` without some of the droppable objects, everything else as it was. */
  ghost predicate Trimmed(from: Store, to: Store, droppable: set<Key>) {
    && Submap(to, from)
    && forall k :: k in from && k !in to ==> k in droppable
  }

  function Droppable(items: Store, keep: string -> Verdict): set<Key> {
    set k | k in items && keep(k.name) == Drop
  }

  ghost predicate AllTrimmed(log: seq<Step>, n: nat, from: Store, droppable: set<Key>) {
    forall i :: n <= i < |log| ==> Trimmed(from, log[i].post.store, droppable)
  }

  method DeleteListed(c: Cluster, order: seq<Key>, items: Store, keep: string -> Verdict) returns (out: Outcome)
    requires Enumerates(order, items) && Submap(items, c.store)
    modifies c
    ensures old(c.log) <= c.log
    ensures AllTrimmed(c.log, |old(c.log)|, old(c.store), Droppable(items, keep))
    ensures Trimmed(old(c.store), c.store, Droppable(items, keep))
    ensures out.Completed? ==> c.store == old(c.store) - Droppable(items, keep)
    ensures out.Completed? ==> forall k :: k in items ==> keep(k.name) != Panic
    ensures out.Crashed? ==> exists k :: k in items && keep(k.name) == Panic
    ensures c.Reliable() ==> !out.Errored?
  {
    ghost var drop := Droppable(items, keep);
    out := Completed;
    for i := 0 to |order|
      invariant old(c.log) <= c.log && out.Completed?
      invariant AllTrimmed(c.log, |old(c.log)|, old(c.store), drop)
      invariant c.store == old(c.store) - Dropped(order[..i], keep)
      invariant forall j :: 0 <= j < i ==> keep(order[j].name) != Panic
    {
      var k := order[i];
      DroppedOn(order, i, keep, items);
      match keep(k.name) {
        case Panic => out := Crashed;
        case Keep =>
        case Drop =>
          var ack := c.Delete(k);
          if ack != Done { out := Errored; }
      }
      if !out.Completed? { break; }
    }
    if out.Completed? { AllDropped(order, items, keep); }
  }

  function Dropped(ks: seq<Key>, keep: string -> Verdict): set<Key> {
    set k | k in ks && keep(k.name) == Drop
  }

  lemma DroppedOn(order: seq<Key>, i: nat, keep: string -> Verdict, items: Store)
    requires Enumerates(order, items) && i < |order|
    ensures Dropped(order[..i + 1], keep) == Dropped(order[..i], keep) + if keep(order[i].name) == Drop then {order[i]} else {}
    ensures order[i] in items && order[i] !in Dropped(order[..i], keep)
    ensures Dropped(order[..i + 1], keep) <= Droppable(items, keep)
  {
    assert order[..i + 1] == order[..i] + [order[i]];
  }

  lemma AllDropped(order: seq<Key>, items: Store, keep: string -> Verdict)
    requires Enumerates(order, items)
    ensures Dropped(order[..|order|], keep) == Droppable(items, keep)
  {
    assert order[..|order|] == order;
  }

  /** The whole delete function, for the closures that need nothing but the sync's inputs. */
  method DeleteUnrequested(c: Cluster, kind: Kind, ns: string, keep: string -> Verdict) returns (out: Outcome)
    modifies c
    ensures old(c.log) <= c.log
    ensures AllTrimmed(c.log, |old(c.log)|, old(c.store), Droppable(Selected(old(c.store), kind, ns, map[]), keep))
    ensures Trimmed(old(c.store), c.store, Droppable(Selected(old(c.store), kind, ns, map[]), keep))
    ensures out.Completed? ==> c.store == old(c.store) - Droppable(Selected(old(c.store), kind, ns, map[]), keep)
    ensures out.Crashed? ==> exists k :: k in Selected(old(c.store), kind, ns, map[]) && keep(k.name) == Panic
    ensures c.Reliable() ==> !out.Errored?
  {
    var listing := c.List(kind, ns, map[]);
    if listing.ListFailed? { return Errored; }
    out := DeleteListed(c, listing.order, listing.items, keep);
  }
}
