/**
 * What the tabs of one browser coordinate through (apps/law/web/src/session/
 * tab-coordination.ts): the refresh lock as a queue, and broadcasts that reach
 * every other tab.
 */
module TabCoordination {
  import opened Wrappers
  import opened SessionKit

  /** A lock section begins or ends. */
  datatype Section = Began(tab: nat) | Ended(tab: nat)

  /** Whose section is open after these, if the sections never overlapped. */
  function Open(log: seq<Section>): Option<nat> {
    if log == [] then None
    else if log[|log| - 1].Began? then Some(log[|log| - 1].tab) else None
  }

  /** A section begins only when none is open, and the one that ends is the one open. */
  predicate OneAtATime(log: seq<Section>) {
    log == []
    || (&& OneAtATime(log[..|log| - 1])
        && Open(log[..|log| - 1]) == if log[|log| - 1].Began? then None else Some(log[|log| - 1].tab))
  }

  lemma SectionAdded(log: seq<Section>, next: Section)
    requires OneAtATime(log) && Open(log) == if next.Began? then None else Some(next.tab)
    ensures OneAtATime(log + [next]) && Open(log + [next]) == if next.Began? then Some(next.tab) else None
  {
    assert (log + [next])[..|log|] == log;
  }

  /** Between the beginnings of any two sections the first of them has ended. */
  lemma {:induction false} SectionsDoNotOverlap(log: seq<Section>, i: nat, k: nat)
    requires OneAtATime(log) && i < k < |log| && log[i].Began? && log[k].Began?
    ensures exists j :: i < j < k && log[j] == Ended(log[i].tab)
    decreases |log|
  {
    var front := log[..|log| - 1];
    if k < |log| - 1 {
      SectionsDoNotOverlap(front, i, k);
      var j :| i < j < k && front[j] == Ended(front[i].tab);
      assert log[j] == Ended(log[i].tab);
    } else {
      OpenUntilEnded(front, i);
    }
  }

  lemma {:induction false} OpenUntilEnded(log: seq<Section>, i: nat)
    requires OneAtATime(log) && i < |log| && log[i].Began?
    ensures Open(log) == Some(log[i].tab) || exists j :: i < j < |log| && log[j] == Ended(log[i].tab)
    decreases |log|
  {
    if i < |log| - 1 {
      var front := log[..|log| - 1];
      OpenUntilEnded(front, i);
      if j :| i < j < |front| && front[j] == Ended(front[i].tab) {
        assert log[j] == Ended(log[i].tab);
      } else {
        assert log[|log| - 1] == Ended(log[i].tab);
      }
    }
  }

  class MemoryCoordinationHub {
    /** What each tab has been told and not yet heard, oldest first. */
    var inboxes: seq<seq<Message>>
    /** Who asked for the lock, in order; the first one runs. */
    var queue: seq<nat>
    /** Every section that has begun or ended. */
    ghost var log: seq<Section>

    ghost predicate Valid()
      reads this
    {
      && (forall i | 0 <= i < |queue| :: queue[i] < |inboxes|)
      && OneAtATime(log) && Open(log) == if queue == [] then None else Some(queue[0])
    }

    /** What each tab has yet to hear, by tab. */
    function Mail(): map<nat, seq<Message>>
      reads this
    {
      map t: nat | t < |inboxes| :: inboxes[t]
    }

    constructor ()
      ensures Valid() && inboxes == [] && queue == [] && log == []
    {
      inboxes, queue, log := [], [], [];
    }

    method Attach() returns (tab: nat)
      requires Valid()
      modifies this
      ensures Valid() && tab == |old(inboxes)| && inboxes == old(inboxes) + [[]] && queue == old(queue) && log == old(log)
    {
      tab := |inboxes|;
      inboxes := inboxes + [[]];
    }

    /** Queues behind everyone who asked before; runs at once only when nobody did. */
    method RequestLock(tab: nat) returns (runs: bool)
      requires Valid() && tab < |inboxes|
      modifies this`queue, this`log
      ensures Valid() && queue == old(queue) + [tab]
      ensures runs <==> old(queue) == []
      ensures log == old(log) + if runs then [Began(tab)] else []
    {
      runs := queue == [];
      queue := queue + [tab];
      if runs {
        SectionAdded(log, Began(tab));
        log := log + [Began(tab)];
      }
    }

    /** The running section is over, whether it succeeded or threw; only then the next in line runs. */
    method Release() returns (finished: nat)
      requires Valid() && queue != []
      modifies this`queue, this`log
      ensures Valid() && old(queue) == [finished] + queue && Open(old(log)) == Some(finished)
      ensures log == old(log) + [Ended(finished)] + if queue == [] then [] else [Began(queue[0])]
    {
      finished := queue[0];
      queue := queue[1..];
      SectionAdded(log, Ended(finished));
      log := log + [Ended(finished)];
      if queue != [] {
        SectionAdded(log, Began(queue[0]));
        log := log + [Began(queue[0])];
      }
    }

    method Broadcast(tab: nat, m: Message)
      requires Valid() && tab < |inboxes|
      modifies this`inboxes
      ensures Valid() && |inboxes| == |old(inboxes)| && Mail() == Told(old(Mail()), tab, m)
    {
      for other := 0 to |inboxes|
        invariant |inboxes| == |old(inboxes)|
        invariant forall t | 0 <= t < other :: inboxes[t] == old(inboxes)[t] + if t == tab then [] else [m]
        invariant forall t | other <= t < |inboxes| :: inboxes[t] == old(inboxes)[t]
      {
        if other != tab {
          inboxes := inboxes[other := inboxes[other] + [m]];
        }
      }
      assert forall t | 0 <= t < |inboxes| :: inboxes[t] == if t == tab then old(inboxes)[t] else old(inboxes)[t] + [m];
    }

    /** A tab hears the oldest message it has been told. */
    method Deliver(tab: nat, kit: Kit)
      requires Valid() && tab < |inboxes| && inboxes[tab] != []
      modifies this`inboxes, kit
      ensures Valid() && Mail() == old(Mail())[tab := old(inboxes)[tab][1..]]
      ensures kit.View() == Hears(old(kit.View()), old(inboxes)[tab][0]) && kit.outbox == old(kit.outbox)
    {
      var m := inboxes[tab][0];
      inboxes := inboxes[tab := inboxes[tab][1..]];
      kit.OnBroadcast(m);
    }
  }
}
