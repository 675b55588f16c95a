/**
 * The in-process event dispatcher (packages/resource-api/src/publisher.ts):
 * handlers by kind, run in subscription order, each failure contained.
 */
module Publisher {
  const ANY_KIND := "*"

  type Handler = nat

  /** Which handlers one kind's events reach, from the history of subscriptions. */
  function Subscribed(history: seq<(string, Handler)>, kind: string): seq<Handler> {
    if history == [] then []
    else
      var last := history[|history| - 1];
      Subscribed(history[..|history| - 1], kind) + if last.0 == kind then [last.1] else []
  }

  function Reported(ran: seq<Handler>, failing: set<Handler>): seq<Handler> {
    if ran == [] then []
    else Reported(ran[..|ran| - 1], failing) + if ran[|ran| - 1] in failing then [ran[|ran| - 1]] else []
  }

  lemma ReportedNext(ran: seq<Handler>, h: Handler, failing: set<Handler>)
    ensures Reported(ran + [h], failing) == Reported(ran, failing) + if h in failing then [h] else []
  {
  }

  /** A handler is reported as often as it ran and failed, and never otherwise. */
  lemma {:induction false} ReportedExactly(ran: seq<Handler>, failing: set<Handler>, h: Handler)
    ensures multiset(Reported(ran, failing))[h] == if h in failing then multiset(ran)[h] else 0
  {
    if ran != [] {
      var front := ran[..|ran| - 1];
      assert ran == front + [ran[|ran| - 1]];
      ReportedExactly(front, failing, h);
    }
  }

  /** Later subscriptions never reorder or drop earlier ones. */
  lemma {:induction false} SubscriptionsAppend(earlier: seq<(string, Handler)>, later: seq<(string, Handler)>, kind: string)
    ensures Subscribed(earlier + later, kind) == Subscribed(earlier, kind) + Subscribed(later, kind)
  {
    if later == [] {
      assert earlier + later == earlier;
    } else {
      SubscriptionsAppend(earlier, later[..|later| - 1], kind);
      assert (earlier + later)[..|earlier + later| - 1] == earlier + later[..|later| - 1];
    }
  }

  class InProcessEventDispatcher {
    var handlers: map<string, seq<Handler>>
    ghost var history: seq<(string, Handler)>

    function HandlersOf(kind: string): seq<Handler>
      reads this
    {
      if kind in handlers then handlers[kind] else []
    }

    ghost predicate Valid()
      reads this
    {
      forall kind :: HandlersOf(kind) == Subscribed(history, kind)
    }

    constructor ()
      ensures Valid() && history == []
    {
      handlers := map[];
      history := [];
    }

    method Subscribe(kind: string, handler: Handler)
      requires Valid()
      modifies this
      ensures Valid() && history == old(history) + [(kind, handler)]
    {
      handlers := handlers[kind := HandlersOf(kind) + [handler]];
      history := history + [(kind, handler)];
      assert forall k :: Subscribed(history, k) == Subscribed(old(history), k) + (if k == kind then [handler] else []) by {
        assert history[..|history| - 1] == old(history);
      }
    }

    method RunAll(toRun: seq<Handler>, failing: set<Handler>) returns (ran: seq<Handler>, reported: seq<Handler>)
      ensures ran == toRun && reported == Reported(ran, failing)
    {
      ran, reported := [], [];
      for i := 0 to |toRun|
        invariant ran == toRun[..i] && reported == Reported(ran, failing)
      {
        ReportedNext(ran, toRun[i], failing);
        ran := ran + [toRun[i]];
        if toRun[i] in failing {
          reported := reported + [toRun[i]];
        }
      }
    }

    /**
     * Runs the kind's subscribers, then those to every kind, each exactly once per
     * subscription whatever the others do; the failures are reported, not raised.
     */
    method Publish(kind: string, failing: set<Handler>) returns (ran: seq<Handler>, reported: seq<Handler>)
      requires Valid()
      ensures ran == Subscribed(history, kind) + Subscribed(history, "*")
      ensures reported == Reported(ran, failing)
    {
      ran, reported := RunAll(HandlersOf(kind) + HandlersOf(ANY_KIND), failing);
    }
  }
}
