/**
 * Support-ticket routing: four handlers in a fixed chain, each of which either
 * handles a request or passes it to its successor. The last handler has no
 * successor, so a request nobody accepts is left unhandled.
 */
module ChainOfResponsibilityPattern {
  import opened Wrappers

  datatype Priority = LOW | MEDIUM | HIGH | CRITICAL

  datatype Type = TECHNICAL | BILLING | GENERAL

  datatype SupportRequest = SupportRequest(description: string, priority: Priority, kind: Type, customerName: string)

  datatype Handler = Level1 | Level2 | Manager | SeniorManager

  /** Each handler's own test, from its handleRequest. */
  predicate Accepts(h: Handler, p: Priority, t: Type) {
    match h
    case Level1 => p == LOW && t == GENERAL
    case Level2 => (p == LOW || p == MEDIUM) && t == TECHNICAL
    case Manager => p == HIGH || t == BILLING
    case SeniorManager => p == CRITICAL
  }

  /** SupportSystem's wiring: level 1, then level 2, then manager, then senior manager. */
  const Chain: seq<Handler> := [Level1, Level2, Manager, SeniorManager]

  /**
   * handleRequest on the first handler of a chain, with passToNext to the
   * rest: the first handler that accepts, or None when the chain runs out.
   */
  function HandleFrom(chain: seq<Handler>, p: Priority, t: Type): (r: Option<Handler>)
    ensures r.None? <==> forall i :: 0 <= i < |chain| ==> !Accepts(chain[i], p, t)
    ensures r.Some? ==> exists i :: 0 <= i < |chain| && chain[i] == r.value && Accepts(r.value, p, t)
                           && forall j :: 0 <= j < i ==> !Accepts(chain[j], p, t)
  {
    if chain == [] then None
    else if Accepts(chain[0], p, t) then Some(chain[0])
    else
      var r := HandleFrom(chain[1..], p, t);
      assert r.Some? ==> exists i :: 0 <= i < |chain| && chain[i] == r.value && Accepts(r.value, p, t)
                           && forall j :: 0 <= j < i ==> !Accepts(chain[j], p, t) by {
        if r.Some? {
          var i :| 0 <= i < |chain[1..]| && chain[1..][i] == r.value && Accepts(r.value, p, t)
                   && forall j :: 0 <= j < i ==> !Accepts(chain[1..][j], p, t);
          assert chain[i + 1] == r.value;
          assert forall j :: 0 <= j < i + 1 ==> !Accepts(chain[j], p, t) by {
            forall j | 0 <= j < i + 1 ensures !Accepts(chain[j], p, t) {
              if j > 0 { assert chain[j] == chain[1..][j - 1]; }
            }
          }
        }
      }
      r
  }

  /** processRequest: the handler that deals with the request, if any. */
  function ProcessRequest(request: SupportRequest): Option<Handler> {
    HandleFrom(Chain, request.priority, request.kind)
  }

  /** Who handles what, in terms of the request alone. */
  lemma RoutingTable(request: SupportRequest)
    ensures var p, t := request.priority, request.kind;
      && (ProcessRequest(request) == Some(Level1) <==> p == LOW && t == GENERAL)
      && (ProcessRequest(request) == Some(Level2) <==> (p == LOW || p == MEDIUM) && t == TECHNICAL)
      && (ProcessRequest(request) == Some(Manager) <==> p == HIGH || t == BILLING)
      && (ProcessRequest(request) == Some(SeniorManager) <==> p == CRITICAL && t != BILLING)
  {
    var p, t := request.priority, request.kind;
    assert Chain[1..] == [Level2, Manager, SeniorManager];
    assert Chain[1..][1..] == [Manager, SeniorManager];
    assert Chain[1..][1..][1..] == [SeniorManager];
    if !Accepts(Level1, p, t) && !Accepts(Level2, p, t) {
      assert ProcessRequest(request) == HandleFrom([Manager, SeniorManager], p, t);
    }
  }

  /** The only request nobody handles is a MEDIUM-priority GENERAL one. */
  lemma OnlyMediumGeneralUnhandled(request: SupportRequest)
    ensures ProcessRequest(request).None? <==> request.priority == MEDIUM && request.kind == GENERAL
  {
    RoutingTable(request);
    if request.priority == MEDIUM && request.kind == GENERAL {
      forall i | 0 <= i < |Chain| ensures !Accepts(Chain[i], MEDIUM, GENERAL) {
      }
    }
  }

  /** A critical billing request stops at the manager, before the senior manager. */
  lemma CriticalBillingGoesToManager(description: string, customerName: string)
    ensures ProcessRequest(SupportRequest(description, CRITICAL, BILLING, customerName)) == Some(Manager)
  {
    RoutingTable(SupportRequest(description, CRITICAL, BILLING, customerName));
  }

  /**
   * The demonstration's five requests: the password question stays at level 1,
   * the crash and the feature request go to level 2, the billing discrepancy to
   * the manager and the server outage to the senior manager.
   */
  lemma DemoRequests()
    ensures HandleFrom(Chain, LOW, GENERAL) == Some(Level1)
    ensures HandleFrom(Chain, MEDIUM, TECHNICAL) == Some(Level2)
    ensures HandleFrom(Chain, HIGH, BILLING) == Some(Manager)
    ensures HandleFrom(Chain, CRITICAL, TECHNICAL) == Some(SeniorManager)
    ensures HandleFrom(Chain, LOW, TECHNICAL) == Some(Level2)
  {
    RoutingTable(SupportRequest("", LOW, GENERAL, ""));
    RoutingTable(SupportRequest("", MEDIUM, TECHNICAL, ""));
    RoutingTable(SupportRequest("", HIGH, BILLING, ""));
    RoutingTable(SupportRequest("", CRITICAL, TECHNICAL, ""));
    RoutingTable(SupportRequest("", LOW, TECHNICAL, ""));
  }
}
