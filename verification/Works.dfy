/** What a program asks of the library: counted calls on proxies, each with a callback that may
    start further counted calls, to any finite depth. */
module Works {
  import opened Wrappers

  /** Which completion function reads the callback back, hence which std::function type it casts
      to: PropertiesSetCallback in finishAsyncCall, PropertiesCallback in get_property_cb. */
  datatype Kind = SetDone | GotProperties

  /** One counted call: without a callback (nullptr), or with a callback that starts the calls of
      `body`, in that order, when it runs. */
  datatype Work =
    | Plain(proxy: nat, kind: Kind)
    | Notifying(proxy: nat, kind: Kind, body: seq<Work>)

  function Body(w: Work): seq<Work> {
    match w case Plain(_, _) => [] case Notifying(_, _, b) => b
  }

  /** Every call of a tree, and of a list of trees, with multiplicity. */
  function Nodes(w: Work): multiset<Work>
    decreases w, 0
  {
    match w
    case Plain(_, _) => multiset{w}
    case Notifying(_, _, b) => multiset{w} + NodesAll(b)
  }

  function NodesAll(ws: seq<Work>): multiset<Work>
    decreases ws, 1
  {
    if ws == [] then multiset{} else Nodes(ws[0]) + NodesAll(ws[1..])
  }

  /** The proxies that a callback needs somebody's handle on in order to start its calls. The proxy
      `own` whose completion runs the callback is not among them: CallbackData keeps it alive, and
      a nested call on it takes its own reference. */
  function Needs(ws: seq<Work>, own: Option<nat>): set<nat>
    decreases ws
  {
    if ws == [] then {} else
      (if own == Some(ws[0].proxy) then {} else {ws[0].proxy})
      + (match ws[0] { case Plain(_, _) => {} case Notifying(p, _, b) => Needs(b, Some(p)) })
      + Needs(ws[1..], own)
  }

  lemma NodesOfWork(w: Work)
    ensures Nodes(w) == multiset{w} + NodesAll(Body(w))
  {
    assert NodesAll([]) == multiset{};
  }

  lemma NeedsHead(ws: seq<Work>, own: Option<nat>)
    requires ws != []
    ensures own == Some(ws[0].proxy) || ws[0].proxy in Needs(ws, own)
    ensures Needs(Body(ws[0]), Some(ws[0].proxy)) <= Needs(ws, own)
    ensures Needs(ws[1..], own) <= Needs(ws, own)
  {
    assert Needs([], Some(ws[0].proxy)) == {};
  }

  /** Every call of the trees is on proxy p. */
  predicate AllOn(ws: seq<Work>, p: nat)
    decreases ws
  {
    ws == [] ||
    (ws[0].proxy == p && (match ws[0] { case Plain(_, _) => true case Notifying(_, _, b) => AllOn(b, p) })
     && AllOn(ws[1..], p))
  }

  /** A callback that goes on using its own proxy only, to any depth, needs no handle at all. */
  lemma {:induction false} OwnProxyNeedsNothing(ws: seq<Work>, p: nat)
    requires AllOn(ws, p)
    ensures Needs(ws, Some(p)) == {}
    decreases ws
  {
    if ws != [] {
      OwnProxyNeedsNothing(ws[1..], p);
      match ws[0] {
        case Plain(_, _) =>
        case Notifying(_, _, b) => OwnProxyNeedsNothing(b, p);
      }
    }
  }

  /** A list of trees has at least one node per tree. */
  lemma {:induction false} NodesCount(ws: seq<Work>)
    ensures |NodesAll(ws)| >= |ws|
  {
    if ws != [] {
      NodesCount(ws[1..]);
      NodesOfWork(ws[0]);
      assert |Nodes(ws[0])| >= 1;
    }
  }
}
