/** From what the daemon answers to the steps of the call machine: which replies complete their call,
    and which make the property update throw. */
module Replies {
  import opened Wrappers
  import opened Works
  import opened Calls
  import opened CallsInvariant
  import opened Variants
  import opened Folds
  import opened EnumTables
  import S = ServiceProperties
  import opened ServiceCache

  /** get_property_cb of a service that shows `x`: an error, or a dictionary to update from. */
  function PropertiesReply(id: nat, x: S.ServProperties, reply: Option<Dictionary>): Step {
    match reply
    case None => Reply(id, false)
    case Some(d) => if Fold(S.Update, x, d).Ok? then Reply(id, true) else Reject(id)
  }

  /** A GetProperties reply completes its call if and only if it is an error or a dictionary in which
      every entry is valid, whatever the service showed before; any other reply leaves the call
      unfinished and ends the program. */
  lemma PropertiesReplyCompletes(s: State, id: nat, x: S.ServProperties, reply: Option<Dictionary>)
    requires Inv(s) && s.halted.None? && LoopFree(s) && id < |s.calls| && s.calls[id].phase.InFlight?
    requires s.calls[id].origin.Tracked? && s.calls[id].origin.work.kind.GotProperties?
    ensures CanStep(s, PropertiesReply(id, x, reply))
    ensures var s' := Apply(s, PropertiesReply(id, x, reply));
      if reply.None? || AllValid(S.ValidEntry, reply.value)
      then s'.halted.None? && s'.calls[id].results == [reply.Some?]
      else s'.halted == Some(Uncaught) && s'.calls == s.calls && Unfinished(s'.calls[id])
  {
    assert CallOk(s.calls[id]);
    if reply.Some? {
      S.DictionaryAccepted(x, reply.value);
    }
    CompleteRunsOwn(s, id, reply.Some?);
  }

  /** Such a reply: a service type that the table does not list. */
  lemma UnlistedTypeIsInvalid(text: string)
    ensures AllValid(S.ValidEntry, [("Type", Str(text))]) <==>
      exists i :: 0 <= i < |S.TYPE_MAP.data| && S.TYPE_MAP.data[i].1 == text
  {
    var d := [("Type", Str(text))];
    assert KeyOf(d[0].0) == TypeKey;
    AcceptedStrings(S.TYPE_MAP, text);
  }

  // ----- The services' list -----

  function PathsOf(entries: seq<Entry>): seq<string> {
    seq(|entries|, i requires 0 <= i < |entries| => entries[i].0)
  }

  /** get_proxies_cb<Service> of list call id; `calls` is what the list-changed callback starts. */
  function ServicesReply(id: nat, reply: bool, body: Option<seq<Entry>>, calls: seq<Work>): Step {
    if !reply then ListReply(id, None, [])
    else if !AllAccepted(Entries(body)) then Reject(id)
    else ListReply(id, Some(PathsOf(Entries(body))), calls)
  }

  function Paths(ss: seq<Service>): seq<string> {
    seq(|ss|, i requires 0 <= i < |ss| => ss[i].path)
  }

  /** What the machine records of such a reply. */
  lemma ServicesRecorded(s: State, id: nat, reply: bool, body: Option<seq<Entry>>, calls: seq<Work>)
    requires CanStep(s, ServicesReply(id, reply, body, calls))
    ensures var s', ok := Apply(s, ServicesReply(id, reply, body, calls)), !reply || AllAccepted(Entries(body));
      && (ok <==> s'.halted.None?)
      && s'.stored == (if reply && ok then s.stored[id := PathsOf(Entries(body))] else s.stored)
      && (ok ==> id < |s'.calls| && s'.calls[id].phase.Calling?)
      && (ok && (!reply || Entries(body) == []) ==> s'.calls[id].phase.todo == [])
  {
  }

  /** The Manager's list and the machine move together: the list stored for the call is the Manager's
      new list, and it is handed to the callback unless it is empty. An error reply stores nothing
      and hands on nothing; an unacceptable entry throws. */
  method AnswerServices(m: Manager, reply: bool, body: Option<seq<Entry>>, ghost s: State, ghost id: nat,
                        ghost calls: seq<Work>)
    returns (handed: Option<seq<Service>>, ok: bool, ghost s': State)
    requires m.Valid() && CanStep(s, ServicesReply(id, reply, body, calls))
    modifies m`services
    ensures s' == Apply(s, ServicesReply(id, reply, body, calls)) && (ok <==> s'.halted.None?)
    ensures reply && ok ==> s'.stored == s.stored[id := Paths(m.services)]
    ensures reply && ok ==> handed == if s'.stored[id] == [] then None else Some(m.services)
    ensures !reply || !ok ==> s'.stored == s.stored && m.services == old(m.services) && handed == None
    ensures ok ==> id < |s'.calls| && s'.calls[id].phase.Calling?
    ensures ok && handed == None ==> s'.calls[id].phase.todo == []
  {
    s' := Apply(s, ServicesReply(id, reply, body, calls));
    ServicesRecorded(s, id, reply, body, calls);
    handed, ok := m.GotServices(reply, body);
    assert reply && ok ==> Paths(m.services) == PathsOf(Entries(body));
  }
}
