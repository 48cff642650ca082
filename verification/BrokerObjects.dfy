/** The broker and its mailboxes as the mutable objects they are, one call at a time. */
module BrokerObjects {
  import opened Common
  import opened Broker

  /** What an open mailbox holds and has counted. */
  datatype Held = Held(queue: seq<Message>, delivered: nat, dropped: nat)

  /** After a message was offered. */
  function Offered(h: Held, m: Message): Held {
    if |h.queue| < CAPACITY then Held(h.queue + [m], h.delivered + 1, h.dropped) else h.(dropped := h.dropped + 1)
  }

  /** An agent's mailbox after a message was routed. */
  function Handed(mainId: string, m: Message, agent: string, h: Held): Held {
    if Addressed(mainId, m, agent) then Offered(h, m) else h
  }

  class Mailbox {
    const agentId: string
    var queue: seq<Message>
    var delivered: nat
    var dropped: nat
    var closed: bool
    var shut: bool

    ghost predicate Valid()
      reads this
    {
      |queue| <= CAPACITY && closed == shut
    }

    function Holds(): Held
      reads this
    {
      Held(queue, delivered, dropped)
    }

    constructor (agentId: string)
      ensures Valid() && this.agentId == agentId && queue == [] && delivered == 0 && dropped == 0 && !closed
    {
      this.agentId := agentId;
      queue, delivered, dropped, closed, shut := [], 0, 0, false, false;
    }

    /** Never blocks: a full mailbox drops and counts, a closed one refuses without counting. */
    method Deliver(m: Message) returns (took: bool)
      requires Valid()
      modifies this
      ensures Valid() && closed == old(closed)
      ensures took == (!closed && |old(queue)| < CAPACITY)
      ensures queue == old(queue) + if took then [m] else []
      ensures delivered == old(delivered) + if took then 1 else 0
      ensures dropped == old(dropped) + if took || closed then 0 else 1
      ensures !closed ==> Holds() == Offered(old(Holds()), m)
    {
      if closed {
        return false;
      }
      if |queue| < CAPACITY {
        queue := queue + [m];
        delivered := delivered + 1;
        return true;
      }
      dropped := dropped + 1;
      return false;
    }

    /** What is still queued stays receivable. */
    method Close()
      requires Valid()
      modifies this
      ensures Valid() && closed && queue == old(queue) && delivered == old(delivered) && dropped == old(dropped)
    {
      if closed {
        return;
      }
      closed := true;
      shut := true;
    }

    /** A receive with no wait: the oldest message, or none. */
    method Receive() returns (m: Option<Message>)
      requires Valid()
      modifies this`queue
      ensures Valid()
      ensures old(queue) == [] ==> m.None? && queue == []
      ensures old(queue) != [] ==> m == Some(old(queue)[0]) && [m.value] + queue == old(queue)
    {
      if queue == [] {
        return None;
      }
      m := Some(queue[0]);
      queue := queue[1..];
    }
  }

  class MessageBroker {
    const mainId: string
    var mailboxes: map<string, Mailbox>
    var journal: seq<Entry>
    var sent: nat
    var delivered: nat
    var orphaned: nat
    var closed: bool

    ghost predicate Valid()
      reads this, mailboxes.Values
    {
      && (forall a :: a in mailboxes ==> mailboxes[a].Valid() && mailboxes[a].agentId == a && !mailboxes[a].closed)
      && (closed ==> mailboxes == map[])
    }

    /** A message has a destination, or is a broadcast, and every destination has room for it. */
    ghost predicate AllHaveRoom(m: Message)
      reads this, mailboxes.Values
    {
      && (m.to == BROADCAST || exists a :: a in mailboxes && Addressed(mainId, m, a))
      && (forall a :: a in mailboxes && Addressed(mainId, m, a) ==> |mailboxes[a].queue| < CAPACITY)
    }

    constructor (mainId: string)
      ensures Valid() && fresh(mailboxes.Values) && mailboxes.Keys == {mainId} && this.mainId == mainId
      ensures journal == [] && sent == 0 && delivered == 0 && orphaned == 0 && !closed
    {
      var main := new Mailbox(mainId);
      this.mainId := mainId;
      mailboxes := map[mainId := main];
      journal, sent, delivered, orphaned, closed := [], 0, 0, 0, false;
    }

    /** Keeps the mailbox of an agent that registers again. */
    method Register(agent: string) returns (ok: bool)
      requires Valid()
      modifies this`mailboxes
      ensures Valid() && ok == (!Blank(agent) && !closed)
      ensures forall a :: a in old(mailboxes) ==> a in mailboxes && mailboxes[a] == old(mailboxes)[a]
      ensures mailboxes.Keys == old(mailboxes).Keys + if ok then {agent} else {}
      ensures ok && agent !in old(mailboxes) ==> fresh(mailboxes[agent]) && mailboxes[agent].Holds() == Held([], 0, 0)
    {
      if Blank(agent) || closed {
        return false;
      }
      if agent !in mailboxes {
        var box := new Mailbox(agent);
        mailboxes := mailboxes[agent := box];
      }
      return true;
    }

    /** The mailbox leaves the registry before it is closed; nothing in it moves elsewhere. */
    method Unregister(agent: string)
      requires Valid()
      modifies this`mailboxes, mailboxes.Values
      ensures Valid() && mailboxes == old(mailboxes) - {agent}
      ensures forall a :: a in old(mailboxes) ==> old(mailboxes)[a].Holds() == old(mailboxes[a].Holds())
      ensures agent in old(mailboxes) ==> old(mailboxes)[agent].closed
    {
      if agent !in mailboxes {
        return;
      }
      var box := mailboxes[agent];
      mailboxes := mailboxes - {agent};
      box.Close();
    }

    /** Hands a message to its destinations; `accepted` says whether all of them took it. */
    method Route(m: Message) returns (accepted: bool)
      requires Valid()
      modifies mailboxes.Values
      ensures Valid()
      ensures forall a :: a in mailboxes ==> mailboxes[a].Holds() == Handed(mainId, m, a, old(mailboxes[a].Holds()))
      ensures forall a :: a in mailboxes ==>
                var named := m.to == BROADCAST || a == (if m.to == MAIN then mainId else m.to);
                var room := |old(mailboxes[a].queue)| < CAPACITY;
                && mailboxes[a].queue == old(mailboxes[a].queue) + (if named && room then [m] else [])
                && mailboxes[a].delivered == old(mailboxes[a].delivered) + (if named && room then 1 else 0)
                && mailboxes[a].dropped == old(mailboxes[a].dropped) + (if named && !room then 1 else 0)
      ensures accepted <==> old(AllHaveRoom(m))
    {
      if m.to == BROADCAST {
        accepted := RouteAll(m);
      } else {
        var agent := if m.to == MAIN then mainId else m.to;
        if agent !in mailboxes {
          return false;
        }
        accepted := mailboxes[agent].Deliver(m);
      }
    }

    method RouteAll(m: Message) returns (accepted: bool)
      requires Valid() && m.to == BROADCAST
      modifies mailboxes.Values
      ensures Valid()
      ensures forall a :: a in mailboxes ==> mailboxes[a].Holds() == Offered(old(mailboxes[a].Holds()), m)
      ensures accepted <==> forall a :: a in mailboxes ==> |old(mailboxes[a].queue)| < CAPACITY
    {
      accepted := true;
      var left := mailboxes.Keys;
      while left != {}
        invariant left <= mailboxes.Keys && Valid()
        invariant forall a :: a in left ==> mailboxes[a].Holds() == old(mailboxes[a].Holds())
        invariant forall a :: a in mailboxes && a !in left ==>
                    mailboxes[a].Holds() == Offered(old(mailboxes[a].Holds()), m)
        invariant accepted <==> forall a :: a in mailboxes && a !in left ==> |old(mailboxes[a].queue)| < CAPACITY
        decreases |left|
      {
        var a :| a in left;
        var took := mailboxes[a].Deliver(m);
        accepted := accepted && took;
        left := left - {a};
      }
    }

    /** Journal first: a message the journal refuses reaches nobody, and one it takes is on record
        before any mailbox sees it. `journaled` is the journal's answer. */
    method Send(m: Message, journaled: bool) returns (ok: bool)
      requires Valid()
      modifies this`journal, this`sent, this`delivered, mailboxes.Values
      ensures Valid() && ok == (Sendable(m) && !closed && journaled)
      ensures ok ==> !Blank(m.sender) && !Blank(m.to) && !Blank(m.kind)
      ensures journal == old(journal) + if ok then [Entry(m, false)] else []
      ensures sent == old(sent) + if ok then 1 else 0
      ensures forall a :: a in mailboxes ==>
                mailboxes[a].Holds()
                == if ok then Handed(mainId, m, a, old(mailboxes[a].Holds())) else old(mailboxes[a].Holds())
      ensures delivered == old(delivered) + if ok && old(AllHaveRoom(m)) then 1 else 0
    {
      if !Sendable(m) || closed || !journaled {
        return false;
      }
      journal := journal + [Entry(m, false)];
      sent := sent + 1;
      var accepted := Route(m);
      if accepted {
        delivered := delivered + 1;
      }
      return true;
    }

    /** Orphans are filed, never delivered: this may not touch a mailbox. */
    method FileOrphans(messages: seq<Message>, journaled: bool) returns (ok: bool)
      requires Valid()
      modifies this`journal, this`orphaned
      ensures Valid() && ok == (messages == [] || journaled)
      ensures journal == old(journal) + if ok then Filed(messages) else []
      ensures orphaned == old(orphaned) + if ok then |messages| else 0
    {
      if messages == [] {
        return true;
      }
      var records: seq<Entry> := [];
      for k := 0 to |messages|
        invariant |records| == k && forall j :: 0 <= j < k ==> records[j] == Entry(messages[j], true)
      {
        records := records + [Entry(messages[k], true)];
      }
      if !journaled {
        return false;
      }
      assert records == Filed(messages);
      journal := journal + records;
      orphaned := orphaned + |messages|;
      return true;
    }

    method Close()
      requires Valid()
      modifies this`closed, this`mailboxes, mailboxes.Values
      ensures Valid() && closed && mailboxes == map[]
      ensures forall a :: a in old(mailboxes) ==>
              old(mailboxes)[a].closed && old(mailboxes)[a].Holds() == old(mailboxes[a].Holds())
    {
      if closed {
        return;
      }
      closed := true;
      var boxes := mailboxes;
      mailboxes := map[];
      var left := boxes.Keys;
      while left != {}
        invariant left <= boxes.Keys && mailboxes == map[] && closed
        invariant forall a :: a in boxes ==>
                  boxes[a].Valid() && boxes[a].agentId == a && boxes[a].Holds() == old(boxes[a].Holds())
        invariant forall a :: a in boxes && a !in left ==> boxes[a].closed
        decreases |left|
      {
        var a :| a in left;
        boxes[a].Close();
        left := left - {a};
      }
    }
  }
}
