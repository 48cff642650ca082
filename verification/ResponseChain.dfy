/** The server-side response chain (internal/engine/gateway/gateway.go, openai_responses.go,
    universal.go): which messages a request carries, and which earlier response it builds on. */
module ResponseChain {
  import opened Common
  import opened Transcript

  /** The gateway's record and the adapter's, and whether server state is on. */
  datatype Chain = Chain(serverState: bool, recorded: string, previous: string)

  function Fresh(serverState: bool): Chain { Chain(serverState, "", "") }

  datatype Sent = Sent(previous: string, input: seq<Message>)

  predicate Marks(m: Message, id: string) { m.responseId == id }

  /** The last message produced by response `id`. */
  function LastMarked(ms: seq<Message>, id: string): (at: Option<nat>)
    ensures at.Some? ==>
              && at.value < |ms| && Marks(ms[at.value], id)
              && forall k :: at.value < k < |ms| ==> !Marks(ms[k], id)
    ensures at.None? ==> forall k :: 0 <= k < |ms| ==> !Marks(ms[k], id)
  {
    if ms == [] then None
    else if Marks(ms[|ms| - 1], id) then Some(|ms| - 1)
    else LastMarked(ms[..|ms| - 1], id)
  }

  /** `TrimChainHistory`: what follows the last turn of that response. */
  method TrimChainHistory(ms: seq<Message>, id: string) returns (rest: Option<seq<Message>>)
    ensures rest == Trimmed(ms, id)
  {
    if id == "" {
      return None;
    }
    var n := |ms|;
    assert ms[..n] == ms;
    while n > 0
      invariant 0 <= n <= |ms| && LastMarked(ms[..n], id) == LastMarked(ms, id)
    {
      assert ms[..n][..n - 1] == ms[..n - 1];
      if Marks(ms[n - 1], id) {
        return Some(ms[n..]);
      }
      n := n - 1;
    }
    rest := None;
  }

  function Trimmed(ms: seq<Message>, id: string): Option<seq<Message>> {
    if id == "" then None
    else
      match LastMarked(ms, id)
      case None => None
      case Some(k) => Some(ms[k + 1..])
  }

  function Cleared(c: Chain): Chain { c.(recorded := "", previous := "") }

  /** `applyResponseChain`: the chain afterwards and the messages that are left to send. */
  function Apply(c: Chain, ms: seq<Message>): (Chain, seq<Message>) {
    if !c.serverState || ms == [] then (Cleared(c), ms)
    else if c.previous == "" || c.recorded == "" then (c, ms)
    else if c.previous != c.recorded then (Cleared(c), ms)
    else
      match Trimmed(ms, c.previous)
      case None => (Cleared(c), ms)
      case Some(rest) => (c, rest)
  }

  /** What `BuildRequest` attaches. */
  function Attached(c: Chain): string { if c.serverState then c.previous else "" }

  function RecordGateway(c: Chain, id: string): Chain {
    if !c.serverState || id == "" then c else c.(recorded := id)
  }

  function RecordAdapter(c: Chain, id: string): Chain {
    if !c.serverState then c else c.(previous := id)
  }

  /** The recording part of `consume`, for one chunk. */
  function Recorded(c: Chain, id: string): Chain {
    if id == "" then c else RecordAdapter(RecordGateway(c, id), id)
  }

  /** A request, nothing happening between its two halves. */
  function Request(c: Chain, ms: seq<Message>): (Chain, Sent) {
    var (d, input) := Apply(c, ms);
    (d, Sent(Attached(d), input))
  }

  // ---------------------------------------------------------------------------
  // Each request is whole
  // ---------------------------------------------------------------------------

  /** All of the history on its own, or what follows the last turn of the response it builds on. */
  ghost predicate Whole(ms: seq<Message>, sent: Sent) {
    if sent.previous == "" then sent.input == ms else Trimmed(ms, sent.previous) == Some(sent.input)
  }

  ghost predicate Agree(c: Chain) { c.recorded == c.previous }

  datatype Op = Ask(messages: seq<Message>) | Consume(ids: seq<string>) | Invalidate

  function ConsumeAll(c: Chain, ids: seq<string>): Chain
    decreases |ids|
  {
    if ids == [] then c else ConsumeAll(Recorded(c, ids[0]), ids[1..])
  }

  function After(c: Chain, op: Op): Chain {
    match op
    case Ask(ms) => Request(c, ms).0
    case Consume(ids) => ConsumeAll(c, ids)
    case Invalidate => Cleared(c)
  }

  lemma {:induction false} ConsumeAgrees(c: Chain, ids: seq<string>)
    requires Agree(c)
    ensures Agree(ConsumeAll(c, ids))
    decreases |ids|
  {
    if ids != [] {
      ConsumeAgrees(Recorded(c, ids[0]), ids[1..]);
    }
  }

  lemma OpAgrees(c: Chain, op: Op)
    requires Agree(c)
    ensures Agree(After(c, op))
    ensures op.Ask? ==> Whole(op.messages, Request(c, op.messages).1)
  {
    if op.Consume? {
      ConsumeAgrees(c, op.ids);
    }
  }

  /** What each operation does to the next request: an invalidation makes it start over, and the last
      identifier of a stream is what it builds on when the history still holds that turn. */
  lemma NextRequest(c: Chain, ms: seq<Message>, before: seq<string>, id: string)
    ensures Request(After(c, Invalidate), ms).1 == Sent("", ms)
    ensures c.serverState && Trimmed(ms, id).Some? ==>
              Request(After(c, Consume(before + [id])), ms).1 == Sent(id, Trimmed(ms, id).value)
    ensures After(c, Ask(ms)) == Apply(c, ms).0
  {
    if id != "" {
      LastIdentifierStays(c, before, id, []);
      assert before + [id] + [] == before + [id];
    }
  }

  function RunOps(c: Chain, ops: seq<Op>): Chain
    decreases |ops|
  {
    if ops == [] then c else RunOps(After(c, ops[0]), ops[1..])
  }

  lemma {:induction false} OneMoreOp(c: Chain, ops: seq<Op>, op: Op)
    ensures RunOps(c, ops + [op]) == After(RunOps(c, ops), op)
    decreases |ops|
  {
    if ops == [] {
      assert ops + [op] == [op] && [op][1..] == [];
    } else {
      assert (ops + [op])[1..] == ops[1..] + [op];
      OneMoreOp(After(c, ops[0]), ops[1..], op);
    }
  }

  /** Start to end, with each stream consumed before the next request: the two records agree, and
      every request is whole. */
  lemma {:induction false} RequestsAreWhole(c: Chain, ops: seq<Op>, k: nat)
    requires Agree(c) && k <= |ops|
    ensures Agree(RunOps(c, ops[..k]))
    ensures k < |ops| && ops[k].Ask? ==> Whole(ops[k].messages, Request(RunOps(c, ops[..k]), ops[k].messages).1)
    decreases k
  {
    if k > 0 {
      var before := RunOps(c, ops[..k - 1]);
      RequestsAreWhole(c, ops, k - 1);
      assert ops[..k] == ops[..k - 1] + [ops[k - 1]];
      OneMoreOp(c, ops[..k - 1], ops[k - 1]);
      OpAgrees(before, ops[k - 1]);
    }
    if k < |ops| {
      OpAgrees(RunOps(c, ops[..k]), ops[k]);
    }
  }

  // ---------------------------------------------------------------------------
  // Something between the two halves
  // ---------------------------------------------------------------------------

  /** What the first half of a request decided to build on. */
  function Decided(c: Chain, ms: seq<Message>): string {
    if c.serverState && ms != [] && c.recorded == c.previous && Trimmed(ms, c.previous).Some? then c.previous else ""
  }

  /** A request drops the chain exactly when there is no server state, nothing to send, two records
      that disagree, or no turn of the recorded response; otherwise it leaves the chain alone. */
  lemma DroppedIff(c: Chain, ms: seq<Message>)
    ensures var broken := c.previous != c.recorded || forall k :: 0 <= k < |ms| ==> ms[k].responseId != c.previous;
            Apply(c, ms).0
            == if !c.serverState || ms == [] || (c.previous != "" && c.recorded != "" && broken)
               then Chain(c.serverState, "", "") else c
  {
    assert Trimmed(ms, c.previous).Some? <==> c.previous != "" && LastMarked(ms, c.previous).Some?;
  }

  lemma {:induction false} ConsumeConcat(c: Chain, a: seq<string>, b: seq<string>)
    ensures ConsumeAll(c, a + b) == ConsumeAll(ConsumeAll(c, a), b)
    decreases |a|
  {
    if a == [] {
      assert a + b == b;
    } else {
      ConsumeConcat(Recorded(c, a[0]), a[1..], b);
      assert (a + b)[1..] == a[1..] + b;
    }
  }

  /** Of the identifiers a stream brought, both sides keep the last that is not empty; without server
      state, none. */
  lemma LastIdentifierStays(c: Chain, before: seq<string>, id: string, after: seq<string>)
    requires id != "" && forall k :: 0 <= k < |after| ==> after[k] == ""
    ensures ConsumeAll(c, before + [id] + after) == if c.serverState then Chain(true, id, id) else c
  {
    ConsumeConcat(c, before + [id], after);
    ConsumeConcat(c, before, [id]);
    StateStays(c, before);
    NothingRecorded(ConsumeAll(c, before + [id]), after);
    assert [id][1..] == [] && ConsumeAll(ConsumeAll(c, before), [id]) == Recorded(ConsumeAll(c, before), id);
  }

  lemma {:induction false} StateStays(c: Chain, ids: seq<string>)
    ensures if c.serverState then ConsumeAll(c, ids).serverState else ConsumeAll(c, ids) == c
    decreases |ids|
  {
    if ids != [] {
      StateStays(Recorded(c, ids[0]), ids[1..]);
    }
  }

  lemma {:induction false} NothingRecorded(c: Chain, ids: seq<string>)
    requires forall k :: 0 <= k < |ids| ==> ids[k] == ""
    ensures ConsumeAll(c, ids) == c
    decreases |ids|
  {
    if ids != [] {
      NothingRecorded(Recorded(c, ids[0]), ids[1..]);
    }
  }

  lemma TwoMarks(ms: seq<Message>, a: string, b: string)
    requires Trimmed(ms, a).Some? && Trimmed(ms, a) == Trimmed(ms, b)
    ensures a == b && Trimmed(ms, a) != Some(ms)
  {
    var j, k := LastMarked(ms, a).value, LastMarked(ms, b).value;
    assert |ms[j + 1..]| == |ms| - j - 1 && |ms[k + 1..]| == |ms| - k - 1;
    assert j == k && Marks(ms[j], a) && Marks(ms[j], b);
  }

  /** Whatever happens between the two halves, the request is whole exactly when the second half
      attaches what the first half decided on. */
  lemma WholeIffDecided(c: Chain, ms: seq<Message>, later: Chain)
    ensures Whole(ms, Sent(Attached(later), Apply(c, ms).1)) <==> Attached(later) == Decided(c, ms)
  {
    var input, at := Apply(c, ms).1, Attached(later);
    var decided := Decided(c, ms);
    assert input == if decided == "" then ms else Trimmed(ms, decided).value;
    if at != "" && Trimmed(ms, at).Some? {
      TwoMarks(ms, at, at);
      if decided != "" && Trimmed(ms, at) == Trimmed(ms, decided) {
        TwoMarks(ms, at, decided);
      }
    }
    if at == "" && decided != "" {
      TwoMarks(ms, decided, decided);
    }
  }

  function Turn(text: string, id: string): Message {
    Message(Assistant, [PLAIN.(text := text)], id, false)
  }

  /** A response recorded between the halves: the whole history goes out again, on top of itself. */
  lemma RecordBetweenRepeats(m: Message, id: string)
    requires id != ""
    ensures var c, ms := Fresh(true), [m];
            !Whole(ms, Sent(Attached(Recorded(Apply(c, ms).0, id)), Apply(c, ms).1))
  {
    WholeIffDecided(Fresh(true), [m], Recorded(Apply(Fresh(true), [m]).0, id));
  }

  /** The chain dropped between the halves: only the end of the history goes out, on top of nothing. */
  lemma InvalidateBetweenLoses(text: string, m: Message, id: string)
    requires id != "" && !Marks(m, id)
    ensures var c, ms := Chain(true, id, id), [Turn(text, id), m];
            !Whole(ms, Sent(Attached(Cleared(Apply(c, ms).0)), Apply(c, ms).1))
  {
    var c, ms := Chain(true, id, id), [Turn(text, id), m];
    assert Marks(ms[0], id);
    WholeIffDecided(c, ms, Cleared(Apply(c, ms).0));
  }

  /** An adapter that already holds an identifier the gateway never recorded: the same repetition. */
  lemma StaleAdapterRepeats(m: Message, id: string)
    requires id != ""
    ensures !Whole([m], Request(Chain(true, "", id), [m]).1)
  {
    WholeIffDecided(Chain(true, "", id), [m], Chain(true, "", id));
  }

  // ---------------------------------------------------------------------------
  // A conversation with a server that keeps state
  // ---------------------------------------------------------------------------

  /** The client's history, its chain, and what the server keeps under each response. */
  datatype Talk = Talk(history: seq<Message>, chain: Chain, kept: map<string, seq<Message>>)

  /** What the server works from when it gets this request. */
  function Seen(t: Talk, sent: Sent): seq<Message> {
    (if sent.previous in t.kept then t.kept[sent.previous] else []) + sent.input
  }

  /** One exchange: messages are added, a request goes out, and a reply comes back under a new
      identifier; an interrupted reply may be recorded and yet not enter the history. Or the client
      replaces its history and drops the chain. */
  datatype Exchange = Say(more: seq<Message>, reply: Message, stored: bool) | Rewrite(history: seq<Message>)

  ghost predicate Allowed(t: Talk, x: Exchange) {
    match x
    case Say(more, reply, _) =>
      && (forall k :: 0 <= k < |more| ==> more[k].responseId == "")
      && (reply.responseId != "" ==> reply.responseId !in t.kept && LastMarked(t.history, reply.responseId).None?)
    case Rewrite(_) => true
  }

  function Exchanged(t: Talk, x: Exchange): Talk {
    match x
    case Say(more, reply, stored) =>
      var history := t.history + more;
      var (chain, sent) := Request(t.chain, history);
      var id := reply.responseId;
      Talk(if stored then history + [reply] else history, Recorded(chain, id),
           if id == "" then t.kept else t.kept[id := Seen(t, sent) + [reply]])
    case Rewrite(history) => Talk(history, Cleared(t.chain), t.kept)
  }

  /** The records agree, and what the server keeps under the chain's response is the history up to
      that response. */
  ghost predicate InStep(t: Talk) {
    && Agree(t.chain) && "" !in t.kept
    && (t.chain.previous != "" ==>
          && t.chain.previous in t.kept
          && match LastMarked(t.history, t.chain.previous)
             case None => true
             case Some(k) => t.kept[t.chain.previous] == t.history[..k + 1])
  }

  lemma {:induction false} UnmarkedTail(ms: seq<Message>, more: seq<Message>, id: string)
    requires forall k :: 0 <= k < |more| ==> !Marks(more[k], id)
    ensures LastMarked(ms + more, id) == LastMarked(ms, id)
    decreases |more|
  {
    if more == [] {
      assert ms + more == ms;
    } else {
      assert (ms + more)[..|ms + more| - 1] == ms + more[..|more| - 1];
      UnmarkedTail(ms, more[..|more| - 1], id);
    }
  }

  lemma RequestShape(c: Chain, ms: seq<Message>)
    requires Agree(c)
    ensures var (d, sent) := Request(c, ms);
            && Agree(d) && d.serverState == c.serverState && (d.previous == "" || d.previous == c.previous)
            && (if sent.previous == "" then sent.input == ms
                else sent.previous == c.previous && Trimmed(ms, c.previous) == Some(sent.input))
  {
  }

  /** With the chain in step the server works from the whole history, however little was sent. */
  lemma ServerSeesAll(t: Talk, more: seq<Message>)
    requires InStep(t) && forall k :: 0 <= k < |more| ==> more[k].responseId == ""
    ensures Seen(t, Request(t.chain, t.history + more).1) == t.history + more
  {
    var history, id := t.history + more, t.chain.previous;
    var sent := Request(t.chain, history).1;
    RequestShape(t.chain, history);
    if sent.previous == "" {
      assert [] + history == history;
    } else {
      UnmarkedTail(t.history, more, id);
      var k := LastMarked(t.history, id).value;
      assert sent.input == history[k + 1..] && t.kept[id] == t.history[..k + 1];
      assert t.history[..k + 1] + history[k + 1..] == history;
    }
  }

  /** The history is what was said, whatever was sent of it; an interrupted reply may be left out. */
  lemma HistoryIsTalk(t: Talk, said: seq<Message>, reply: Message, stored: bool)
    ensures Exchanged(t, Say(said, reply, stored)).history == t.history + said + (if stored then [reply] else [])
  {
    assert t.history + said + [] == t.history + said;
  }

  /** The reply is recorded under its own identifier. */
  lemma ReplyRecorded(t: Talk, more: seq<Message>, reply: Message, stored: bool)
    requires InStep(t) && Allowed(t, Say(more, reply, stored)) && reply.responseId != "" && t.chain.serverState
    ensures InStep(Exchanged(t, Say(more, reply, stored)))
  {
    var history, id := t.history + more, reply.responseId;
    var u := Exchanged(t, Say(more, reply, stored));
    RequestShape(t.chain, history);
    ServerSeesAll(t, more);
    UnmarkedTail(t.history, more, id);
    assert u.kept[id] == history + [reply] && u.chain.previous == id;
    if stored {
      assert u.history == history + [reply] && LastMarked(u.history, id) == Some(|history|);
      assert u.history[..|history| + 1] == history + [reply];
    }
  }

  /** The chain stays where it was, or is dropped. */
  lemma ReplyNotRecorded(t: Talk, more: seq<Message>, reply: Message, stored: bool)
    requires InStep(t) && Allowed(t, Say(more, reply, stored)) && (reply.responseId == "" || !t.chain.serverState)
    ensures InStep(Exchanged(t, Say(more, reply, stored)))
  {
    var history, id := t.history + more, t.chain.previous;
    var u := Exchanged(t, Say(more, reply, stored));
    RequestShape(t.chain, history);
    if u.chain.previous != "" {
      assert u.chain.previous == id && (reply.responseId != "" ==> reply.responseId !in t.kept);
      UnmarkedTail(t.history, more, id);
      UnmarkedTail(history, [reply], id);
      match LastMarked(t.history, id)
      case None =>
      case Some(k) => assert u.history[..k + 1] == t.history[..k + 1];
    }
  }

  lemma ExchangeKeepsStep(t: Talk, x: Exchange)
    requires InStep(t) && Allowed(t, x)
    ensures InStep(Exchanged(t, x))
  {
    match x
    case Say(more, reply, stored) =>
      if reply.responseId != "" && t.chain.serverState {
        ReplyRecorded(t, more, reply, stored);
      } else {
        ReplyNotRecorded(t, more, reply, stored);
      }
    case Rewrite(_) =>
  }

  ghost predicate Talks(t: Talk, xs: seq<Exchange>)
    decreases |xs|
  {
    xs == [] || (Allowed(t, xs[0]) && Talks(Exchanged(t, xs[0]), xs[1..]))
  }

  ghost function TalkAfter(t: Talk, xs: seq<Exchange>): Talk
    requires Talks(t, xs)
    decreases |xs|
  {
    if xs == [] then t else TalkAfter(Exchanged(t, xs[0]), xs[1..])
  }

  /** Over a whole conversation: whatever is sent, the server always works from exactly the client's
      history. */
  lemma {:induction false} ConversationConserved(t: Talk, xs: seq<Exchange>, more: seq<Message>)
    requires InStep(t) && Talks(t, xs) && forall k :: 0 <= k < |more| ==> more[k].responseId == ""
    ensures var u := TalkAfter(t, xs); InStep(u) && Seen(u, Request(u.chain, u.history + more).1) == u.history + more
    decreases |xs|
  {
    if xs == [] {
      ServerSeesAll(t, more);
    } else {
      ExchangeKeepsStep(t, xs[0]);
      ConversationConserved(Exchanged(t, xs[0]), xs[1..], more);
    }
  }

  /** And sends no more than it has to: after a reply that entered the history under an identifier, the
      next request builds on it and carries only what was said since. */
  lemma OnlyNewsIsSent(t: Talk, said: seq<Message>, reply: Message, more: seq<Message>)
    requires InStep(t) && Allowed(t, Say(said, reply, true)) && reply.responseId != "" && t.chain.serverState
    requires forall k :: 0 <= k < |more| ==> more[k].responseId == ""
    ensures var u := Exchanged(t, Say(said, reply, true));
            Request(u.chain, u.history + more).1 == Sent(reply.responseId, more)
  {
    var history, id := t.history + said, reply.responseId;
    var u := Exchanged(t, Say(said, reply, true));
    RequestShape(t.chain, history);
    assert u.history == history + [reply] && LastMarked(u.history, id) == Some(|history|);
    UnmarkedTail(u.history, more, id);
    assert (u.history + more)[|history| + 1..] == more;
  }

  /** A client that replaced its history sends the new one whole. */
  lemma RewriteStartsOver(t: Talk, history: seq<Message>, more: seq<Message>)
    ensures var u := Exchanged(t, Rewrite(history));
            u.history == history && Request(u.chain, history + more).1 == Sent("", history + more)
  {
  }

  // ---------------------------------------------------------------------------
  // The gateway and its adapter
  // ---------------------------------------------------------------------------

  class ResponsesAdapter {
    var enabled: bool
    var previous: string

    constructor ()
      ensures !enabled && previous == ""
    {
      enabled, previous := false, "";
    }

    method EnableServerState(on: bool)
      modifies this
      ensures enabled == on && previous == if on then old(previous) else ""
    {
      enabled := on;
      if !on {
        previous := "";
      }
    }

    method ChainUsage() returns (id: string, resumable: bool)
      ensures resumable == (enabled && previous != "") && id == if resumable then previous else ""
    {
      if !enabled || previous == "" {
        return "", false;
      }
      return previous, true;
    }

    method RecordChain(id: string)
      modifies this`previous
      ensures previous == if enabled then id else old(previous)
    {
      if enabled {
        previous := id;
      }
    }

    method InvalidateChain()
      modifies this`previous
      ensures previous == ""
    {
      previous := "";
    }
  }

  class ProviderGateway {
    const adapter: ResponsesAdapter
    const disabled: bool
    var recorded: string

    ghost predicate Valid()
      reads this, adapter
    {
      adapter.enabled == !disabled
    }

    ghost function View(): Chain
      reads this, adapter
    {
      Chain(!disabled, recorded, adapter.previous)
    }

    /** Takes over an adapter, with whatever identifier it already holds. */
    constructor (adapter: ResponsesAdapter, serverState: bool)
      modifies adapter
      ensures Valid() && this.adapter == adapter
              && View() == Chain(serverState, "", if serverState then old(adapter.previous) else "")
    {
      this.adapter, disabled, recorded := adapter, !serverState, "";
      new;
      adapter.EnableServerState(serverState);
    }

    method InvalidateChain()
      requires Valid()
      modifies this`recorded, adapter`previous
      ensures Valid() && View() == Cleared(old(View()))
    {
      recorded := "";
      adapter.InvalidateChain();
    }

    method ApplyResponseChain(ms: seq<Message>) returns (left: seq<Message>)
      requires Valid()
      modifies this`recorded, adapter`previous
      ensures Valid() && (View(), left) == Apply(old(View()), ms)
    {
      if disabled || |ms| == 0 {
        InvalidateChain();
        return ms;
      }
      var previous, resumable := adapter.ChainUsage();
      if !resumable || previous == "" || recorded == "" {
        return ms;
      }
      if previous != recorded {
        InvalidateChain();
        return ms;
      }
      var trimmed := TrimChainHistory(ms, previous);
      match trimmed {
        case None =>
          InvalidateChain();
          return ms;
        case Some(rest) => return rest;
      }
    }

    /** The chain part of ChatStream and BuildRequest. */
    method ChatStream(ms: seq<Message>) returns (sent: Sent)
      requires Valid()
      modifies this`recorded, adapter`previous
      ensures Valid() && (View(), sent) == Request(old(View()), ms)
    {
      var left := ApplyResponseChain(ms);
      sent := Sent("", left);
      if adapter.enabled && adapter.previous != "" {
        sent := sent.(previous := adapter.previous);
      }
    }

    /** The recording part of `consume`. */
    method Consume(ids: seq<string>)
      requires Valid()
      modifies this`recorded, adapter`previous
      ensures Valid() && View() == ConsumeAll(old(View()), ids)
    {
      assert ids[0..] == ids;
      for k := 0 to |ids|
        invariant Valid() && ConsumeAll(View(), ids[k..]) == ConsumeAll(old(View()), ids)
      {
        assert ids[k..][0] == ids[k] && ids[k..][1..] == ids[k + 1..];
        if ids[k] != "" {
          if !disabled {
            recorded := ids[k];
          }
          adapter.RecordChain(ids[k]);
        }
      }
      assert ids[|ids|..] == [];
    }
  }
}
