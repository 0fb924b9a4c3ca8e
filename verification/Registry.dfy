/**
 * The registry behind the channel statistics (rust/src/channel/facade.rs): the
 * handles of open channels and two counters. Channels register when they are
 * opened and unregister on the way to their Close event, once or more often.
 */
module Registry {
  import opened Common

  type ChannelId = nat

  /**
   * `drained` counts the handles a shutdown took out, and is not in the program;
   * `asked` are the channels a shutdown has sent a Close command, in order.
   */
  datatype Book = Book(handles: seq<ChannelId>, created: nat, closed: nat, drained: nat, asked: seq<ChannelId>) {
    function Register(id: ChannelId): Book { this.(handles := handles + [id], created := created + 1) }

    function Unregister(id: ChannelId): Book {
      this.(handles := Without(handles, id), closed := if id in handles then closed + 1 else closed)
    }

    /** A handle whose queue is full gets no command, and nobody is told. */
    function Shutdown(full: set<ChannelId>): Book {
      this.(handles := [], drained := drained + |handles|, asked := asked + Outside(handles, full))
    }

    /** No channel twice, and created is closed plus open plus drained. */
    predicate Ok() { Distinct(handles) && created == closed + |handles| + drained }
  }

  function Fresh(): Book { Book([], 0, 0, 0, []) }

  function Outside(handles: seq<ChannelId>, full: set<ChannelId>): seq<ChannelId> {
    if handles == [] then []
    else (if handles[0] in full then [] else [handles[0]]) + Outside(handles[1..], full)
  }

  function Without(handles: seq<ChannelId>, id: ChannelId): seq<ChannelId> {
    if handles == [] then []
    else (if handles[0] == id then [] else [handles[0]]) + Without(handles[1..], id)
  }

  class ChannelRegistry {
    var handles: seq<ChannelId>
    var created: nat
    var closed: nat
    ghost var drained: nat
    ghost var asked: seq<ChannelId>

    ghost function Model(): Book
      reads this
    {
      Book(handles, created, closed, drained, asked)
    }

    ghost predicate Valid()
      reads this
    {
      Model().Ok()
    }

    constructor ()
      ensures Valid() && Model() == Fresh()
    {
      handles, created, closed, drained, asked := [], 0, 0, 0, [];
    }

    /** Ids come from a counter, so none is registered twice. */
    method RegisterChannel(id: ChannelId)
      requires Valid() && id !in handles
      modifies this
      ensures Valid() && Model() == old(Model()).Register(id)
    {
      handles := handles + [id];
      created := created + 1;
    }

    /** `retain`, and the closed counter only if something went: calling it again changes nothing. */
    method UnregisterChannel(id: ChannelId)
      requires Valid()
      modifies this
      ensures Valid() && Model() == old(Model()).Unregister(id)
      ensures id !in handles && closed == old(closed) + (if id in old(handles) then 1 else 0)
      ensures id !in old(handles) ==> Model() == old(Model())
    {
      UnregisterOk(Model(), id);
      hide *;
      var before := handles;
      handles := Retained(before, id);
      if |before| != |handles| { closed := closed + 1; }
    }

    /** The registry emptied, and every handle taken out sent a Close command if its queue has room. */
    method ShutdownAllChannels(full: set<ChannelId>)
      requires Valid()
      modifies this
      ensures Valid() && Model() == old(Model()).Shutdown(full)
    {
      hide Book.Ok, Outside;
      ShutdownOk(Model(), full);
      var taken := handles;
      assert taken[..0] == [];
      drained := drained + |handles|;
      handles := [];
      for i := 0 to |taken|
        invariant Model() == old(Model()).(handles := [], drained := old(drained) + |taken|,
                                           asked := old(asked) + Outside(taken[..i], full))
      {
        OutsideOneMore(taken[..i], taken[i], full);
        assert taken[..i + 1] == taken[..i] + [taken[i]];
        if taken[i] !in full { asked := asked + [taken[i]]; }
      }
      assert taken[..|taken|] == taken;
    }
  }

  /** `retain(|h| h.id != id)`. */
  method Retained(before: seq<ChannelId>, id: ChannelId) returns (handles: seq<ChannelId>)
    ensures handles == Without(before, id)
  {
    handles := [];
    for i := 0 to |before|
      invariant handles == Without(before[..i], id)
    {
      WithoutOneMore(before[..i], before[i], id);
      assert before[..i + 1] == before[..i] + [before[i]];
      if before[i] != id { handles := handles + [before[i]]; }
    }
    assert before[..|before|] == before;
  }

  lemma ShutdownOk(b: Book, full: set<ChannelId>)
    requires b.Ok()
    ensures b.Shutdown(full).Ok() && Outside([], full) == []
  {
  }

  lemma UnregisterOk(b: Book, id: ChannelId)
    requires b.Ok()
    ensures var b1 := b.Unregister(id);
            && b1.Ok() && id !in b1.handles
            && b1 == b.(handles := Without(b.handles, id), closed := b.closed + if |b1.handles| == |b.handles| then 0 else 1)
            && b1.closed == b.closed + (if id in b.handles then 1 else 0)
            && (id !in b.handles ==> b1 == b)
  {
    WithoutShrinks(b.handles, id);
    WithoutOne(b.handles, id);
    if id !in b.handles { WithoutNone(b.handles, id); }
    hide Without, Distinct;
  }

  lemma {:induction false} OutsideOneMore(handles: seq<ChannelId>, x: ChannelId, full: set<ChannelId>)
    ensures Outside(handles + [x], full) == Outside(handles, full) + (if x in full then [] else [x])
  {
    if handles == [] {
      assert [] + [x] == [x];
    } else {
      assert (handles + [x])[1..] == handles[1..] + [x];
      OutsideOneMore(handles[1..], x, full);
      var first := if handles[0] in full then [] else [handles[0]];
      var last := if x in full then [] else [x];
      assert first + (Outside(handles[1..], full) + last) == first + Outside(handles[1..], full) + last;
    }
  }

  lemma {:induction false} OutsideAre(handles: seq<ChannelId>, full: set<ChannelId>)
    ensures forall x :: x in Outside(handles, full) <==> x in handles && x !in full
  {
    if handles != [] { OutsideAre(handles[1..], full); }
  }

  lemma {:induction false} WithoutNone(handles: seq<ChannelId>, id: ChannelId)
    requires id !in handles
    ensures Without(handles, id) == handles
  {
    if handles != [] { WithoutNone(handles[1..], id); }
  }

  lemma {:induction false} WithoutOneMore(handles: seq<ChannelId>, x: ChannelId, id: ChannelId)
    ensures Without(handles + [x], id) == Without(handles, id) + (if x == id then [] else [x])
  {
    if handles == [] {
      assert [] + [x] == [x];
    } else {
      assert (handles + [x])[1..] == handles[1..] + [x];
      WithoutOneMore(handles[1..], x, id);
      var first := if handles[0] == id then [] else [handles[0]];
      var last := if x == id then [] else [x];
      assert first + (Without(handles[1..], id) + last) == first + Without(handles[1..], id) + last;
    }
  }

  lemma {:induction false} WithoutShrinks(handles: seq<ChannelId>, id: ChannelId)
    ensures |Without(handles, id)| <= |handles|
    ensures |Without(handles, id)| == |handles| <==> id !in handles
    ensures id !in Without(handles, id) && forall x <- Without(handles, id) :: x in handles
  {
    if handles != [] { WithoutShrinks(handles[1..], id); }
  }

  predicate Distinct(handles: seq<ChannelId>) { forall i, j | 0 <= i < j < |handles| :: handles[i] != handles[j] }

  lemma {:induction false} WithoutOne(handles: seq<ChannelId>, id: ChannelId)
    requires Distinct(handles)
    ensures Distinct(Without(handles, id)) && |Without(handles, id)| == |handles| - if id in handles then 1 else 0
  {
    if handles != [] {
      var first, rest := handles[0], handles[1..];
      forall k | 0 <= k < |rest| ensures rest[k] != first {
        assert rest[k] == handles[k + 1];
      }
      WithoutOne(rest, id);
      WithoutShrinks(rest, id);
      hide Without;
      PutFirst(first, Without(rest, id));
      WithoutFirst(handles, id);
    }
  }

  lemma WithoutFirst(handles: seq<ChannelId>, id: ChannelId)
    requires handles != []
    ensures Without(handles, id) == (if handles[0] == id then [] else [handles[0]]) + Without(handles[1..], id)
  {
  }

  lemma PutFirst(x: ChannelId, rest: seq<ChannelId>)
    requires Distinct(rest) && x !in rest
    ensures Distinct([x] + rest)
  {
  }

  // ---- Runs ----

  datatype Op = RegisterOp(id: ChannelId) | UnregisterOp(id: ChannelId) | ShutdownOp(full: set<ChannelId>)

  function Apply(b: Book, op: Op): Book {
    match op
    case RegisterOp(id) => b.Register(id)
    case UnregisterOp(id) => b.Unregister(id)
    case ShutdownOp(full) => b.Shutdown(full)
  }

  function Run(b: Book, ops: seq<Op>): Book
    decreases |ops|
  {
    if ops == [] then b else Apply(Run(b, ops[..|ops| - 1]), ops[|ops| - 1])
  }

  /** Every id is registered once, as they are handed out by a counter; unregistering is free. */
  predicate FreshIds(ops: seq<Op>) {
    forall i, j | 0 <= i < j < |ops| :: ops[i].RegisterOp? && ops[j].RegisterOp? ==> ops[i].id != ops[j].id
  }

  predicate Registered(ops: seq<Op>, id: ChannelId) { RegisterOp(id) in ops }

  lemma ApplyOk(b: Book, op: Op)
    requires b.Ok() && (op.RegisterOp? ==> op.id !in b.handles)
    ensures Apply(b, op).Ok()
    ensures forall x <- Apply(b, op).handles :: x in b.handles || op == RegisterOp(x)
  {
    if op.UnregisterOp? {
      UnregisterOk(b, op.id);
      WithoutShrinks(b.handles, op.id);
    }
    hide Without, Outside;
  }

  /** By what was called alone: registered, and since then neither unregistered nor shut down. */
  predicate OpenIn(ops: seq<Op>, id: ChannelId)
    decreases |ops|
  {
    ops != [] &&
    match ops[|ops| - 1]
    case RegisterOp(x) => x == id || OpenIn(ops[..|ops| - 1], id)
    case UnregisterOp(x) => x != id && OpenIn(ops[..|ops| - 1], id)
    case ShutdownOp(_) => false
  }

  ghost predicate NoneOpen(ops: seq<Op>) { forall id: ChannelId :: !OpenIn(ops, id) }

  /** No shutdown came while a channel was open. */
  ghost predicate ShutDownIdle(ops: seq<Op>)
    decreases |ops|
  {
    ops == [] ||
    var early, last := ops[..|ops| - 1], ops[|ops| - 1];
    ShutDownIdle(early) && (last.ShutdownOp? ==> NoneOpen(early))
  }

  lemma {:induction false} HandlesAreOpen(ops: seq<Op>, id: ChannelId)
    ensures id in Run(Fresh(), ops).handles <==> OpenIn(ops, id)
    decreases |ops|
  {
    if ops != [] {
      HandlesAreOpen(ops[..|ops| - 1], id);
      if ops[|ops| - 1].UnregisterOp? { StillThere(Run(Fresh(), ops[..|ops| - 1]).handles, ops[|ops| - 1].id, id); }
      hide Without, Outside;
    }
  }

  lemma {:induction false} StillThere(handles: seq<ChannelId>, gone: ChannelId, id: ChannelId)
    ensures id in Without(handles, gone) <==> id in handles && id != gone
  {
    if handles != [] { StillThere(handles[1..], gone, id); }
  }

  lemma {:induction false} DrainedIff(ops: seq<Op>)
    ensures Run(Fresh(), ops).drained == 0 <==> ShutDownIdle(ops)
    decreases |ops|
  {
    if ops != [] {
      var early := ops[..|ops| - 1];
      DrainedIff(early);
      var hs := Run(Fresh(), early).handles;
      forall id: ChannelId ensures id in hs <==> OpenIn(early, id) { HandlesAreOpen(early, id); }
      assert hs != [] ==> hs[0] in hs;
      hide OpenIn, Without, Outside, Run;
      RunLast(ops);
    }
  }

  lemma RunLast(ops: seq<Op>)
    requires ops != []
    ensures Run(Fresh(), ops) == Apply(Run(Fresh(), ops[..|ops| - 1]), ops[|ops| - 1])
  {
    hide Apply;
  }

  /**
   * However often channels unregister, no channel is counted closed twice:
   * created is closed plus open plus what a shutdown drained. So the three
   * public statistics agree if and only if no shutdown came while a channel was
   * open: one that did took the channel out of the registry, and its own
   * unregistering later counts for nothing.
   */
  lemma {:induction false} CountersAgree(ops: seq<Op>)
    requires FreshIds(ops)
    ensures var b := Run(Fresh(), ops);
            && b.Ok()
            && (b.created == b.closed + |b.handles| <==> ShutDownIdle(ops))
            && forall x <- b.handles :: Registered(ops, x)
    decreases |ops|
  {
    DrainedIff(ops);
    if ops != [] {
      var early, op := ops[..|ops| - 1], ops[|ops| - 1];
      CountersAgree(early);
      var b := Run(Fresh(), early);
      forall i | op.RegisterOp? && 0 <= i < |early| ensures early[i] != op {
        assert early[i] == ops[i];
      }
      ApplyOk(b, op);
      hide Apply, Book.Ok;
      forall x <- Run(Fresh(), ops).handles ensures Registered(ops, x) {
        assert x in b.handles ==> RegisterOp(x) in early;
      }
      assert Run(Fresh(), ops).Ok();
    }
    assert Run(Fresh(), ops).Ok();
  }

  /** Whoever a shutdown takes out is asked to close, if its queue has room, and nobody else is. */
  lemma ShutdownAsksEveryone(b: Book, full: set<ChannelId>)
    ensures forall x :: x in Outside(b.handles, full) <==> x in b.handles && x !in full
    ensures b.Shutdown(full).asked == b.asked + Outside(b.handles, full) && b.Shutdown(full).handles == []
  {
    OutsideAre(b.handles, full);
  }

  /** The shortest run that leaves created ahead for good: open, shut down, and the channel's own unregistering. */
  lemma ShutdownLeavesCountersApart()
    ensures var b := Run(Fresh(), [RegisterOp(1), ShutdownOp({}), UnregisterOp(1)]);
            b.created == 1 && b.closed == 0 && b.handles == [] && b.asked == [1]
  {
    var ops1, ops2, ops3 := [RegisterOp(1)], [RegisterOp(1), ShutdownOp({})], [RegisterOp(1), ShutdownOp({}), UnregisterOp(1)];
    assert ops1[..0] == [] && ops2[..1] == ops1 && ops3[..2] == ops2;
    assert Run(Fresh(), ops1) == Fresh().Register(1);
    assert Outside([1], {}) == [1] + Outside([], {});
    assert Run(Fresh(), ops2) == Fresh().Register(1).Shutdown({});
    assert Run(Fresh(), ops3) == Run(Fresh(), ops2).Unregister(1);
  }
}
