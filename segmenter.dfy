/** The transcript segmenter of data_loader.py (`process_conversations`):
    consecutive messages of the same role are merged into blocks, and each
    client block followed by a consultant block yields one training sample
    whose history is every block before it. */
module Segmenter {
  import opened Wrappers
  import opened Text

  /** One transcript message; `direction` is `"in"` for the client. */
  datatype Message = Message(direction: string, text: string)

  /** One conversation record; `conversation` is `None` when the key is missing. */
  datatype Conversation = Conversation(conversation: Option<seq<Message>>)

  datatype Role = Client | Consultant

  /** A maximal run of same-role messages. */
  datatype Block = Block(role: Role, messages: seq<string>)

  /** One history entry: a block's role and its joined text. */
  datatype Turn = Turn(role: Role, message: string)

  datatype Sample = Sample(clientSequence: string, consultantReply: string, chatHistory: seq<Turn>)

  /** The separator the blocks' texts are joined with. */
  const SEP: string := "\n\n"

  /** `"client" if direction == 'in' else "consultant"`. */
  function RoleOf(direction: string): (r: Role)
    ensures r == Client <==> direction == "in"
  {
    if direction == "in" then Client else Consultant
  }

  /** No two adjacent blocks share a role. */
  ghost predicate Alternating(g: seq<Block>) {
    forall i, j :: 0 <= i && j == i + 1 && j < |g| ==> g[i].role != g[j].role
  }

  /** Every block holds at least one message. */
  ghost predicate NonEmptyBlocks(g: seq<Block>) {
    forall i :: 0 <= i < |g| ==> g[i].messages != []
  }

  /** One step of the grouping loop: the message extends the current (last)
      block when it has that block's role, and starts a new block otherwise. */
  function Extend(g: seq<Block>, m: Message): (r: seq<Block>)
    requires g != []
    ensures |g| <= |r| <= |g| + 1
  {
    var last := g[|g| - 1];
    if RoleOf(m.direction) == last.role then
      g[..|g| - 1] + [Block(last.role, last.messages + [m.text])]
    else
      g + [Block(RoleOf(m.direction), [m.text])]
  }

  /** The blocks of a non-empty message list: the first message seeds the first
      block, and every later message is folded in by `Extend`. */
  function Group(msgs: seq<Message>): (g: seq<Block>)
    requires |msgs| > 0
    ensures 0 < |g| <= |msgs|
    decreases |msgs|
  {
    if |msgs| == 1 then [Block(RoleOf(msgs[0].direction), [msgs[0].text])]
    else Extend(Group(msgs[..|msgs| - 1]), msgs[|msgs| - 1])
  }

  lemma GroupSnoc(msgs: seq<Message>, m: Message)
    requires |msgs| > 0
    ensures Group(msgs + [m]) == Extend(Group(msgs), m)
  {
    assert (msgs + [m])[..|msgs|] == msgs;
  }

  /** `Extend` seen from the loop's variables: the finished blocks and the current one. */
  lemma ExtendCurrent(done: seq<Block>, current: Block, m: Message)
    ensures Extend(done + [current], m) ==
      if RoleOf(m.direction) == current.role then done + [Block(current.role, current.messages + [m.text])]
      else (done + [current]) + [Block(RoleOf(m.direction), [m.text])]
  {
    assert (done + [current])[..|done|] == done;
  }

  /** A grouping step keeps the blocks alternating and non-empty, keeps the first
      block's role, and leaves a last block of the new message's role. */
  lemma ExtendShape(g: seq<Block>, m: Message)
    requires g != [] && Alternating(g) && NonEmptyBlocks(g)
    ensures var r := Extend(g, m);
      && r[0].role == g[0].role && r[|r| - 1].role == RoleOf(m.direction)
      && Alternating(r) && NonEmptyBlocks(r)
  {
    var r := Extend(g, m);
    var last := g[|g| - 1];
    if RoleOf(m.direction) == last.role {
      assert forall k :: 0 <= k < |g| - 1 ==> r[k] == g[k];
    } else {
      assert forall k :: 0 <= k < |g| ==> r[k] == g[k];
    }
  }

  /** The blocks of a transcript alternate in role and are never empty; the
      first block has the first message's role and the last the last message's. */
  lemma {:induction false} GroupShape(msgs: seq<Message>)
    requires |msgs| > 0
    ensures var g := Group(msgs);
      && g[0].role == RoleOf(msgs[0].direction)
      && g[|g| - 1].role == RoleOf(msgs[|msgs| - 1].direction)
      && Alternating(g) && NonEmptyBlocks(g)
    decreases |msgs|
  {
    if |msgs| > 1 {
      var init := msgs[..|msgs| - 1];
      GroupShape(init);
      ExtendShape(Group(init), msgs[|msgs| - 1]);
      assert init[0] == msgs[0];
    }
  }

  /** A message seen as (role, text). */
  datatype Tagged = Tagged(role: Role, text: string)

  /** The input messages, each tagged with the role of its direction. */
  function Tags(msgs: seq<Message>): seq<Tagged>
    decreases |msgs|
  {
    if msgs == [] then []
    else
      var m := msgs[|msgs| - 1];
      Tags(msgs[..|msgs| - 1]) + [Tagged(RoleOf(m.direction), m.text)]
  }

  lemma TagsSnoc(msgs: seq<Message>, m: Message)
    ensures Tags(msgs + [m]) == Tags(msgs) + [Tagged(RoleOf(m.direction), m.text)]
  {
    assert (msgs + [m])[..|msgs|] == msgs;
  }

  /** `Tags` tags message i and nothing else at position i. */
  lemma {:induction false} TagsExact(msgs: seq<Message>)
    ensures |Tags(msgs)| == |msgs|
    ensures forall i :: 0 <= i < |msgs| ==> Tags(msgs)[i] == Tagged(RoleOf(msgs[i].direction), msgs[i].text)
    decreases |msgs|
  {
    if msgs != [] {
      TagsExact(msgs[..|msgs| - 1]);
    }
  }

  /** A block's texts, each tagged with the block's role. */
  function TagAll(role: Role, texts: seq<string>): (t: seq<Tagged>)
    ensures |t| == |texts|
    decreases |texts|
  {
    if texts == [] then [] else TagAll(role, texts[..|texts| - 1]) + [Tagged(role, texts[|texts| - 1])]
  }

  lemma TagAllSnoc(role: Role, texts: seq<string>, t: string)
    ensures TagAll(role, texts + [t]) == TagAll(role, texts) + [Tagged(role, t)]
  {
    assert (texts + [t])[..|texts|] == texts;
  }

  /** The blocks flattened back into a message list, each text tagged with its block's role. */
  function Unfold(g: seq<Block>): seq<Tagged>
    decreases |g|
  {
    if g == [] then [] else Unfold(g[..|g| - 1]) + TagAll(g[|g| - 1].role, g[|g| - 1].messages)
  }

  /** Total number of messages held by the blocks. */
  function MessageCount(g: seq<Block>): nat
    decreases |g|
  {
    if g == [] then 0 else MessageCount(g[..|g| - 1]) + |g[|g| - 1].messages|
  }

  lemma {:induction false} UnfoldLength(g: seq<Block>)
    ensures |Unfold(g)| == MessageCount(g)
    decreases |g|
  {
    if g != [] {
      UnfoldLength(g[..|g| - 1]);
    }
  }

  lemma UnfoldSnoc(g: seq<Block>, b: Block)
    ensures Unfold(g + [b]) == Unfold(g) + TagAll(b.role, b.messages)
  {
    assert (g + [b])[..|g|] == g;
  }

  /** One grouping step appends the new message's tag to the flattened blocks. */
  lemma UnfoldExtend(g: seq<Block>, m: Message)
    requires g != []
    ensures Unfold(Extend(g, m)) == Unfold(g) + [Tagged(RoleOf(m.direction), m.text)]
  {
    var last := g[|g| - 1];
    var front := g[..|g| - 1];
    var t := Tagged(RoleOf(m.direction), m.text);
    assert g == front + [last];
    UnfoldSnoc(front, last);
    if RoleOf(m.direction) == last.role {
      var b := Block(last.role, last.messages + [m.text]);
      assert Extend(g, m) == front + [b];
      UnfoldSnoc(front, b);
      TagAllSnoc(last.role, last.messages, m.text);
    } else {
      var b := Block(RoleOf(m.direction), [m.text]);
      assert Extend(g, m) == g + [b];
      UnfoldSnoc(g, b);
      TagAllSnoc(b.role, [], m.text);
      assert [] + [m.text] == [m.text];
    }
  }

  /** Grouping loses, reorders and re-roles nothing: flattening the blocks gives
      back exactly the input's texts, in order, each under the role of its own
      direction; in particular the block sizes add up to the message count. */
  lemma {:induction false} GroupPreservesMessages(msgs: seq<Message>)
    requires |msgs| > 0
    ensures Unfold(Group(msgs)) == Tags(msgs)
    ensures MessageCount(Group(msgs)) == |msgs|
    decreases |msgs|
  {
    var g := Group(msgs);
    if |msgs| == 1 {
      UnfoldSnoc([], g[0]);
      assert [] + [g[0]] == g;
      assert [msgs[0].text][..0] == [];
      assert msgs[..0] == [];
    } else {
      var init := msgs[..|msgs| - 1];
      var m := msgs[|msgs| - 1];
      GroupPreservesMessages(init);
      UnfoldExtend(Group(init), m);
    }
    UnfoldLength(g);
    TagsExact(msgs);
  }

  /** The history entry a block contributes. */
  function TurnOf(b: Block): Turn {
    Turn(b.role, Join(b.messages, SEP))
  }

  /** The turns of blocks 0..i-1, in order. */
  function History(g: seq<Block>, i: nat): seq<Turn>
    requires i <= |g|
  {
    if i == 0 then [] else History(g, i - 1) + [TurnOf(g[i - 1])]
  }

  /** The history before pair i has exactly i turns: block k's role and joined text at position k. */
  lemma {:induction false} HistoryExact(g: seq<Block>, i: nat)
    requires i <= |g|
    ensures |History(g, i)| == i
    ensures forall k :: 0 <= k < i ==> History(g, i)[k] == Turn(g[k].role, Join(g[k].messages, SEP))
  {
    if i > 0 {
      HistoryExact(g, i - 1);
    }
  }

  /** Pair i is a client -> consultant boundary. */
  predicate IsBoundary(g: seq<Block>, i: nat)
    requires i + 1 < |g|
  {
    g[i].role == Client && g[i + 1].role == Consultant
  }

  /** The sample a boundary at pair i yields. */
  function SampleAt(g: seq<Block>, i: nat): Sample
    requires i + 1 < |g|
  {
    Sample(Join(g[i].messages, SEP), Join(g[i + 1].messages, SEP), History(g, i))
  }

  /** The samples emitted while walking pairs 0..n-1. */
  function Walk(g: seq<Block>, n: nat): seq<Sample>
    requires n < |g|
  {
    if n == 0 then []
    else Walk(g, n - 1) + (if IsBoundary(g, n - 1) then [SampleAt(g, n - 1)] else [])
  }

  /** The samples of one conversation: none for a missing or empty message list. */
  function ConversationSamples(c: Conversation): seq<Sample> {
    var msgs := c.conversation.GetOr([]);
    if msgs == [] then []
    else
      var g := Group(msgs);
      Walk(g, |g| - 1)
  }

  /** `f` applied to each element, the results concatenated in order. */
  function FlatMap<T, U>(f: T -> seq<U>, xs: seq<T>): seq<U>
    decreases |xs|
  {
    if xs == [] then [] else FlatMap(f, xs[..|xs| - 1]) + f(xs[|xs| - 1])
  }

  lemma FlatMapSnoc<T, U>(f: T -> seq<U>, xs: seq<T>, x: T)
    ensures FlatMap(f, xs + [x]) == FlatMap(f, xs) + f(x)
  {
    assert (xs + [x])[..|xs|] == xs;
  }

  lemma {:induction false} FlatMapAppend<T, U>(f: T -> seq<U>, a: seq<T>, b: seq<T>)
    ensures FlatMap(f, a + b) == FlatMap(f, a) + FlatMap(f, b)
    decreases |b|
  {
    if b == [] {
      assert a + b == a;
    } else {
      var b0, x := b[..|b| - 1], b[|b| - 1];
      assert b == b0 + [x];
      calc {
        FlatMap(f, a + b);
        { assert a + b == (a + b0) + [x]; FlatMapSnoc(f, a + b0, x); }
        FlatMap(f, a + b0) + f(x);
        { FlatMapAppend(f, a, b0); }
        FlatMap(f, a) + FlatMap(f, b0) + f(x);
        { FlatMapSnoc(f, b0, x); }
        FlatMap(f, a) + FlatMap(f, b);
      }
    }
  }

  /** The samples of a list of conversations: each conversation's own samples, in order. */
  function AllSamples(convs: seq<Conversation>): seq<Sample> {
    FlatMap(ConversationSamples, convs)
  }

  /** The pairs among 0..n-1 that are boundaries, in increasing order. */
  function Boundaries(g: seq<Block>, n: nat): seq<nat>
    requires n < |g|
  {
    if n == 0 then []
    else Boundaries(g, n - 1) + (if IsBoundary(g, n - 1) then [n - 1] else [])
  }

  /** `Boundaries` lists exactly the boundary pairs below n, strictly increasing. */
  lemma {:induction false} BoundariesExact(g: seq<Block>, n: nat)
    requires n < |g|
    ensures forall i: nat :: i in Boundaries(g, n) <==> i < n && IsBoundary(g, i)
    ensures forall j, k :: 0 <= j < k < |Boundaries(g, n)| ==> Boundaries(g, n)[j] < Boundaries(g, n)[k]
  {
    if n > 0 {
      BoundariesExact(g, n - 1);
      var b0 := Boundaries(g, n - 1);
      var b := Boundaries(g, n);
      forall j | 0 <= j < |b0|
        ensures b0[j] < n - 1
      {
        assert b0[j] in b0;
      }
      if IsBoundary(g, n - 1) {
        assert b == b0 + [n - 1];
      } else {
        assert b == b0;
      }
    }
  }

  /** A sample is emitted for pair i exactly when pair i is a boundary: the j-th
      sample is the one built at the j-th boundary, so its history has exactly
      as many turns as the index of its pair. */
  lemma {:induction false} WalkAtBoundaries(g: seq<Block>, n: nat)
    requires n < |g|
    ensures |Walk(g, n)| == |Boundaries(g, n)|
    ensures forall j :: 0 <= j < |Walk(g, n)| ==>
              Boundaries(g, n)[j] + 1 < |g| &&
              Walk(g, n)[j] == SampleAt(g, Boundaries(g, n)[j]) &&
              |Walk(g, n)[j].chatHistory| == Boundaries(g, n)[j]
  {
    if n > 0 {
      WalkAtBoundaries(g, n - 1);
      HistoryExact(g, n - 1);
    }
  }

  /** Between alternating blocks, pair i is a boundary exactly when block i is the client's. */
  lemma BoundaryIffClient(g: seq<Block>, i: nat)
    requires i + 1 < |g|
    requires Alternating(g)
    ensures IsBoundary(g, i) <==> g[i].role == Client
  {
    assert g[i].role != g[i + 1].role;
  }

  /** Each conversation contributes its own samples: no history crosses conversations. */
  lemma AllSamplesAppend(a: seq<Conversation>, b: seq<Conversation>)
    ensures AllSamples(a + b) == AllSamples(a) + AllSamples(b)
  {
    FlatMapAppend(ConversationSamples, a, b);
  }

  /** A missing or empty message list yields no sample. */
  lemma EmptyConversation(c: Conversation)
    requires c.conversation.None? || c.conversation.value == []
    ensures ConversationSamples(c) == []
  {
  }

  /** A conversation whose messages all have one role forms a single block and yields no sample. */
  lemma {:induction false} SingleRoleConversation(msgs: seq<Message>, r: Role)
    requires |msgs| > 0
    requires forall k :: 0 <= k < |msgs| ==> RoleOf(msgs[k].direction) == r
    ensures |Group(msgs)| == 1
    ensures ConversationSamples(Conversation(Some(msgs))) == []
    decreases |msgs|
  {
    if |msgs| > 1 {
      var init := msgs[..|msgs| - 1];
      SingleRoleConversation(init, r);
      GroupShape(init);
    }
  }

  /** One grouping step, stated on the finished blocks and the current one. */
  lemma GroupStep(msgs: seq<Message>, m: Message, done: seq<Block>, current: Block)
    requires |msgs| > 0 && Group(msgs) == done + [current]
    ensures Group(msgs + [m]) ==
      if RoleOf(m.direction) == current.role then done + [Block(current.role, current.messages + [m.text])]
      else (done + [current]) + [Block(RoleOf(m.direction), [m.text])]
  {
    GroupSnoc(msgs, m);
    ExtendCurrent(done, current, m);
  }

  /** `[in, in, out, in, out]` groups into four alternating blocks. */
  lemma WorkedExampleGroups(a: string, b: string, c: string, d: string, e: string)
    ensures Group([Message("in", a), Message("in", b), Message("out", c), Message("in", d), Message("out", e)])
         == [Block(Client, [a, b]), Block(Consultant, [c]), Block(Client, [d]), Block(Consultant, [e])]
  {
    var m1, m2, m3, m4, m5 := Message("in", a), Message("in", b), Message("out", c), Message("in", d), Message("out", e);
    var ab, bc, bd := Block(Client, [a, b]), Block(Consultant, [c]), Block(Client, [d]);
    assert Group([m1]) == [] + [Block(Client, [a])];
    GroupStep([m1], m2, [], Block(Client, [a]));
    assert [m1] + [m2] == [m1, m2] && [a] + [b] == [a, b];
    GroupStep([m1, m2], m3, [], ab);
    assert [m1, m2] + [m3] == [m1, m2, m3];
    GroupStep([m1, m2, m3], m4, [ab], bc);
    assert [m1, m2, m3] + [m4] == [m1, m2, m3, m4];
    GroupStep([m1, m2, m3, m4], m5, [ab, bc], bd);
    assert [m1, m2, m3, m4] + [m5] == [m1, m2, m3, m4, m5];
  }

  /** The four blocks of the worked example walk to two samples. */
  lemma WorkedExampleWalk(a: string, b: string, c: string, d: string, e: string)
    ensures Walk([Block(Client, [a, b]), Block(Consultant, [c]), Block(Client, [d]), Block(Consultant, [e])], 3)
         == [Sample(a + SEP + b, c, []),
             Sample(d, e, [Turn(Client, a + SEP + b), Turn(Consultant, c)])]
  {
    var g := [Block(Client, [a, b]), Block(Consultant, [c]), Block(Client, [d]), Block(Consultant, [e])];
    assert Join([a, b], SEP) == a + SEP + b;
    assert History(g, 1) == [Turn(Client, a + SEP + b)];
    assert History(g, 2) == [Turn(Client, a + SEP + b), Turn(Consultant, c)];
    assert Walk(g, 1) == [SampleAt(g, 0)];
    assert Walk(g, 2) == [SampleAt(g, 0)];
  }

  /** `[in, in, out, in, out]` yields two samples: the first with an empty
      history, the second with two turns, the client's then the consultant's. */
  lemma WorkedExample(a: string, b: string, c: string, d: string, e: string)
    ensures ConversationSamples(Conversation(Some([Message("in", a), Message("in", b), Message("out", c),
                                                   Message("in", d), Message("out", e)])))
         == [Sample(a + SEP + b, c, []),
             Sample(d, e, [Turn(Client, a + SEP + b), Turn(Consultant, c)])]
  {
    WorkedExampleGroups(a, b, c, d, e);
    WorkedExampleWalk(a, b, c, d, e);
  }

  /** The grouping loop of `process_conversations` (data_loader.py:20-38): the
      first message seeds the current block; each later message either extends
      it or closes it and starts a new one. */
  method GroupByDirection(messages: seq<Message>) returns (groupedBlocks: seq<Block>)
    requires messages != []
    ensures groupedBlocks == Group(messages)
  {
    groupedBlocks := [];
    var currentBlock := Block(RoleOf(messages[0].direction), [messages[0].text]);
    assert messages[..1] == [messages[0]];
    for i := 1 to |messages|
      invariant groupedBlocks + [currentBlock] == Group(messages[..i])
    {
      var msg := messages[i];
      assert messages[..i + 1] == messages[..i] + [msg];
      GroupSnoc(messages[..i], msg);
      ExtendCurrent(groupedBlocks, currentBlock, msg);
      var role := RoleOf(msg.direction);
      if role == currentBlock.role {
        currentBlock := currentBlock.(messages := currentBlock.messages + [msg.text]);
      } else {
        groupedBlocks := groupedBlocks + [currentBlock];
        currentBlock := Block(role, [msg.text]);
      }
    }
    groupedBlocks := groupedBlocks + [currentBlock];
    assert messages[..|messages|] == messages;
  }

  /** The pair walk of `process_conversations` (data_loader.py:40-60): a sample at
      every client -> consultant pair, carrying a copy of the history, and block i
      appended to the history after pair i whether or not a sample was emitted. */
  method WalkPairs(groupedBlocks: seq<Block>) returns (samples: seq<Sample>)
    requires groupedBlocks != []
    ensures samples == Walk(groupedBlocks, |groupedBlocks| - 1)
  {
    samples := [];
    var history: seq<Turn> := [];
    for i := 0 to |groupedBlocks| - 1
      invariant history == History(groupedBlocks, i)
      invariant samples == Walk(groupedBlocks, i)
    {
      var block := groupedBlocks[i];
      var nextBlock := groupedBlocks[i + 1];
      if block.role == Client && nextBlock.role == Consultant {
        samples := samples + [Sample(Join(block.messages, SEP), Join(nextBlock.messages, SEP), history)];
      }
      // Update history.
      history := history + [Turn(block.role, Join(block.messages, SEP))];
    }
  }

  /** `process_conversations`: conversation by conversation, skip an empty or
      missing message list, group the messages into blocks and walk the block
      pairs with a fresh history. */
  method ProcessConversations(conversations: seq<Conversation>) returns (samples: seq<Sample>)
    ensures samples == AllSamples(conversations)
  {
    samples := [];
    for c := 0 to |conversations|
      invariant samples == AllSamples(conversations[..c])
    {
      assert conversations[..c + 1] == conversations[..c] + [conversations[c]];
      FlatMapSnoc(ConversationSamples, conversations[..c], conversations[c]);
      var messages := conversations[c].conversation.GetOr([]);
      if messages == [] {
        continue;
      }
      var groupedBlocks := GroupByDirection(messages);
      var emitted := WalkPairs(groupedBlocks);
      samples := samples + emitted;
    }
    assert conversations[..|conversations|] == conversations;
  }
}
