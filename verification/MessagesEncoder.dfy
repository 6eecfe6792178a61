/** The Messages encoder: one history becomes strictly alternating user and assistant turns. */
module MessagesEncoder {
  import opened Wrappers
  import opened Json
  import opened History
  import opened Replay
  import opened Normalize
  import opened Sequences

  datatype Role = UserRole | AssistantRole

  datatype Block =
    | Piece(part: Part)
    | Reasoning(item: Json)
    | ToolUse(id: string, name: string, input: Json)
    | ToolResult(callId: string, content: Content, isError: bool)

  datatype Turn = Turn(role: Role, blocks: seq<Block>)

  datatype MessagesRequest = MessagesRequest(system: seq<string>, messages: seq<Turn>, maxTokens: nat)

  /** `merge_message`: extend the last turn when it has the same role, otherwise open a new one. */
  function MergeMessage(turns: seq<Turn>, role: Role, blocks: seq<Block>): seq<Turn> {
    if turns != [] && turns[|turns| - 1].role == role then
      turns[..|turns| - 1] + [Turn(role, turns[|turns| - 1].blocks + blocks)]
    else
      turns + [Turn(role, blocks)]
  }

  function Pieces(parts: seq<Part>): seq<Block> {
    seq(|parts|, k requires 0 <= k < |parts| => Piece(parts[k]))
  }

  function ReasoningBlocks(items: seq<Json>): seq<Block> {
    seq(|items|, k requires 0 <= k < |items| => Reasoning(items[k]))
  }

  function UseBlocks(calls: seq<ToolCall>): seq<Block> {
    seq(|calls|, k requires 0 <= k < |calls| => ToolUse(calls[k].id, calls[k].name, calls[k].arguments))
  }

  function ToolContent(content: string, images: seq<Image>): Content {
    if images == [] then Plain(content) else UserContent(content, images, Messages)
  }

  function RoleOf(message: Message): Role {
    if message.Assistant? then AssistantRole else UserRole
  }

  /** The blocks a message contributes; system messages go elsewhere and contribute none. */
  function BlocksOf(message: Message): Result<seq<Block>, ErrorKind> {
    match message
    case System(_) => Ok([])
    case User(content, images) => Ok(Pieces(UserContent(content, images, Messages).parts))
    case Assistant(_, answer, calls, replay) =>
      var items :- ReplayItems(replay, Messages);
      Ok(ReasoningBlocks(items) + (if answer.Some? then [Piece(TextPart(answer.value))] else []) + UseBlocks(calls))
    case Tool(callId, content, images, failed) => Ok([ToolResult(callId, ToolContent(content, images), failed)])
  }

  predicate Encodable(history: seq<Message>) {
    forall k :: 0 <= k < |history| ==> BlocksOf(history[k]).Ok?
  }

  /** No system message comes after a message that emits blocks. */
  ghost predicate SystemFirst(history: seq<Message>) {
    forall j, k :: 0 <= j < k < |history| && history[k].System? ==> BlocksOf(history[j]) == Ok([])
  }

  /** The loop body of the encoder on a message whose blocks are known. */
  function Absorb(turns: seq<Turn>, message: Message): seq<Turn>
    requires BlocksOf(message).Ok?
  {
    var blocks := BlocksOf(message).value;
    if blocks == [] then turns else MergeMessage(turns, RoleOf(message), blocks)
  }

  function AbsorbAll(turns: seq<Turn>, history: seq<Message>): seq<Turn>
    requires Encodable(history)
    decreases |history|
  {
    if history == [] then turns else AbsorbAll(Absorb(turns, history[0]), history[1..])
  }

  function SystemTexts(history: seq<Message>): seq<string> {
    if history == [] then []
    else (if history[0].System? then [history[0].content] else []) + SystemTexts(history[1..])
  }

  // ---------------------------------------------------------------- the shape of the result

  ghost predicate Alternating(turns: seq<Turn>) {
    && (forall k :: 0 <= k < |turns| ==> turns[k].blocks != [])
    && (forall k :: 0 < k < |turns| ==> turns[k - 1].role != turns[k].role)
  }

  /** Every block of a list of turns in order, each with the role of its turn. */
  function Flatten(turns: seq<Turn>): seq<(Role, Block)> {
    if turns == [] then []
    else Flatten(turns[..|turns| - 1]) + WithRole(turns[|turns| - 1].role, turns[|turns| - 1].blocks)
  }

  function WithRole(role: Role, blocks: seq<Block>): seq<(Role, Block)> {
    seq(|blocks|, k requires 0 <= k < |blocks| => (role, blocks[k]))
  }

  /** Every block of a history in order, each with the role of its message. */
  function RetainedBlocks(history: seq<Message>): seq<(Role, Block)>
    requires Encodable(history)
  {
    if history == [] then []
    else WithRole(RoleOf(history[0]), BlocksOf(history[0]).value) + RetainedBlocks(history[1..])
  }

  lemma RoleConcat(role: Role, a: seq<Block>, b: seq<Block>)
    ensures WithRole(role, a + b) == WithRole(role, a) + WithRole(role, b)
  {
  }

  lemma MergeKeepsShape(turns: seq<Turn>, role: Role, blocks: seq<Block>)
    requires Alternating(turns) && blocks != []
    ensures Alternating(MergeMessage(turns, role, blocks))
    ensures Flatten(MergeMessage(turns, role, blocks)) == Flatten(turns) + WithRole(role, blocks)
  {
    var merged := MergeMessage(turns, role, blocks);
    var last := |merged| - 1;
    if |merged| == |turns| {
      assert merged[..last] == turns[..last];
      RoleConcat(role, turns[last].blocks, blocks);
      hide WithRole;
    } else {
      assert merged[..last] == turns;
    }
  }

  /** Every block is kept once and in order, and the turns alternate strictly. */
  lemma {:induction false} AbsorbedShape(turns: seq<Turn>, history: seq<Message>)
    requires Encodable(history) && Alternating(turns)
    ensures Alternating(AbsorbAll(turns, history))
    ensures Flatten(AbsorbAll(turns, history)) == Flatten(turns) + RetainedBlocks(history)
    decreases |history|
  {
    if history == [] {
      Unit(Flatten(turns));
    } else {
      AbsorbKeepsShape(turns, history[0]);
      hide Alternating;
      hide Flatten;
      hide WithRole;
      AbsorbedShape(Absorb(turns, history[0]), history[1..]);
      Assoc(Flatten(turns), WithRole(RoleOf(history[0]), BlocksOf(history[0]).value), RetainedBlocks(history[1..]));
    }
  }

  lemma AbsorbKeepsShape(turns: seq<Turn>, message: Message)
    requires BlocksOf(message).Ok? && Alternating(turns)
    ensures Alternating(Absorb(turns, message))
    ensures Flatten(Absorb(turns, message)) == Flatten(turns) + WithRole(RoleOf(message), BlocksOf(message).value)
  {
    var blocks := BlocksOf(message).value;
    if blocks == [] {
      assert WithRole(RoleOf(message), []) == [];
      Unit(Flatten(turns));
    } else {
      MergeKeepsShape(turns, RoleOf(message), blocks);
    }
  }

  /** Alternation and the flattened blocks determine the turns. */
  lemma {:induction false} ShapeIsUnique(a: seq<Turn>, b: seq<Turn>)
    requires Alternating(a) && Alternating(b) && Flatten(a) == Flatten(b)
    ensures a == b
    decreases |a|
  {
    Boundary(a);
    Boundary(b);
    hide Alternating;
    hide Flatten;
    hide FinalRun;
    if a != [] && b != [] {
      var initA, initB := a[..|a| - 1], b[..|b| - 1];
      SameRun(Flatten(a), |Flatten(initA)|, a[|a| - 1], |Flatten(initB)|, b[|b| - 1]);
      assert Flatten(initA) == Flatten(a)[..|Flatten(initA)|] == Flatten(initB);
      ShapeIsUnique(initA, initB);
      assert a == initA + [a[|a| - 1]] && b == initB + [b[|b| - 1]];
    }
  }

  ghost predicate FinalRun(flat: seq<(Role, Block)>, m: nat, turn: Turn) {
    && turn.blocks != []
    && |flat| == m + |turn.blocks|
    && (forall k :: m <= k < |flat| ==> flat[k] == (turn.role, turn.blocks[k - m]))
    && (0 < m ==> flat[m - 1].0 != turn.role)
  }

  lemma RunNotLonger(flat: seq<(Role, Block)>, m: nat, x: Turn, n: nat, y: Turn)
    requires FinalRun(flat, m, x) && FinalRun(flat, n, y)
    ensures x.role == y.role && m >= n
  {
    var last := flat[|flat| - 1];
    assert last.0 == x.role && last.0 == y.role;
  }

  lemma SameRun(flat: seq<(Role, Block)>, m: nat, x: Turn, n: nat, y: Turn)
    requires FinalRun(flat, m, x) && FinalRun(flat, n, y)
    ensures m == n && x == y
  {
    RunNotLonger(flat, m, x, n, y);
    RunNotLonger(flat, n, y, m, x);
    forall k | 0 <= k < |x.blocks| ensures x.blocks[k] == y.blocks[k] {
      var entry := flat[m + k];
      assert entry == (x.role, x.blocks[k]);
    }
  }

  /** The flattened blocks of the last turn are the longest final run with one role. */
  lemma {:induction false} Boundary(turns: seq<Turn>)
    requires Alternating(turns)
    ensures Flatten(turns) == [] <==> turns == []
    ensures turns != [] ==>
              var last := turns[|turns| - 1];
              var flat, m := Flatten(turns), |Flatten(turns[..|turns| - 1])|;
              Alternating(turns[..|turns| - 1]) && FinalRun(flat, m, last) && flat[..m] == Flatten(turns[..|turns| - 1])
  {
    if turns != [] {
      var init, last := turns[..|turns| - 1], turns[|turns| - 1];
      assert Flatten(turns) == Flatten(init) + WithRole(last.role, last.blocks);
      assert Alternating(init);
      Boundary(init);
      if init != [] {
        assert init[|init| - 1].role != last.role;
        assert init[|init| - 1].blocks != [];
      }
    }
  }

  // ---------------------------------------------------------------- where tool results go

  function UseIds(blocks: seq<Block>): seq<string> {
    if blocks == [] then [] else (if blocks[0].ToolUse? then [blocks[0].id] else []) + UseIds(blocks[1..])
  }

  function ResultIds(blocks: seq<Block>): seq<string> {
    if blocks == [] then [] else (if blocks[0].ToolResult? then [blocks[0].callId] else []) + ResultIds(blocks[1..])
  }

  /** The blocks start with exactly one result for each use, and hold no other result. */
  ghost predicate ResultsFirst(blocks: seq<Block>, uses: seq<string>) {
    && |uses| <= |blocks|
    && (forall k :: 0 <= k < |blocks| ==> (blocks[k].ToolResult? <==> k < |uses|))
    && multiset(ResultIds(blocks)) == multiset(uses)
  }

  /** The uses that the turn at `k` must answer: those of the turn before it. */
  function UsesBefore(turns: seq<Turn>, k: nat): seq<string>
    requires k <= |turns|
  {
    if k == 0 || turns[k - 1].role.UserRole? then [] else UseIds(turns[k - 1].blocks)
  }

  ghost predicate TurnInPlace(turns: seq<Turn>, k: nat)
    requires k < |turns|
  {
    match turns[k].role
    case UserRole => UseIds(turns[k].blocks) == [] && ResultsFirst(turns[k].blocks, UsesBefore(turns, k))
    case AssistantRole =>
      && UsesBefore(turns, k) == []
      && forall j :: 0 <= j < |turns[k].blocks| ==> !turns[k].blocks[j].ToolResult?
  }

  /** Every turn's uses are answered at the front of the next turn, and results occur nowhere else. */
  ghost predicate ResultsInPlace(turns: seq<Turn>) {
    && (forall k :: 0 <= k < |turns| ==> TurnInPlace(turns, k))
    && UsesBefore(turns, |turns|) == []
  }

  lemma {:induction false} UseIdsConcat(a: seq<Block>, b: seq<Block>)
    ensures UseIds(a + b) == UseIds(a) + UseIds(b)
  {
    if a == [] {
      assert a + b == b;
    } else {
      assert (a + b)[1..] == a[1..] + b;
      UseIdsConcat(a[1..], b);
    }
  }

  lemma {:induction false} NoUseIds(blocks: seq<Block>)
    requires forall k :: 0 <= k < |blocks| ==> !blocks[k].ToolUse?
    ensures UseIds(blocks) == []
  {
    if blocks != [] {
      NoUseIds(blocks[1..]);
    }
  }

  lemma {:induction false} UseIdsOfCalls(calls: seq<ToolCall>)
    ensures UseIds(UseBlocks(calls)) == Ids(calls)
  {
    if calls != [] {
      assert UseBlocks(calls)[1..] == UseBlocks(calls[1..]);
      UseIdsOfCalls(calls[1..]);
      assert Ids(calls) == [calls[0].id] + Ids(calls[1..]);
    }
  }

  lemma AssistantBlocks(items: seq<Json>, answer: Option<string>, calls: seq<ToolCall>)
    ensures var text := if answer.Some? then [Piece(TextPart(answer.value))] else [];
            var blocks := ReasoningBlocks(items) + text + UseBlocks(calls);
            && UseIds(blocks) == Ids(calls)
            && (forall k :: 0 <= k < |blocks| ==> !blocks[k].ToolResult?)
            && (calls != [] ==> blocks != [])
  {
    var others := ReasoningBlocks(items) + if answer.Some? then [Piece(TextPart(answer.value))] else [];
    NoUseIds(others);
    UseIdsConcat(others, UseBlocks(calls));
    UseIdsOfCalls(calls);
    hide UseIds;
    hide Ids;
  }

  /** What one message contributes: its uses are its calls, and only a tool message holds a result. */
  lemma MessageBlocks(message: Message)
    requires BlocksOf(message).Ok?
    ensures var blocks := BlocksOf(message).value;
            && UseIds(blocks) == Ids(CallsOf(message))
            && (!message.Tool? ==> forall k :: 0 <= k < |blocks| ==> !blocks[k].ToolResult?)
            && (CallsOf(message) != [] ==> blocks != [])
  {
    if message.Assistant? {
      AssistantBlocks(ReplayItems(message.replay, Messages).value, message.answer, message.calls);
      hide ReplayItems;
      hide UseIds;
    } else {
      OtherBlocks(message);
    }
  }

  lemma OtherBlocks(message: Message)
    requires !message.Assistant?
    ensures var blocks := BlocksOf(message).value;
            && UseIds(blocks) == Ids(CallsOf(message))
            && (!message.Tool? ==> forall k :: 0 <= k < |blocks| ==> !blocks[k].ToolResult?)
  {
    NoUseIds(BlocksOf(message).value);
  }

  lemma SamePlace(a: seq<Turn>, b: seq<Turn>, k: nat)
    requires k < |a| && k < |b| && a[..k + 1] == b[..k + 1] && TurnInPlace(a, k)
    ensures TurnInPlace(b, k)
  {
    assert a[k] == a[..k + 1][k] == b[k];
    assert k > 0 ==> a[k - 1] == a[..k + 1][k - 1] == b[k - 1];
  }

  lemma PrefixPlace(a: seq<Turn>, b: seq<Turn>, n: nat)
    requires n <= |a| && n <= |b| && a[..n] == b[..n]
    requires forall k :: 0 <= k < |a| ==> TurnInPlace(a, k)
    ensures forall k :: 0 <= k < n ==> TurnInPlace(b, k)
  {
    hide TurnInPlace;
    forall k | 0 <= k < n ensures TurnInPlace(b, k) {
      assert a[..k + 1] == a[..n][..k + 1] == b[..k + 1];
      SamePlace(a, b, k);
    }
  }

  lemma ReplacedInPlace(turns: seq<Turn>, replaced: seq<Turn>)
    requires turns != [] && ResultsInPlace(turns)
    requires |replaced| == |turns| && replaced[..|turns| - 1] == turns[..|turns| - 1]
    requires TurnInPlace(replaced, |turns| - 1) && UsesBefore(replaced, |replaced|) == []
    ensures ResultsInPlace(replaced)
  {
    PrefixPlace(turns, replaced, |turns| - 1);
  }

  ghost predicate Neutral(blocks: seq<Block>) {
    UseIds(blocks) == [] && forall k :: 0 <= k < |blocks| ==> !blocks[k].ToolResult?
  }

  lemma ExtendedPlace(turns: seq<Turn>, k: nat, blocks: seq<Block>, extended: seq<Turn>)
    requires k < |turns| && TurnInPlace(turns, k) && Neutral(blocks)
    requires extended == turns[..k] + [Turn(turns[k].role, turns[k].blocks + blocks)]
    ensures TurnInPlace(extended, k) && UsesBefore(extended, k + 1) == UsesBefore(turns, k + 1)
  {
    UseIdsConcat(turns[k].blocks, blocks);
    assert UsesBefore(extended, k) == UsesBefore(turns, k);
    if turns[k].role.UserRole? {
      FrontKept(turns[k].blocks, blocks, UsesBefore(turns, k));
    }
  }

  /** Blocks without uses or results leave every result where it is: they may extend the last turn, */
  lemma ExtensionInPlace(turns: seq<Turn>, blocks: seq<Block>)
    requires turns != [] && ResultsInPlace(turns) && Neutral(blocks)
    ensures ResultsInPlace(MergeMessage(turns, turns[|turns| - 1].role, blocks))
  {
    var last := |turns| - 1;
    var extended := MergeMessage(turns, turns[last].role, blocks);
    assert TurnInPlace(turns, last);
    ExtendedPlace(turns, last, blocks, extended);
    ReplacedInPlace(turns, extended);
  }

  /** or open a new one. */
  lemma OpeningInPlace(turns: seq<Turn>, role: Role, blocks: seq<Block>)
    requires ResultsInPlace(turns) && Neutral(blocks)
    ensures ResultsInPlace(turns + [Turn(role, blocks)])
  {
    var grown := turns + [Turn(role, blocks)];
    FrontKept([], blocks, []);
    assert [] + blocks == blocks;
    forall k | 0 <= k < |grown| ensures TurnInPlace(grown, k) {
      assert UsesBefore(grown, k) == UsesBefore(turns, k);
      if k < |turns| {
        assert TurnInPlace(turns, k);
      }
    }
  }

  lemma {:induction false} ResultIdsConcat(a: seq<Block>, b: seq<Block>)
    ensures ResultIds(a + b) == ResultIds(a) + ResultIds(b)
  {
    if a == [] {
      assert a + b == b;
    } else {
      assert (a + b)[1..] == a[1..] + b;
      ResultIdsConcat(a[1..], b);
    }
  }

  lemma {:induction false} NoResultIds(blocks: seq<Block>)
    requires forall k :: 0 <= k < |blocks| ==> !blocks[k].ToolResult?
    ensures ResultIds(blocks) == []
  {
    if blocks != [] {
      NoResultIds(blocks[1..]);
    }
  }

  lemma FrontKept(a: seq<Block>, b: seq<Block>, uses: seq<string>)
    requires ResultsFirst(a, uses)
    requires forall k :: 0 <= k < |b| ==> !b[k].ToolResult?
    ensures ResultsFirst(a + b, uses)
  {
    ResultIdsConcat(a, b);
    NoResultIds(b);
  }

  function ResultBlocks(results: seq<Message>): seq<Block>
    requires AllTools(results)
  {
    if results == [] then []
    else
      [ToolResult(results[0].callId, ToolContent(results[0].content, results[0].images), results[0].failed)] +
      ResultBlocks(results[1..])
  }

  lemma {:induction false} ResultBlocksPlace(results: seq<Message>)
    requires AllTools(results)
    ensures UseIds(ResultBlocks(results)) == [] && ResultIds(ResultBlocks(results)) == Answers(results)
    ensures |ResultBlocks(results)| == |results|
    ensures forall k :: 0 <= k < |results| ==> ResultBlocks(results)[k].ToolResult?
  {
    if results != [] {
      assert ResultBlocks(results)[1..] == ResultBlocks(results[1..]);
      ResultBlocksPlace(results[1..]);
      assert Answers(results) == [results[0].callId] + Answers(results[1..]);
    }
  }

  lemma OneResult(result: Message)
    requires result.Tool?
    ensures AllTools([result]) && BlocksOf(result).Ok?
    ensures BlocksOf(result).value == ResultBlocks([result]) && ResultBlocks([result]) != []
  {
    assert [result][1..] == [];
  }

  lemma ResultExtends(turns: seq<Turn>, blocks: seq<Block>, result: Message)
    requires result.Tool?
    ensures AllTools([result])
    ensures Absorb(turns + [Turn(UserRole, blocks)], result) ==
            turns + [Turn(UserRole, blocks + ResultBlocks([result]))]
  {
    var grown := turns + [Turn(UserRole, blocks)];
    assert grown[..|grown| - 1] == turns;
    OneResult(result);
    hide BlocksOf;
    hide ResultBlocks;
  }

  lemma {:induction false} ResultsExtend(turns: seq<Turn>, blocks: seq<Block>, results: seq<Message>)
    requires AllTools(results) && Encodable(results)
    ensures AbsorbAll(turns + [Turn(UserRole, blocks)], results)
         == turns + [Turn(UserRole, blocks + ResultBlocks(results))]
    decreases |results|
  {
    hide Absorb;
    hide BlocksOf;
    if results == [] {
      assert blocks + ResultBlocks(results) == blocks;
    } else {
      var first := ResultBlocks([results[0]]);
      ResultExtends(turns, blocks, results[0]);
      ResultsExtend(turns, blocks + first, results[1..]);
      assert ResultBlocks(results) == first + ResultBlocks(results[1..]);
      Assoc(blocks, first, ResultBlocks(results[1..]));
    }
  }

  /** The results of a batch all land in one new user turn. */
  lemma ResultsOpen(turns: seq<Turn>, results: seq<Message>)
    requires AllTools(results) && Encodable(results) && results != []
    requires turns != [] && turns[|turns| - 1].role.AssistantRole?
    ensures AbsorbAll(turns, results) == turns + [Turn(UserRole, ResultBlocks(results))]
  {
    var first := ResultBlocks(results)[0];
    assert BlocksOf(results[0]) == Ok([first]);
    assert Absorb(turns, results[0]) == turns + [Turn(UserRole, [first])];
    ResultsExtend(turns, [first], results[1..]);
    assert ResultBlocks(results) == [first] + ResultBlocks(results[1..]);
  }

  ghost predicate TurnsInPlace(turns: seq<Turn>) {
    forall k :: 0 <= k < |turns| ==> TurnInPlace(turns, k)
  }

  lemma AssistantPlace(turns: seq<Turn>, k: nat, blocks: seq<Block>, extended: seq<Turn>)
    requires k < |turns| && turns[k].role.AssistantRole? && TurnInPlace(turns, k) && UseIds(turns[k].blocks) == []
    requires forall j :: 0 <= j < |blocks| ==> !blocks[j].ToolResult?
    requires extended == turns[..k] + [Turn(turns[k].role, turns[k].blocks + blocks)]
    ensures TurnInPlace(extended, k) && UsesBefore(extended, k + 1) == UseIds(blocks)
  {
    UseIdsConcat(turns[k].blocks, blocks);
    assert UsesBefore(extended, k) == UsesBefore(turns, k);
  }

  lemma CallsInPlace(turns: seq<Turn>, blocks: seq<Block>)
    requires ResultsInPlace(turns)
    requires forall k :: 0 <= k < |blocks| ==> !blocks[k].ToolResult?
    ensures var called := MergeMessage(turns, AssistantRole, blocks);
            TurnsInPlace(called) && UsesBefore(called, |called|) == UseIds(blocks) &&
            called != [] && called[|called| - 1].role.AssistantRole?
  {
    hide TurnInPlace;
    hide UsesBefore;
    hide UseIds;
    var called := MergeMessage(turns, AssistantRole, blocks);
    var last := |called| - 1;
    assert called[..last] == turns[..last];
    PrefixPlace(turns, called, last);
    if |called| == |turns| {
      LastUses(turns);
      AssistantPlace(turns, last, blocks, called);
    } else {
      CallsOpened(turns, blocks, called);
    }
  }

  lemma LastUses(turns: seq<Turn>)
    requires turns != [] && UsesBefore(turns, |turns|) == [] && turns[|turns| - 1].role.AssistantRole?
    ensures UseIds(turns[|turns| - 1].blocks) == []
  {
  }

  lemma CallsOpened(turns: seq<Turn>, blocks: seq<Block>, called: seq<Turn>)
    requires UsesBefore(turns, |turns|) == []
    requires forall k :: 0 <= k < |blocks| ==> !blocks[k].ToolResult?
    requires called == turns + [Turn(AssistantRole, blocks)]
    ensures TurnInPlace(called, |turns|) && UsesBefore(called, |called|) == UseIds(blocks)
  {
    assert UsesBefore(called, |turns|) == UsesBefore(turns, |turns|);
  }

  lemma AnswersInPlace(turns: seq<Turn>, blocks: seq<Block>)
    requires TurnsInPlace(turns)
    requires UseIds(blocks) == [] && ResultsFirst(blocks, UsesBefore(turns, |turns|))
    ensures ResultsInPlace(turns + [Turn(UserRole, blocks)])
  {
    hide UseIds;
    hide ResultIds;
    var answered := turns + [Turn(UserRole, blocks)];
    assert UsesBefore(answered, |turns|) == UsesBefore(turns, |turns|);
    assert answered[..|turns|] == turns[..|turns|];
    PrefixPlace(turns, answered, |turns|);
  }

  lemma BatchInPlace(turns: seq<Turn>, message: Message, results: seq<Message>)
    requires ResultsInPlace(turns)
    requires BlocksOf(message).Ok? && CallsOf(message) != []
    requires AllTools(results) && Encodable(results)
    requires multiset(Ids(CallsOf(message))) == multiset(Answers(results))
    ensures ResultsInPlace(AbsorbAll(Absorb(turns, message), results))
  {
    hide ResultsInPlace;
    hide AbsorbAll;
    hide BlocksOf;
    var ids, answers := Ids(CallsOf(message)), Answers(results);
    assert |multiset(ids)| == |ids| && |multiset(answers)| == |answers|;
    MessageBlocks(message);
    var called := Absorb(turns, message);
    CallsInPlace(turns, BlocksOf(message).value);
    ResultsOpen(called, results);
    ResultBlocksPlace(results);
    AnswersInPlace(called, ResultBlocks(results));
  }

  lemma {:induction false} AbsorbSplit(turns: seq<Turn>, a: seq<Message>, b: seq<Message>)
    requires Encodable(a) && Encodable(b)
    ensures Encodable(a + b) && AbsorbAll(turns, a + b) == AbsorbAll(AbsorbAll(turns, a), b)
    decreases |a|
  {
    if a == [] {
      assert a + b == b;
    } else {
      assert (a + b)[1..] == a[1..] + b;
      AbsorbSplit(Absorb(turns, a[0]), a[1..], b);
    }
  }

  lemma BatchAbsorbedInPlace(turns: seq<Turn>, head: Message, results: seq<Message>)
    requires ResultsInPlace(turns) && IsBatch(head, results) && Encodable([head] + results)
    ensures BlocksOf(head).Ok? && Encodable(results) && ResultsInPlace(AbsorbAll(Absorb(turns, head), results))
  {
    hide ResultsInPlace;
    hide BlocksOf;
    assert BlocksOf(([head] + results)[0]).Ok?;
    assert forall k :: 0 <= k < |results| ==> results[k] == ([head] + results)[k + 1];
    assert |multiset(Ids(CallsOf(head)))| == |CallsOf(head)| && |multiset(Answers(results))| == |results|;
    if CallsOf(head) != [] {
      BatchInPlace(turns, head, results);
    } else {
      QuietInPlace(turns, head);
    }
  }

  /** A message without calls or results leaves every result where it is. */
  lemma QuietInPlace(turns: seq<Turn>, message: Message)
    requires ResultsInPlace(turns) && BlocksOf(message).Ok? && !message.Tool? && CallsOf(message) == []
    ensures ResultsInPlace(Absorb(turns, message))
  {
    MessageBlocks(message);
    hide ResultsInPlace;
    hide BlocksOf;
    var blocks := BlocksOf(message).value;
    assert Neutral(blocks);
    if blocks != [] && turns != [] && turns[|turns| - 1].role == RoleOf(message) {
      ExtensionInPlace(turns, blocks);
    } else if blocks != [] {
      OpeningInPlace(turns, RoleOf(message), blocks);
    }
  }

  /** Answered histories put every tool result at the front of the turn after its call. */
  lemma {:induction false} AbsorbedInPlace(turns: seq<Turn>, history: seq<Message>)
    requires Encodable(history) && Answered(history) && ResultsInPlace(turns)
    ensures ResultsInPlace(AbsorbAll(turns, history))
    decreases |history|
  {
    hide ResultsInPlace;
    hide MergeMessage;
    if history != [] {
      var n := |CallsOf(history[0])|;
      var results, rest := history[1..n + 1], history[n + 1..];
      HeadAndRun(history, n);
      BatchAbsorbedInPlace(turns, history[0], results);
      AbsorbSplit(Absorb(turns, history[0]), results, rest);
      AbsorbedInPlace(AbsorbAll(Absorb(turns, history[0]), results), rest);
    }
  }

  // ---------------------------------------------------------------- the encoder

  ghost predicate EncodeOk(request: DomainRequest, sizes: Sizes) {
    && WithinLimits(request, sizes)
    && WellPaired(request.messages)
    && request.config.maxOutputTokens.Some?
    && (request.config.temperature.Some? ==> request.config.temperature.value.Within(1.0))
    && Encodable(request.messages)
    && SystemFirst(request.messages)
  }

  lemma EmptyTurns(history: seq<Message>)
    requires Encodable(history)
    ensures AbsorbAll([], history) == [] <==> forall k :: 0 <= k < |history| ==> BlocksOf(history[k]).value == []
  {
    AbsorbedShape([], history);
    Boundary(AbsorbAll([], history));
    NoRetained(history);
  }

  lemma {:induction false} NoRetained(history: seq<Message>)
    requires Encodable(history)
    ensures RetainedBlocks(history) == [] <==> forall k :: 0 <= k < |history| ==> BlocksOf(history[k]).value == []
  {
    if history != [] {
      NoRetained(history[1..]);
      assert forall k :: 0 < k < |history| ==> history[k] == history[1..][k - 1];
    }
  }

  /**
   Encoding succeeds exactly when the request is acceptable and its system messages come first, and
   then the turns keep every block once and in order, alternate strictly and answer every tool use
   at the front of the next turn.
   */
  method Encode(request: DomainRequest, sizes: Sizes) returns (r: Result<MessagesRequest, ErrorKind>)
    ensures r.Ok? <==> EncodeOk(request, sizes)
    ensures r.Ok? ==>
              && r.value.system == SystemTexts(request.messages)
              && Flatten(r.value.messages) == RetainedBlocks(request.messages)
              && Alternating(r.value.messages)
              && ResultsInPlace(r.value.messages)
              && Some(r.value.maxTokens) == request.config.maxOutputTokens
  {
    var normalized := Normalize.Normalize(request, sizes);
    if normalized.Err? {
      return Err(normalized.error);
    }
    if request.config.maxOutputTokens.None? {
      return Err(InvalidParameters);
    }
    if request.config.temperature.Some? && !request.config.temperature.value.Within(1.0) {
      return Err(InvalidParameters);
    }
    var encoded := EncodeTurns(request.messages);
    if encoded.Err? {
      return Err(encoded.error);
    }
    AbsorbedShape([], request.messages);
    AbsorbedInPlace([], request.messages);
    return Ok(MessagesRequest(encoded.value.0, encoded.value.1, request.config.maxOutputTokens.value));
  }

  lemma SystemFirstPrefix(history: seq<Message>, i: nat)
    requires i <= |history| && SystemFirst(history)
    ensures SystemFirst(history[..i])
  {
  }

  lemma SystemFirstGrows(done: seq<Message>, message: Message)
    requires Encodable(done)
    ensures SystemFirst(done + [message]) <==>
            SystemFirst(done) && (message.System? ==> AbsorbAll([], done) == [])
  {
    EmptyTurns(done);
    assert forall k :: 0 <= k < |done| ==> (done + [message])[k] == done[k];
    assert (done + [message])[|done|] == message;
  }

  /** The body of the encoder's loop. */
  method EncodeMessage(message: Message, system: seq<string>, messages: seq<Turn>)
    returns (r: Result<(seq<string>, seq<Turn>), ErrorKind>)
    ensures r.Ok? <==> BlocksOf(message).Ok? && (message.System? ==> messages == [])
    ensures r.Ok? ==> r.value.0 == system + (if message.System? then [message.content] else [])
    ensures r.Ok? ==> r.value.1 == Absorb(messages, message)
  {
    match message {
      case System(content) =>
        return if messages == [] then Ok((system + [content], messages)) else Err(InvalidParameters);
      case _ =>
        match BlocksOf(message) {
          case Err(error) => return Err(error);
          case Ok(blocks) =>
            var merged := if blocks != [] then MergeMessage(messages, RoleOf(message), blocks) else messages;
            Unit(system);
            return Ok((system, merged));
        }
    }
  }

  /** The encoder's loop. */
  method EncodeTurns(history: seq<Message>) returns (r: Result<(seq<string>, seq<Turn>), ErrorKind>)
    ensures r.Ok? <==> Encodable(history) && SystemFirst(history)
    ensures r.Ok? ==> r.value.0 == SystemTexts(history) && r.value.1 == AbsorbAll([], history)
  {
    hide BlocksOf;
    hide Absorb;
    hide SystemFirst;
    NothingYet();
    var system, messages := [], [];
    for i := 0 to |history|
      invariant Encodable(history[..i]) && SystemFirst(history[..i])
      invariant system == SystemTexts(history[..i])
      invariant messages == AbsorbAll([], history[..i])
    {
      var message := history[i];
      assert history[..i + 1] == history[..i] + [message];
      SystemFirstGrows(history[..i], message);
      if SystemFirst(history) {
        SystemFirstPrefix(history, i + 1);
      }
      var encoded := EncodeMessage(message, system, messages);
      if encoded.Err? {
        return Err(encoded.error);
      }
      AbsorbSplit([], history[..i], [message]);
      AbsorbOne(messages, message);
      SystemTextsSplit(history[..i], message);
      system, messages := encoded.value.0, encoded.value.1;
    }
    assert history[..|history|] == history;
    return Ok((system, messages));
  }

  lemma NothingYet()
    ensures Encodable([]) && SystemFirst([]) && SystemTexts([]) == [] && AbsorbAll([], []) == []
  {
  }

  lemma AbsorbOne(turns: seq<Turn>, message: Message)
    requires BlocksOf(message).Ok?
    ensures AbsorbAll(turns, [message]) == Absorb(turns, message)
  {
    hide Absorb;
    assert [message][1..] == [];
  }

  lemma {:induction false} SystemTextsSplit(history: seq<Message>, message: Message)
    ensures SystemTexts(history + [message])
         == SystemTexts(history) + (if message.System? then [message.content] else [])
  {
    if history != [] {
      assert (history + [message])[1..] == history[1..] + [message];
      SystemTextsSplit(history[1..], message);
    }
  }
}
