/** The conversation-context budget manager (`ContextManager` in
    context_manager.py). The tokenizer is an abstract function `tok` from text
    to a token count; the budget is `maxTokens` (the source's default is 120000). */
module ContextManager {
  import opened Wrappers
  import opened Strings

  /** One chat message. Either key may be missing from the source's dict. */
  datatype Message = Message(role: Option<string>, content: Option<string>)

  type Tokenizer = string -> nat

  const DefaultMaxTokens: int := 120000
  /** Formatting overhead charged per message. */
  const PerMessageOverhead: nat := 4

  /** `message.get("role", "")` */
  function RoleText(m: Message): string { m.role.GetOr("") }

  /** `message.get("content", "")` */
  function ContentText(m: Message): string { m.content.GetOr("") }

  /** `msg.get("role") == "system"` */
  predicate IsSystem(m: Message) { m.role == Some("system") }

  function SystemMessage(text: string): Message { Message(Some("system"), Some(text)) }

  /** Tokens one message costs when the whole list is counted. */
  function MessageTokens(tok: Tokenizer, m: Message): nat {
    tok(RoleText(m)) + tok(ContentText(m)) + PerMessageOverhead
  }

  /** What the backward walk charges for a kept message: its content and the overhead, not its role. */
  function ContentCharge(tok: Tokenizer, m: Message): nat {
    tok(ContentText(m)) + PerMessageOverhead
  }

  /** Sum of `MessageTokens` over a list. */
  function TotalTokens(tok: Tokenizer, ms: seq<Message>): nat {
    if ms == [] then 0 else TotalTokens(tok, ms[..|ms| - 1]) + MessageTokens(tok, ms[|ms| - 1])
  }

  /** Sum of `ContentCharge` over a list. */
  function Charge(tok: Tokenizer, ms: seq<Message>): nat {
    if ms == [] then 0 else ContentCharge(tok, ms[0]) + Charge(tok, ms[1..])
  }

  lemma {:induction false} ChargeSnoc(tok: Tokenizer, ms: seq<Message>, m: Message)
    ensures Charge(tok, ms + [m]) == Charge(tok, ms) + ContentCharge(tok, m)
  {
    if ms != [] {
      assert (ms + [m])[1..] == ms[1..] + [m];
      ChargeSnoc(tok, ms[1..], m);
    }
  }

  /** Counting is additive over concatenation. */
  lemma {:induction false} TotalTokensAppend(tok: Tokenizer, a: seq<Message>, b: seq<Message>)
    ensures TotalTokens(tok, a + b) == TotalTokens(tok, a) + TotalTokens(tok, b)
    decreases |b|
  {
    if b != [] {
      assert (a + b)[..|a + b| - 1] == a + b[..|b| - 1];
      TotalTokensAppend(tok, a, b[..|b| - 1]);
    } else {
      assert a + b == a;
    }
  }

  /** Every message costs at least the overhead. */
  lemma {:induction false} TotalTokensLowerBound(tok: Tokenizer, ms: seq<Message>)
    ensures TotalTokens(tok, ms) >= PerMessageOverhead * |ms|
  {
    if ms != [] {
      TotalTokensLowerBound(tok, ms[..|ms| - 1]);
    }
  }

  /** `count_message_tokens`: accumulates role, content and overhead message by message. */
  method CountMessageTokens(tok: Tokenizer, messages: seq<Message>) returns (total: nat)
    ensures total == TotalTokens(tok, messages)
  {
    total := 0;
    var i := 0;
    while i < |messages|
      invariant 0 <= i <= |messages|
      invariant total == TotalTokens(tok, messages[..i])
    {
      var message := messages[i];
      total := total + tok(RoleText(message));
      total := total + tok(ContentText(message));
      total := total + PerMessageOverhead;
      assert messages[..i + 1][..i] == messages[..i];
      i := i + 1;
    }
    assert messages[..i] == messages;
  }

  /** The system messages of a list, in order. */
  function Systems(ms: seq<Message>): seq<Message>
  {
    if ms == [] then []
    else Systems(ms[..|ms| - 1]) + (if IsSystem(ms[|ms| - 1]) then [ms[|ms| - 1]] else [])
  }

  /** The other messages of a list, in order. */
  function NonSystems(ms: seq<Message>): seq<Message>
  {
    if ms == [] then []
    else NonSystems(ms[..|ms| - 1]) + (if IsSystem(ms[|ms| - 1]) then [] else [ms[|ms| - 1]])
  }

  lemma {:induction false} SplitByRole(ms: seq<Message>)
    ensures |Systems(ms)| + |NonSystems(ms)| == |ms|
  {
    if ms != [] {
      SplitByRole(ms[..|ms| - 1]);
    }
  }

  lemma {:induction false} SystemsAppend(a: seq<Message>, b: seq<Message>)
    ensures Systems(a + b) == Systems(a) + Systems(b)
    ensures NonSystems(a + b) == NonSystems(a) + NonSystems(b)
    decreases |b|
  {
    if b == [] {
      assert a + b == a;
    } else {
      assert (a + b)[..|a + b| - 1] == a + b[..|b| - 1];
      SystemsAppend(a, b[..|b| - 1]);
    }
  }

  /** Filtering twice changes nothing, and the two filters share no message. */
  lemma {:induction false} FiltersIdempotent(ms: seq<Message>)
    ensures Systems(Systems(ms)) == Systems(ms) && NonSystems(Systems(ms)) == []
    ensures NonSystems(NonSystems(ms)) == NonSystems(ms) && Systems(NonSystems(ms)) == []
  {
    if ms != [] {
      var init := ms[..|ms| - 1];
      var last := ms[|ms| - 1];
      FiltersIdempotent(init);
      if IsSystem(last) {
        SystemsAppend(Systems(init), [last]);
        assert Systems([last]) == Systems([]) + [last] by { assert [last][..0] == []; }
        assert NonSystems([last]) == [] by { assert [last][..0] == []; }
        assert NonSystems(ms) == NonSystems(init);
      } else {
        SystemsAppend(NonSystems(init), [last]);
        assert NonSystems([last]) == NonSystems([]) + [last] by { assert [last][..0] == []; }
        assert Systems([last]) == [] by { assert [last][..0] == []; }
        assert Systems(ms) == Systems(init);
      }
    }
  }

  /** A list without system messages keeps none in any suffix. */
  lemma {:induction false} SystemsOfSuffix(xs: seq<Message>, j: nat)
    requires j <= |xs| && Systems(xs) == []
    ensures Systems(xs[j..]) == []
  {
    var a, b := xs[..j], xs[j..];
    assert a + b == xs;
    SystemsAppend(a, b);
    assert |Systems(a)| + |Systems(b)| == 0;
  }

  /** `k` trailing messages of `ns` are what a backward walk starting from
      `used` tokens keeps: they fit, and the message before them does not. */
  predicate StopsAt(tok: Tokenizer, maxTokens: int, ns: seq<Message>, used: int, k: nat) {
    && k <= |ns|
    && (k > 0 ==> used + Charge(tok, ns[|ns| - k..]) <= maxTokens)
    && (k < |ns| ==> used + Charge(tok, ns[|ns| - k..]) + ContentCharge(tok, ns[|ns| - k - 1]) > maxTokens)
  }

  /** How many of the trailing messages of `ns` the backward walk keeps, starting
      from `used` tokens: it stops at the first message that does not fit. */
  function KeptCount(tok: Tokenizer, maxTokens: int, ns: seq<Message>, used: int): (k: nat)
    ensures StopsAt(tok, maxTokens, ns, used, k)
  {
    if ns == [] then 0
    else
      var c := ContentCharge(tok, ns[|ns| - 1]);
      if used + c <= maxTokens then
        var rest := KeptCount(tok, maxTokens, ns[..|ns| - 1], used + c);
        KeptSuffixCharge(tok, ns, rest);
        1 + rest
      else 0
  }

  /** The kept suffix of length k+1 costs its first message plus the suffix of length k. */
  lemma {:induction false} KeptSuffixCharge(tok: Tokenizer, ns: seq<Message>, k: nat)
    requires k < |ns|
    ensures Charge(tok, ns[|ns| - (k + 1)..]) ==
            Charge(tok, ns[..|ns| - 1][|ns| - 1 - k..]) + ContentCharge(tok, ns[|ns| - 1])
    ensures ns[..|ns| - 1][|ns| - 1 - k..] + [ns[|ns| - 1]] == ns[|ns| - (k + 1)..]
  {
    var front := ns[..|ns| - 1][|ns| - 1 - k..];
    assert front + [ns[|ns| - 1]] == ns[|ns| - (k + 1)..];
    ChargeSnoc(tok, front, ns[|ns| - 1]);
  }

  /** The walk's count is the only one that fits and cannot be extended: an
      independent characterisation of `KeptCount` (charges are positive). */
  lemma {:induction false} KeptCountUnique(tok: Tokenizer, maxTokens: int, ns: seq<Message>, used: int, j: nat)
    requires StopsAt(tok, maxTokens, ns, used, j)
    ensures j == KeptCount(tok, maxTokens, ns, used)
  {
    var k := KeptCount(tok, maxTokens, ns, used);
    StopsAtMost(tok, maxTokens, ns, used, j, k);
    StopsAtMost(tok, maxTokens, ns, used, k, j);
  }

  /** A walk that stops after `a` messages never keeps `b > a`. */
  lemma {:induction false} StopsAtMost(tok: Tokenizer, maxTokens: int, ns: seq<Message>, used: int, a: nat, b: nat)
    requires StopsAt(tok, maxTokens, ns, used, a) && StopsAt(tok, maxTokens, ns, used, b)
    ensures b <= a
  {
    if a < b {
      // the (a+1)-long suffix fits, since the b-long one does
      ChargeSuffixMonotone(tok, ns, a + 1, b);
      ChargeSuffixStep(tok, ns, a);
      assert false;
    }
  }

  /** A suffix one longer costs one more message's content charge. */
  lemma {:induction false} ChargeSuffixStep(tok: Tokenizer, ns: seq<Message>, j: int)
    ensures 0 <= j < |ns| ==>
      Charge(tok, ns[|ns| - (j + 1)..]) == ContentCharge(tok, ns[|ns| - j - 1]) + Charge(tok, ns[|ns| - j..])
  {
    if 0 <= j < |ns| {
      assert ns[|ns| - (j + 1)..][1..] == ns[|ns| - j..];
    }
  }

  /** A longer suffix never costs less. */
  lemma {:induction false} ChargeSuffixMonotone(tok: Tokenizer, ns: seq<Message>, a: nat, b: nat)
    requires a <= b <= |ns|
    ensures Charge(tok, ns[|ns| - a..]) <= Charge(tok, ns[|ns| - b..])
    decreases b - a
  {
    if a < b {
      ChargeSuffixMonotone(tok, ns, a, b - 1);
      assert ns[|ns| - b..] == [ns[|ns| - b]] + ns[|ns| - (b - 1)..];
    }
  }

  /** The assistant message announcing that history was dropped. */
  function Marker(kept: nat, given: nat): Message {
    Message(Some("assistant"), Some("[Previous conversation history truncated - keeping "
      + NatToString(kept) + " of " + NatToString(given) + " messages to manage context length]"))
  }

  /** Where `list.insert(-1 if len > 1 else 0, x)` puts `x`. */
  function MarkerIndex(len: nat): nat {
    if len > 1 then len - 1 else 0
  }

  /** `list.insert(i, x)` for an index within the list. */
  function InsertAt(s: seq<Message>, i: nat, x: Message): seq<Message>
    requires i <= |s|
  {
    s[..i] + [x] + s[i..]
  }

  /** Removing what was inserted gives the list back. */
  lemma {:induction false} InsertAtRemove(s: seq<Message>, i: nat, x: Message)
    requires i <= |s|
    ensures var r := InsertAt(s, i, x); |r| == |s| + 1 && r[i] == x && r[..i] + r[i + 1..] == s
  {
    var r := InsertAt(s, i, x);
    assert r[..i] == s[..i] && r[i + 1..] == s[i..];
  }

  /** The non-system messages the walk keeps: a suffix of them, the longest
      whose content charge fits next to the full cost of the system messages. */
  function KeptTail(tok: Tokenizer, maxTokens: int, ms: seq<Message>): (tail: seq<Message>)
    ensures var ns := NonSystems(ms);
            && |tail| <= |ns| && tail == ns[|ns| - |tail|..]
            && StopsAt(tok, maxTokens, ns, TotalTokens(tok, Systems(ms)), |tail|)
  {
    var ns := NonSystems(ms);
    var k := KeptCount(tok, maxTokens, ns, TotalTokens(tok, Systems(ms)));
    ns[|ns| - k..]
  }

  /** What `truncate_conversation` returns. */
  function Truncate(tok: Tokenizer, maxTokens: int, ms: seq<Message>): seq<Message> {
    if ms == [] || TotalTokens(tok, ms) <= maxTokens then ms
    else
      var result := Systems(ms) + KeptTail(tok, maxTokens, ms);
      if |result| < |ms| then InsertAt(result, MarkerIndex(|result|), Marker(|result|, |ms|))
      else result
  }

  /** An empty list, or one whose full count is within the budget, comes back
      as it was; any other list keeps only its system messages and a suffix of
      the others, so it never grows by more than the marker. */
  lemma {:induction false} TruncateWithinBudget(tok: Tokenizer, maxTokens: int, ms: seq<Message>)
    ensures ms == [] || TotalTokens(tok, ms) <= maxTokens ==> Truncate(tok, maxTokens, ms) == ms
    ensures |Truncate(tok, maxTokens, ms)| <= |ms|
  {
    if ms != [] && TotalTokens(tok, ms) > maxTokens {
      TruncateOverBudget(tok, maxTokens, ms);
    }
  }

  /** The system messages followed by the kept tail hold exactly those system
      messages, and are never more than the input. */
  lemma {:induction false} KeptListSystems(tok: Tokenizer, maxTokens: int, ms: seq<Message>)
    ensures var sys := Systems(ms);
            var tail := KeptTail(tok, maxTokens, ms);
            && Systems(sys + tail) == sys
            && |sys + tail| <= |ms|
  {
    var sys, ns := Systems(ms), NonSystems(ms);
    var tail := KeptTail(tok, maxTokens, ms);
    assert Systems(sys) == sys && Systems(ns) == [] by { FiltersIdempotent(ms); }
    assert Systems(tail) == [] by { SystemsOfSuffix(ns, |ns| - |tail|); }
    assert Systems(sys + tail) == sys + [] by { SystemsAppend(sys, tail); }
    assert |sys| + |ns| == |ms| by { SplitByRole(ms); }
  }

  /** Inserting a marker leaves the system messages as they were. */
  lemma {:induction false} MarkerKeepsSystems(kept: seq<Message>, p: nat, mk: Message)
    requires p <= |kept| && !IsSystem(mk)
    ensures Systems(kept[..p] + [mk] + kept[p..]) == Systems(kept)
  {
    SystemsAppend(kept[..p], [mk]);
    assert Systems([mk]) == [];
    assert Systems(kept[..p] + [mk]) == Systems(kept[..p]);
    SystemsAppend(kept[..p] + [mk], kept[p..]);
    SystemsAppend(kept[..p], kept[p..]);
    assert kept[..p] + kept[p..] == kept;
  }

  /** What truncation does to an over-budget list: system messages all stay, in
      order; the other messages kept are `KeptTail`; a
      marker is inserted exactly when something was dropped, and the result is
      never longer than the input. */
  lemma {:induction false} TruncateOverBudget(tok: Tokenizer, maxTokens: int, ms: seq<Message>)
    requires ms != [] && TotalTokens(tok, ms) > maxTokens
    ensures var out := Truncate(tok, maxTokens, ms);
            var kept := Systems(ms) + KeptTail(tok, maxTokens, ms);
            && Systems(out) == Systems(ms)
            && (|kept| == |ms| ==> out == kept)
            && (|kept| < |ms| ==> |out| == |kept| + 1
                                  && out[MarkerIndex(|kept|)] == Marker(|kept|, |ms|)
                                  && out[..MarkerIndex(|kept|)] + out[MarkerIndex(|kept|) + 1..] == kept)
            && |out| <= |ms|
  {
    var kept := Systems(ms) + KeptTail(tok, maxTokens, ms);
    KeptListSystems(tok, maxTokens, ms);
    if |kept| < |ms| {
      MarkerKeepsSystems(kept, MarkerIndex(|kept|), Marker(|kept|, |ms|));
      InsertAtRemove(kept, MarkerIndex(|kept|), Marker(|kept|, |ms|));
    }
  }

  /** The backward walk of `truncate_conversation` over the non-system
      messages: prepend each one whose content charge still fits, stop at the
      first that does not. */
  method KeepRecent(tok: Tokenizer, maxTokens: int, nonSystem: seq<Message>, used: int) returns (truncated: seq<Message>)
    ensures truncated == nonSystem[|nonSystem| - KeptCount(tok, maxTokens, nonSystem, used)..]
  {
    truncated := [];
    var currentTokens := used;
    var i := |nonSystem|;
    var stopped := false;
    while i > 0 && !stopped
      invariant 0 <= i <= |nonSystem|
      invariant truncated == nonSystem[i..]
      invariant currentTokens == used + Charge(tok, truncated)
      invariant truncated != [] ==> currentTokens <= maxTokens
      invariant stopped ==> i > 0 && currentTokens + ContentCharge(tok, nonSystem[i - 1]) > maxTokens
      decreases i, if stopped then 0 else 1
    {
      var message := nonSystem[i - 1];
      var messageTokens := tok(ContentText(message)) + PerMessageOverhead;
      if currentTokens + messageTokens <= maxTokens {
        assert nonSystem[i - 1..] == [message] + nonSystem[i..];
        truncated := [message] + truncated;
        currentTokens := currentTokens + messageTokens;
        i := i - 1;
      } else {
        stopped := true;
      }
    }
    KeptCountUnique(tok, maxTokens, nonSystem, used, |nonSystem| - i);
  }

  /** `truncate_conversation`: keeps the system messages, walks the others from
      the newest back while their content charge fits, and marks any loss. */
  method TruncateConversation(tok: Tokenizer, maxTokens: int, messages: seq<Message>) returns (result: seq<Message>)
    ensures result == Truncate(tok, maxTokens, messages)
  {
    if |messages| == 0 {
      return messages;
    }
    var totalTokens := CountMessageTokens(tok, messages);
    if totalTokens <= maxTokens {
      return messages;
    }
    result := [];
    var systemMessages := Systems(messages);
    if |systemMessages| > 0 {
      result := result + systemMessages;
    }
    assert result == systemMessages;
    var nonSystem := NonSystems(messages);
    var currentTokens := CountMessageTokens(tok, result);
    var truncated := KeepRecent(tok, maxTokens, nonSystem, currentTokens);
    result := result + truncated;
    if |result| < |messages| {
      var summary := Marker(|result|, |messages|);
      result := InsertAt(result, MarkerIndex(|result|), summary);
    }
  }

  /** The list handed to truncation: with a non-empty system prompt, that prompt
      replaces every system message; otherwise the input as it is. */
  function RequestList(ms: seq<Message>, systemPrompt: Option<string>): seq<Message> {
    if systemPrompt.Some? && systemPrompt.value != "" then [SystemMessage(systemPrompt.value)] + NonSystems(ms)
    else ms
  }

  /** `prepare_messages_for_api` */
  function PrepareMessages(tok: Tokenizer, maxTokens: int, ms: seq<Message>, systemPrompt: Option<string>): seq<Message> {
    Truncate(tok, maxTokens, RequestList(ms, systemPrompt))
  }

  /** With a non-empty system prompt the request holds exactly one system
      message, the prompt, before the caller's other messages in order; and that
      stays so after truncation. Without one the input is truncated as given. */
  lemma {:induction false} PrepareWithPrompt(tok: Tokenizer, maxTokens: int, ms: seq<Message>, systemPrompt: Option<string>)
    ensures systemPrompt.Some? && systemPrompt.value != "" ==>
      && Systems(RequestList(ms, systemPrompt)) == [SystemMessage(systemPrompt.value)]
      && NonSystems(RequestList(ms, systemPrompt)) == NonSystems(ms)
      && Systems(PrepareMessages(tok, maxTokens, ms, systemPrompt)) == [SystemMessage(systemPrompt.value)]
    ensures !(systemPrompt.Some? && systemPrompt.value != "") ==>
      PrepareMessages(tok, maxTokens, ms, systemPrompt) == Truncate(tok, maxTokens, ms)
  {
    if systemPrompt.Some? && systemPrompt.value != "" {
      var head := [SystemMessage(systemPrompt.value)];
      var req := RequestList(ms, systemPrompt);
      SystemsAppend(head, NonSystems(ms));
      FiltersIdempotent(ms);
      assert Systems(head) == head && NonSystems(head) == [] by { assert head[..0] == []; }
      assert Systems(req) == head;
      var out := Truncate(tok, maxTokens, req);
      if req != [] && TotalTokens(tok, req) > maxTokens {
        TruncateOverBudget(tok, maxTokens, req);
      }
    }
  }

  /** A tokenizer that counts every text as one token. */
  function UnitTokens(text: string): nat { 1 }

  lemma {:induction false} TotalTokensThree(tok: Tokenizer, x: Message, y: Message, z: Message)
    ensures TotalTokens(tok, [x, y, z]) == MessageTokens(tok, x) + MessageTokens(tok, y) + MessageTokens(tok, z)
  {
    assert TotalTokens(tok, [x]) == MessageTokens(tok, x) by { assert [x][..0] == []; }
    assert TotalTokens(tok, [x, y]) == TotalTokens(tok, [x]) + MessageTokens(tok, y) by { assert [x, y][..1] == [x]; }
    assert [x, y, z][..2] == [x, y];
  }

  lemma {:induction false} NoSystemsThree(x: Message, y: Message, z: Message)
    requires !IsSystem(x) && !IsSystem(y) && !IsSystem(z)
    ensures Systems([x, y, z]) == [] && NonSystems([x, y, z]) == [x, y, z]
  {
    assert Systems([x]) == [] && NonSystems([x]) == [x] by { assert [x][..0] == []; }
    assert Systems([x, y]) == [] && NonSystems([x, y]) == [x, y] by { assert [x, y][..1] == [x]; }
    assert [x, y, z][..2] == [x, y];
  }

  /** With one-token texts and a budget of 10, the walk over three user
      messages keeps two: each is charged 5 and a third would not fit. */
  lemma {:induction false} UnitWalkKeepsTwo(m: Message)
    requires m == Message(Some("user"), Some("hi"))
    ensures KeptCount(UnitTokens, 10, [m, m, m], 0) == 2
  {
    var tok: Tokenizer := UnitTokens;
    var ms := [m, m, m];
    assert ContentCharge(tok, m) == 5;
    assert Charge(tok, [m]) == 5 by { assert [m][1..] == []; }
    assert Charge(tok, [m, m]) == 10 by { assert [m, m][1..] == [m]; }
    assert ms[|ms| - 2..] == [m, m];
    KeptCountUnique(tok, 10, ms, 0, 2);
  }

  /** The truncated list for that walk: the two kept messages with the marker
      before the last. */
  lemma {:induction false} UnitTruncation(m: Message)
    requires m == Message(Some("user"), Some("hi"))
    ensures Truncate(UnitTokens, 10, [m, m, m]) == [m, Marker(2, 3), m]
  {
    var tok: Tokenizer := UnitTokens;
    var ms := [m, m, m];
    assert TotalTokens(tok, ms) == 18 by { TotalTokensThree(tok, m, m, m); }
    assert Systems(ms) == [] && NonSystems(ms) == ms by { NoSystemsThree(m, m, m); }
    var tail := KeptTail(tok, 10, ms);
    assert tail == [m, m] by {
      UnitWalkKeepsTwo(m);
      assert ms[1..] == [m, m];
    }
    var out := Truncate(tok, 10, ms);
    TruncateOverBudget(tok, 10, ms);
    assert Systems(ms) + tail == [m, m];
    assert out[..1] + out[2..] == [m, m];
    assert out[0] == m && out[2] == m;
  }

  /** The truncated list can still be over budget: roles are not charged by the
      walk and the marker is never charged. Three user messages, each text one
      token, against a budget of 10 keep two and add a marker, for 18 tokens. */
  lemma {:induction false} TruncationMayExceedBudget()
    ensures var m := Message(Some("user"), Some("hi"));
            var out := Truncate(UnitTokens, 10, [m, m, m]);
            out == [m, Marker(2, 3), m] && TotalTokens(UnitTokens, out) == 18
  {
    var m := Message(Some("user"), Some("hi"));
    UnitTruncation(m);
    TotalTokensThree(UnitTokens, m, Marker(2, 3), m);
  }
}
