// The bot gateway: bounded chat histories per conversation, and a queue that refuses
// recently accepted events.

module Dialogue {
  import opened Wrappers
  import Text

  datatype ChatMessage = ChatMessage(role: string, content: string)

  const MAXIMUM_MESSAGES := 64
  const MAXIMUM_BYTES := 256 * 1024

  function HistoryBytes(messages: seq<ChatMessage>): nat {
    if messages == [] then 0 else Text.StringBytes(messages[0].content) + HistoryBytes(messages[1..])
  }

  lemma {:induction false} BytesSplit(a: seq<ChatMessage>, b: seq<ChatMessage>)
    ensures HistoryBytes(a + b) == HistoryBytes(a) + HistoryBytes(b)
  {
    if a == [] {
      assert a + b == b;
    } else {
      BytesSplit(a[1..], b);
      assert (a + b)[1..] == a[1..] + b;
    }
  }

  predicate Blank(s: string) {
    Text.TrimSpace(s) == ""
  }

  function ExpectedRole(position: nat): string {
    if position % 2 == 1 then "assistant" else "user"
  }

  function StartOf(messages: seq<ChatMessage>): nat {
    if messages != [] && messages[0].role == "system" then 1 else 0
  }

  // User and assistant alternate, from the user, after an optional system message.
  predicate DialogueOk(messages: seq<ChatMessage>) {
    var start := StartOf(messages);
    && |messages| > start
    && (forall i :: 0 <= i < |messages| ==> !Blank(messages[i].content))
    && (forall i :: start <= i < |messages| ==> messages[i].role == ExpectedRole(i - start))
  }

  method ValidateDialogue(messages: seq<ChatMessage>) returns (ok: bool)
    ensures ok <==> DialogueOk(messages)
  {
    hide Blank;
    if |messages| == 0 { return false; }
    var start := 0;
    if messages[0].role == "system" {
      start := 1;
      if |messages| == 1 { return false; }
    }
    for index := 0 to |messages|
      invariant forall i :: 0 <= i < index ==> !Blank(messages[i].content)
      invariant forall i :: start <= i < index ==> messages[i].role == ExpectedRole(i - start)
    {
      if Blank(messages[index].content) { return false; }
      if index < start { continue; }
      var expected := "user";
      if (index - start) % 2 == 1 { expected := "assistant"; }
      if messages[index].role != expected { return false; }
    }
    ok := true;
  }

  datatype ChatError = WrongCount | TooLarge | UnsupportedRole | BadDialogue | LastNotUser

  predicate KnownRole(role: string) {
    role == "system" || role == "user" || role == "assistant"
  }

  // The chats the server accepts.
  predicate Acceptable(messages: seq<ChatMessage>) {
    && 1 <= |messages| <= MAXIMUM_MESSAGES
    && HistoryBytes(messages) <= MAXIMUM_BYTES
    && DialogueOk(messages)
    && messages[|messages| - 1].role == "user"
  }

  lemma RolesAreKnown(messages: seq<ChatMessage>)
    requires DialogueOk(messages)
    ensures forall i :: 0 <= i < |messages| ==> KnownRole(messages[i].role)
  {
    hide Blank;
  }

  lemma BytesOfOne(m: ChatMessage)
    ensures HistoryBytes([m]) == Text.StringBytes(m.content)
  {
    assert [m][1..] == [];
  }

  lemma BytesAt(messages: seq<ChatMessage>, index: nat)
    requires index < |messages|
    ensures HistoryBytes(messages[..index + 1]) ==
              HistoryBytes(messages[..index]) + Text.StringBytes(messages[index].content)
    ensures HistoryBytes(messages[..index + 1]) <= HistoryBytes(messages)
  {
    var m := messages[index];
    BytesOfOne(m);
    hide HistoryBytes, Text.StringBytes;
    assert messages[..index + 1] == messages[..index] + [m];
    BytesSplit(messages[..index], [m]);
    assert messages == messages[..index + 1] + messages[index + 1..];
    BytesSplit(messages[..index + 1], messages[index + 1..]);
  }

  // Total size and roles, message by message.
  method CheckMessages(messages: seq<ChatMessage>) returns (problem: Option<ChatError>)
    ensures problem.None? <==>
              HistoryBytes(messages) <= MAXIMUM_BYTES && forall i :: 0 <= i < |messages| ==> KnownRole(messages[i].role)
  {
    hide KnownRole, Text.StringBytes;
    var totalBytes := 0;
    for index := 0 to |messages|
      invariant totalBytes == HistoryBytes(messages[..index]) <= MAXIMUM_BYTES
      invariant forall i :: 0 <= i < index ==> KnownRole(messages[i].role)
    {
      BytesAt(messages, index);
      hide HistoryBytes;
      totalBytes := totalBytes + Text.StringBytes(messages[index].content);
      if totalBytes > MAXIMUM_BYTES { return Some(TooLarge); }
      if !KnownRole(messages[index].role) { return Some(UnsupportedRole); }
    }
    assert messages[..|messages|] == messages;
    problem := None;
  }

  method CopyMessages(first: seq<ChatMessage>, rest: seq<ChatMessage>) returns (history: seq<ChatMessage>)
    ensures history == first + rest
  {
    history := first;
    for index := 0 to |rest|
      invariant history == first + rest[..index]
    {
      history := history + [ChatMessage(rest[index].role, rest[index].content)];
    }
    assert rest[..|rest|] == rest;
  }

  // The accepted messages after one system prompt.
  method BuildOpsChatHistory(messages: seq<ChatMessage>, instruction: string)
    returns (r: Result<seq<ChatMessage>, ChatError>)
    ensures r.Ok? <==> Acceptable(messages)
    ensures r.Ok? ==>
              var start := StartOf(messages);
              && |r.value| == 1 + |messages| - start && r.value[1..] == messages[start..]
              && r.value[0] == ChatMessage("system",
                   (if start == 1 then "Additional client context:\n" + messages[0].content + "\n\n"
                    else "") + instruction)
  {
    hide DialogueOk, KnownRole, HistoryBytes;
    if |messages| == 0 || |messages| > MAXIMUM_MESSAGES { return Err(WrongCount); }
    if DialogueOk(messages) { RolesAreKnown(messages); }
    var problem := CheckMessages(messages);
    if problem.Some? { return Err(problem.value); }
    var valid := ValidateDialogue(messages);
    if !valid { return Err(BadDialogue); }
    if messages[|messages| - 1].role != "user" { return Err(LastNotUser); }
    var systemPrompt := "";
    var start := 0;
    if messages[0].role == "system" {
      systemPrompt := "Additional client context:\n" + messages[0].content;
      start := 1;
    }
    if systemPrompt != "" { systemPrompt := systemPrompt + "\n\n"; }
    systemPrompt := systemPrompt + instruction;
    var history := CopyMessages([ChatMessage("system", systemPrompt)], messages[start..]);
    r := Ok(history);
  }

  // ------------------------------------------------------- Trimming

  // Alternating from the user, nothing blank: what the gateway keeps.
  predicate Alternates(h: seq<ChatMessage>) {
    forall i :: 0 <= i < |h| ==> h[i].role == ExpectedRole(i) && !Blank(h[i].content)
  }

  predicate Over(h: seq<ChatMessage>, messages: nat, bytes: nat) {
    |h| > messages || HistoryBytes(h) > bytes
  }

  lemma DropTwo(history: seq<ChatMessage>, dropped: nat)
    requires dropped + 2 <= |history|
    ensures history[dropped..][2..] == history[dropped + 2..]
  {
  }

  // Drops the oldest exchange while over the chat limits and more than two are left.
  method TrimRequestHistory(history: seq<ChatMessage>) returns (h: seq<ChatMessage>, ghost dropped: nat)
    ensures dropped <= |history| && dropped % 2 == 0 && h == history[dropped..]
    ensures !Over(h, MAXIMUM_MESSAGES, MAXIMUM_BYTES) || |h| <= 2
    ensures dropped > 0 ==> Over(history[dropped - 2..], MAXIMUM_MESSAGES, MAXIMUM_BYTES) && h != []
  {
    hide Over;
    h, dropped := history, 0;
    while Over(h, MAXIMUM_MESSAGES, MAXIMUM_BYTES) && |h| > 2
      invariant dropped <= |history| && dropped % 2 == 0 && h == history[dropped..]
      invariant dropped > 0 ==> Over(history[dropped - 2..], MAXIMUM_MESSAGES, MAXIMUM_BYTES) && h != []
      decreases |h|
    {
      DropTwo(history, dropped);
      h, dropped := h[2..], dropped + 2;
    }
  }

  lemma EmptyIsNotOver(messages: nat, bytes: nat)
    ensures !Over([], messages, bytes) && HistoryBytes([]) == 0
  {
  }

  // Drops the oldest exchange while over the given limits, down to nothing.
  method TrimStoredHistory(history: seq<ChatMessage>, messages: nat, bytes: nat)
    returns (h: seq<ChatMessage>, ghost dropped: nat)
    ensures dropped <= |history| && h == history[dropped..] && !Over(h, messages, bytes)
    ensures |history| % 2 == 0 ==>
              dropped % 2 == 0 && (dropped > 0 ==> dropped >= 2 && Over(history[dropped - 2..], messages, bytes))
  {
    hide HistoryBytes;
    EmptyIsNotOver(messages, bytes);
    h, dropped := history, 0;
    while |h| > messages || HistoryBytes(h) > bytes
      invariant dropped <= |history| && dropped % 2 == 0 && h == history[dropped..]
      invariant dropped > 0 ==> Over(history[dropped - 2..], messages, bytes)
      decreases |h|
    {
      if |h| < 2 {
        return [], |history|;
      }
      DropTwo(history, dropped);
      h, dropped := h[2..], dropped + 2;
    }
  }

  lemma RoleRepeats(dropped: nat, i: nat)
    requires dropped % 2 == 0
    ensures ExpectedRole(dropped + i) == ExpectedRole(i)
  {
    var half := dropped / 2;
    assert dropped + i == 2 * half + i;
  }

  lemma DropKeepsAlternation(h: seq<ChatMessage>, dropped: nat)
    requires Alternates(h) && dropped <= |h| && dropped % 2 == 0
    ensures Alternates(h[dropped..])
  {
    hide Blank, ExpectedRole;
    forall i | 0 <= i < |h| - dropped
      ensures h[dropped..][i].role == ExpectedRole(i) && !Blank(h[dropped..][i].content) {
      assert h[dropped..][i] == h[dropped + i];
      RoleRepeats(dropped, i);
    }
  }

  // A kept history with a new prompt is an acceptable chat as soon as it fits.
  lemma PromptIsAcceptable(h: seq<ChatMessage>)
    requires Alternates(h) && |h| % 2 == 1 && !Over(h, MAXIMUM_MESSAGES, MAXIMUM_BYTES)
    ensures Acceptable(h)
  {
    hide Blank, HistoryBytes;
    assert h[0].role == ExpectedRole(0) == "user";
    assert h[|h| - 1].role == ExpectedRole(|h| - 1);
  }
}

module BotGateway {
  import opened Wrappers
  import opened Dialogue
  import Order
  import Text

  const MAXIMUM_REMEMBERED_EVENTS := 4096

  datatype Settings = Settings(queueSize: int, historyMessages: int, historyBytes: int, sessionTtl: int,
                               maxSessions: int)

  // The ranges the notification configuration accepts (times in seconds).
  predicate SettingsOk(s: Settings) {
    && 1 <= s.queueSize <= 1024 && 2 <= s.historyMessages <= 64 && 1024 <= s.historyBytes <= 256 * 1024
    && 60 <= s.sessionTtl <= 30 * 24 * 3600 && 1 <= s.maxSessions <= 4096
  }

  datatype SessionKey = SessionKey(kind: string, receiver: string, conversation: string, thread: int)

  // The session table's key: the four parts joined by NUL characters.
  function KeyText(k: SessionKey): string {
    Text.Joined(k.kind, Text.Joined(k.receiver, Text.Joined(k.conversation, Text.SignedDecimal(k.thread))))
  }

  // Receiver names and types contain no NUL, so the joined key is as good as its parts,
  // whatever the conversation is called.
  lemma SessionKeyIsInjective(a: SessionKey, b: SessionKey)
    requires '\0' !in a.kind && '\0' !in a.receiver && '\0' !in b.kind && '\0' !in b.receiver
    ensures KeyText(a) == KeyText(b) <==> a == b
  {
    hide Text.Joined, Text.SignedDecimal;
    if KeyText(a) == KeyText(b) {
      var u, v := Text.SignedDecimal(a.thread), Text.SignedDecimal(b.thread);
      Text.JoinedFirst(a.kind, Text.Joined(a.receiver, Text.Joined(a.conversation, u)),
                       b.kind, Text.Joined(b.receiver, Text.Joined(b.conversation, v)));
      Text.JoinedFirst(a.receiver, Text.Joined(a.conversation, u), b.receiver, Text.Joined(b.conversation, v));
      Text.NoNulInNumber(a.thread);
      Text.NoNulInNumber(b.thread);
      Text.JoinedLast(a.conversation, u, b.conversation, v);
      Text.SignedDecimalIsInjective(a.thread, b.thread);
    }
  }

  datatype Session = Session(messages: seq<ChatMessage>, updatedAt: int)

  datatype Command = Help | New | Status | Unsupported | Chat

  datatype BotMessage = BotMessage(eventId: string, key: SessionKey, command: Command, prompt: string)

  datatype Verdict = Queued | Duplicate | QueueFull

  predicate SessionOk(s: Settings, h: seq<ChatMessage>) {
    |h| % 2 == 0 && Alternates(h) && |h| <= s.historyMessages && HistoryBytes(h) <= s.historyBytes
  }

  // The ids remembered out of all accepted ones.
  function Recent(accepted: seq<string>): seq<string> {
    if |accepted| <= MAXIMUM_REMEMBERED_EVENTS then accepted else accepted[|accepted| - MAXIMUM_REMEMBERED_EVENTS..]
  }

  // An id is accepted again only after 4096 others.
  ghost predicate FarApart(accepted: seq<string>) {
    forall i, j :: 0 <= i < j < |accepted| && accepted[i] == accepted[j] ==> j - i > MAXIMUM_REMEMBERED_EVENTS
  }

  lemma RecentAreDistinct(accepted: seq<string>)
    requires FarApart(accepted)
    ensures forall i, j :: 0 <= i < j < |Recent(accepted)| ==> Recent(accepted)[i] != Recent(accepted)[j]
  {
    var skipped := |accepted| - |Recent(accepted)|;
    forall i, j | 0 <= i < j < |Recent(accepted)| ensures Recent(accepted)[i] != Recent(accepted)[j] {
      assert Recent(accepted)[i] == accepted[skipped + i] && Recent(accepted)[j] == accepted[skipped + j];
    }
  }

  // Accepting an id that is not remembered keeps accepted ids far apart.
  lemma {:induction false} AcceptKeepsFarApart(accepted: seq<string>, id: string)
    requires FarApart(accepted) && id !in Recent(accepted)
    ensures FarApart(accepted + [id])
  {
    var skipped := |accepted| - |Recent(accepted)|;
    assert forall k :: skipped <= k < |accepted| ==> accepted[k] == Recent(accepted)[k - skipped];
  }

  lemma RecentAfter(accepted: seq<string>, id: string)
    ensures var order := Recent(accepted) + [id];
            Recent(accepted + [id]) == if |order| > MAXIMUM_REMEMBERED_EVENTS then order[1..] else order
  {
  }

  lemma DropOldest(order: seq<string>, seen: set<string>)
    requires order != [] && (forall id :: id in seen <==> id in order)
    requires forall i, j :: 0 <= i < j < |order| ==> order[i] != order[j]
    ensures forall id :: id in seen - {order[0]} <==> id in order[1..]
  {
    assert order == [order[0]] + order[1..];
    assert forall j :: 0 <= j < |order[1..]| ==> order[1..][j] == order[j + 1];
  }

  lemma KeptIsOk(s: Settings, history: seq<ChatMessage>, dropped: nat)
    requires |history| % 2 == 0 && Alternates(history) && dropped <= |history| && dropped % 2 == 0
    requires s.historyMessages >= 0 && s.historyBytes >= 0
             && !Over(history[dropped..], s.historyMessages, s.historyBytes)
    ensures SessionOk(s, history[dropped..])
  {
    hide Alternates, HistoryBytes;
    DropKeepsAlternation(history, dropped);
  }

  lemma PromptAlternates(h: seq<ChatMessage>, prompt: ChatMessage)
    requires Alternates(h) && |h| % 2 == 0 && prompt.role == "user" && !Blank(prompt.content)
    ensures Alternates(h + [prompt])
  {
  }

  lemma AcceptableFits(h: seq<ChatMessage>)
    ensures Acceptable(h) ==> HistoryBytes(h) <= MAXIMUM_BYTES
  {
  }

  lemma OddRest(n: nat, dropped: nat)
    requires n % 2 == 1 && dropped % 2 == 0 && dropped <= n
    ensures (n - dropped) % 2 == 1
  {
  }

  // The trimmed request still ends with the prompt and is acceptable iff the prompt
  // alone would be.
  lemma {:induction false} TrimmedKeepsPrompt(history: seq<ChatMessage>, dropped: nat, prompt: ChatMessage)
    requires dropped <= |history| && dropped % 2 == 0 && |history| % 2 == 1 && Alternates(history[dropped..])
    requires history[|history| - 1] == prompt && prompt.role == "user"
    requires var h := history[dropped..]; !Over(h, MAXIMUM_MESSAGES, MAXIMUM_BYTES) || |h| <= 2
    ensures var h := history[dropped..];
            && |h| % 2 == 1 && h[|h| - 1] == prompt && StartOf(h) == 0
            && (Acceptable(h) <==> Text.StringBytes(prompt.content) <= MAXIMUM_BYTES)
  {
    hide Blank, Text.StringBytes, Acceptable;
    var h := history[dropped..];
    OddRest(|history|, dropped);
    assert h[0].role == ExpectedRole(0);
    if |h| <= 2 {
      assert h == [prompt];
      BytesOfOne(prompt);
    }
    BytesAt(h, |h| - 1);
    assert h[..|h|] == h;
    if !Over(h, MAXIMUM_MESSAGES, MAXIMUM_BYTES) { PromptIsAcceptable(h); }
    AcceptableFits(h);
  }

  // The kept history and the prompt, trimmed to what the server accepts.
  method NextRequest(history: seq<ChatMessage>, prompt: ChatMessage)
    returns (request: seq<ChatMessage>, ghost dropped: nat)
    requires Alternates(history) && |history| % 2 == 0 && prompt.role == "user" && !Blank(prompt.content)
    ensures Alternates(request) && |request| % 2 == 1 && request[|request| - 1] == prompt && StartOf(request) == 0
    ensures Acceptable(request) <==> Text.StringBytes(prompt.content) <= MAXIMUM_BYTES
    ensures dropped <= |history| && request == (history + [prompt])[dropped..]
    ensures dropped > 0 ==> dropped >= 2 && Over((history + [prompt])[dropped - 2..], MAXIMUM_MESSAGES, MAXIMUM_BYTES)
  {
    hide Blank, Text.StringBytes, Acceptable, Alternates, Over;
    PromptAlternates(history, prompt);
    request, dropped := TrimRequestHistory(history + [prompt]);
    DropKeepsAlternation(history + [prompt], dropped);
    TrimmedKeepsPrompt(history + [prompt], dropped, prompt);
  }

  lemma ReplyAlternates(request: seq<ChatMessage>, reply: ChatMessage)
    requires Alternates(request) && |request| % 2 == 1 && reply.role == "assistant" && !Blank(reply.content)
    ensures Alternates(request + [reply]) && |request + [reply]| % 2 == 0
  {
    hide Blank;
  }

  lemma DropTwice(h: seq<ChatMessage>, reply: ChatMessage, given: nat, dropped: nat)
    requires given <= |h| && dropped <= |h| - given + 1
    ensures (h[given..] + [reply])[dropped..] == (h + [reply])[given + dropped..]
  {
  }

  lemma NothingAlternates()
    ensures Alternates([]) && HistoryBytes([]) == 0
  {
  }

  lemma SessionAlternates(s: Settings, h: seq<ChatMessage>)
    requires SessionOk(s, h)
    ensures |h| % 2 == 0 && Alternates(h)
  {
  }

  lemma FewerKeys<K, V>(a: map<K, V>, b: map<K, V>)
    requires a.Keys <= b.Keys
    ensures |a| <= |b|
  {
    Order.SubsetIsSmaller(a.Keys, b.Keys);
    assert |a.Keys| == |a| && |b.Keys| == |b|;
  }

  lemma OneMoreKey<K, V>(m: map<K, V>, key: K, value: V)
    ensures |m[key := value]| == |m| + if key in m then 0 else 1
  {
    assert m[key := value].Keys == m.Keys + {key};
    assert |m[key := value].Keys| == |m[key := value]| && |m.Keys| == |m|;
  }

  class Gateway {
    const settings: Settings
    var sessions: map<SessionKey, Session>
    var seen: set<string>
    var seenOrder: seq<string>
    var queue: seq<BotMessage>
    // Every id ever accepted.
    ghost var accepted: seq<string>

    ghost predicate DedupOk()
      reads this`accepted, this`seen, this`seenOrder
    {
      && FarApart(accepted) && seenOrder == Recent(accepted)
      && forall id :: id in seen <==> id in seenOrder
    }

    ghost predicate Valid()
      reads this
    {
      && SettingsOk(settings)
      && (forall key :: key in sessions ==> SessionOk(settings, sessions[key].messages))
      && |sessions| <= settings.maxSessions
      && |queue| <= settings.queueSize
      && DedupOk()
    }

    constructor (settings: Settings)
      requires SettingsOk(settings)
      ensures Valid() && this.settings == settings && sessions == map[] && queue == [] && accepted == []
    {
      this.settings := settings;
      sessions, seen, seenOrder, queue, accepted := map[], {}, [], [], [];
    }

    // Refuses an id among the last 4096 accepted, and a full queue; otherwise appends.
    method Enqueue(message: BotMessage) returns (v: Verdict)
      requires Valid()
      modifies this
      ensures v == (if message.eventId in Recent(old(accepted)) then Duplicate
                    else if |old(queue)| == settings.queueSize then QueueFull else Queued)
      ensures queue == old(queue) + if v.Queued? then [message] else []
      ensures accepted == old(accepted) + if v.Queued? then [message.eventId] else []
      ensures sessions == old(sessions) && Valid()
    {
      hide SessionOk, FarApart, Recent;
      if message.eventId in seen { return Duplicate; }
      if |queue| >= settings.queueSize { return QueueFull; }
      RecentAreDistinct(accepted);
      AcceptKeepsFarApart(accepted, message.eventId);
      RecentAfter(accepted, message.eventId);
      queue := queue + [message];
      seen := seen + {message.eventId};
      seenOrder := seenOrder + [message.eventId];
      accepted := accepted + [message.eventId];
      if |seenOrder| > MAXIMUM_REMEMBERED_EVENTS {
        DropOldest(seenOrder, seen);
        var oldest := seenOrder[0];
        seenOrder := seenOrder[1..];
        seen := seen - {oldest};
      }
      v := Queued;
    }

    // The worker takes messages in the order they were accepted.
    method Dequeue() returns (message: Option<BotMessage>)
      requires Valid()
      modifies this`queue
      ensures message == (if old(queue) == [] then None else Some(old(queue)[0]))
      ensures queue == (if old(queue) == [] then [] else old(queue)[1..])
      ensures Valid()
    {
      hide SessionOk;
      if |queue| == 0 { return None; }
      message := Some(queue[0]);
      queue := queue[1..];
    }

    predicate Expired(session: Session, now: int) {
      now - session.updatedAt > settings.sessionTtl
    }

    ghost function Unexpired(now: int): map<SessionKey, Session>
      reads this`sessions
    {
      map key | key in sessions && !Expired(sessions[key], now) :: sessions[key]
    }

    method PruneSessions(now: int)
      requires Valid()
      modifies this`sessions
      ensures sessions == old(Unexpired(now))
      ensures Valid()
    {
      hide SessionOk, Expired;
      var todo := sessions.Keys;
      while todo != {}
        invariant todo <= old(sessions).Keys
        invariant forall key :: key in sessions <==>
                    key in old(sessions) && (key in todo || !Expired(old(sessions)[key], now))
        invariant forall key :: key in sessions ==> sessions[key] == old(sessions)[key]
        decreases todo
      {
        var key :| key in todo;
        todo := todo - {key};
        if Expired(sessions[key], now) { sessions := sessions - {key}; }
      }
      FewerKeys(sessions, old(sessions));
    }

    method SessionHistory(key: SessionKey, now: int) returns (h: seq<ChatMessage>)
      requires Valid()
      modifies this`sessions
      ensures h == if key in old(sessions) && !Expired(old(sessions)[key], now) then old(sessions)[key].messages else []
      ensures SessionOk(settings, h) && Valid()
      ensures sessions == old(Unexpired(now))
    {
      hide Alternates, Expired;
      NothingAlternates();
      PruneSessions(now);
      h := if key in sessions then sessions[key].messages else [];
    }

    method ResetSession(key: SessionKey)
      requires Valid()
      modifies this`sessions
      ensures sessions == old(sessions) - {key} && Valid()
    {
      hide SessionOk;
      sessions := sessions - {key};
      FewerKeys(sessions, old(sessions));
    }

    // Removes the least recently updated session.
    method EvictOldest() returns (oldestKey: SessionKey)
      requires Valid() && sessions != map[]
      modifies this`sessions
      ensures oldestKey in old(sessions) && sessions == old(sessions) - {oldestKey}
      ensures forall key :: key in old(sessions) ==> old(sessions)[oldestKey].updatedAt <= old(sessions)[key].updatedAt
      ensures |sessions| == |old(sessions)| - 1 && Valid()
    {
      hide SessionOk;
      oldestKey :| oldestKey in sessions;
      var todo := sessions.Keys - {oldestKey};
      while todo != {}
        invariant todo <= sessions.Keys && oldestKey in sessions
        invariant forall key :: key in sessions && key !in todo ==>
                    sessions[oldestKey].updatedAt <= sessions[key].updatedAt
        decreases todo
      {
        var key :| key in todo;
        todo := todo - {key};
        if sessions[key].updatedAt < sessions[oldestKey].updatedAt { oldestKey := key; }
      }
      assert (sessions - {oldestKey}).Keys == sessions.Keys - {oldestKey};
      sessions := sessions - {oldestKey};
      assert |sessions.Keys| == |old(sessions).Keys| - 1;
    }

    // Keeps the newest exchanges that fit. Besides expired sessions at most one other is
    // dropped: the least recently updated one, when a new conversation finds no place.
    method StoreSession(key: SessionKey, history: seq<ChatMessage>, now: int)
      returns (ghost dropped: nat, ghost evicted: set<SessionKey>)
      requires Valid() && |history| % 2 == 0 && Alternates(history)
      modifies this`sessions
      ensures dropped <= |history|
      ensures dropped > 0 ==>
                dropped >= 2 && Over(history[dropped - 2..], settings.historyMessages, settings.historyBytes)
      ensures sessions == (old(Unexpired(now)) - evicted)[key := Session(history[dropped..], now)]
      ensures var rest := old(Unexpired(now));
              if key in rest || |rest| < settings.maxSessions then evicted == {}
              else exists oldest :: evicted == {oldest} && oldest in rest &&
                                    forall k :: k in rest ==> rest[oldest].updatedAt <= rest[k].updatedAt
      ensures Valid()
    {
      hide Alternates, HistoryBytes, Expired, SessionOk, Over, DedupOk;
      var kept;
      kept, dropped := TrimStoredHistory(history, settings.historyMessages, settings.historyBytes);
      KeptIsOk(settings, history, dropped);
      PruneSessions(now);
      evicted := {};
      if key !in sessions && |sessions| >= settings.maxSessions {
        var oldest := EvictOldest();
        evicted := {oldest};
      }
      OneMoreKey(sessions, key, Session(kept, now));
      sessions := sessions[key := Session(kept, now)];
    }

    // What the conversation is taken to be: its history unless expired, and the prompt.
    ghost function Conversation(before: map<SessionKey, Session>, key: SessionKey, prompt: string,
                                now: int): seq<ChatMessage>
    {
      (if key in before && !Expired(before[key], now) then before[key].messages else []) + [ChatMessage("user", prompt)]
    }

    // The newest part of the conversation that fits, as the server takes it.
    method PrepareTurn(key: SessionKey, prompt: string, instruction: string, now: int)
      returns (r: Result<seq<ChatMessage>, ChatError>, request: seq<ChatMessage>, ghost given: nat)
      requires Valid() && !Blank(prompt)
      modifies this`sessions
      ensures Valid() && sessions == old(Unexpired(now))
      ensures r.Ok? <==> Text.StringBytes(prompt) <= MAXIMUM_BYTES
      ensures var h := Conversation(old(sessions), key, prompt, now);
              && given < |h| && (given > 0 ==> given >= 2 && Over(h[given - 2..], MAXIMUM_MESSAGES, MAXIMUM_BYTES))
              && request == h[given..] && (r.Ok? ==> r.value == [ChatMessage("system", instruction)] + request)
      ensures Alternates(request) && |request| % 2 == 1
    {
      hide SessionOk, SettingsOk, Blank, HistoryBytes, Text.StringBytes, Acceptable, Expired, Over, Alternates, DedupOk;
      var history := SessionHistory(key, now);
      SessionAlternates(settings, history);
      request, given := NextRequest(history, ChatMessage("user", prompt));
      r := BuildOpsChatHistory(request, instruction);
      if r.Ok? { assert "" + instruction == instruction && request[0..] == request; }
    }

    // The sessions that have expired neither when a turn begins nor when it is kept.
    ghost function Living(before: map<SessionKey, Session>, now: int, later: int): map<SessionKey, Session> {
      map key | key in before && !Expired(before[key], now) && !Expired(before[key], later) :: before[key]
    }

    // The conversation with the answer is kept less the fewest oldest exchanges; a new one
    // that finds no place takes that of the least recently updated.
    ghost predicate KeptTurn(before: map<SessionKey, Session>, after: map<SessionKey, Session>, key: SessionKey,
                             full: seq<ChatMessage>, now: int, later: int, given: nat, kept: nat,
                             evicted: set<SessionKey>)
      requires SettingsOk(settings)
    {
      var rest := Living(before, now, later);
      && given <= kept <= |full|
      && (kept > given ==>
            kept >= given + 2 && Over(full[kept - 2..], settings.historyMessages, settings.historyBytes))
      && after == (rest - evicted)[key := Session(full[kept..], later)]
      && if key in rest || |rest| < settings.maxSessions then evicted == {}
         else exists oldest :: evicted == {oldest} && oldest in rest &&
                               forall k :: k in rest ==> rest[oldest].updatedAt <= rest[k].updatedAt
    }

    // What a chat turn gives the server and does to the sessions.
    ghost predicate Turned(before: map<SessionKey, Session>, after: map<SessionKey, Session>, key: SessionKey,
                           prompt: string, instruction: string, answer: Option<string>, delivered: bool, now: int,
                           later: int, r: Result<seq<ChatMessage>, ChatError>, given: nat, kept: nat,
                           evicted: set<SessionKey>)
      requires SettingsOk(settings)
    {
      var h := Conversation(before, key, prompt, now);
      && (r.Ok? <==> Text.StringBytes(prompt) <= MAXIMUM_BYTES)
      && given < |h| && (given > 0 ==> given >= 2 && Over(h[given - 2..], MAXIMUM_MESSAGES, MAXIMUM_BYTES))
      && (r.Ok? ==> r.value == [ChatMessage("system", instruction)] + h[given..])
      && if r.Ok? && answer.Some? && delivered
         then KeptTurn(before, after, key, h + [ChatMessage("assistant", answer.value)], now, later, given, kept,
                       evicted)
         else after == map k | k in before && !Expired(before[k], now) :: before[k]
    }

    // A chat turn: the newest part of the conversation that fits goes to the server; with
    // the answer it is kept when that reached the conversation, again as far as it fits.
    method ChatTurn(key: SessionKey, prompt: string, instruction: string, answer: Option<string>, delivered: bool,
                    now: int, later: int)
      returns (r: Result<seq<ChatMessage>, ChatError>, ghost given: nat, ghost kept: nat,
               ghost evicted: set<SessionKey>)
      requires Valid() && !Blank(prompt) && (answer.Some? ==> !Blank(answer.value))
      modifies this`sessions
      ensures Valid()
      ensures Turned(old(sessions), sessions, key, prompt, instruction, answer, delivered, now, later, r, given, kept,
                     evicted)
    {
      hide SessionOk, SettingsOk, Blank, HistoryBytes, Text.StringBytes, Acceptable, Expired, Over, Alternates, DedupOk;
      kept, evicted := 0, {};
      ghost var before, h := sessions, Conversation(sessions, key, prompt, now);
      var request;
      r, request, given := PrepareTurn(key, prompt, instruction, now);
      if r.Err? || answer.None? || !delivered { return; }
      var reply := ChatMessage("assistant", answer.value);
      ReplyAlternates(request, reply);
      ghost var dropped;
      assert Unexpired(later) == Living(before, now, later);
      dropped, evicted := StoreSession(key, request + [reply], later);
      kept := given + dropped;
      DropTwice(h, reply, given, dropped);
      if dropped > 0 { DropTwice(h, reply, given, dropped - 2); }
    }

    // A command's effect on the sessions: a new conversation removes its own, a status
    // query the expired ones, and only a chat turn keeps anything.
    method Process(message: BotMessage, instruction: string, answer: Option<string>, delivered: bool, now: int,
                   later: int)
      returns (built: Option<Result<seq<ChatMessage>, ChatError>>, ghost given: nat, ghost kept: nat,
               ghost evicted: set<SessionKey>)
      requires Valid() && (answer.Some? ==> !Blank(answer.value))
      modifies this`sessions
      ensures Valid()
      ensures built.Some? <==> message.command.Chat? && !Blank(message.prompt)
      ensures built.Some? ==>
                Turned(old(sessions), sessions, message.key, message.prompt, instruction, answer, delivered, now, later,
                       built.value, given, kept, evicted)
      ensures built.None? ==>
                sessions == match message.command
                            case New => old(sessions) - {message.key}
                            case Status => old(Unexpired(now))
                            case _ => old(sessions)
    {
      hide SessionOk, Blank, HistoryBytes, Text.StringBytes, Expired, DedupOk, Turned;
      built, given, kept, evicted := None, 0, 0, {};
      match message.command {
        case New => ResetSession(message.key);
        case Status => var shown := SessionHistory(message.key, now);
        case Help =>
        case Unsupported =>
        case Chat =>
          if Blank(message.prompt) { return; }
          var r;
          r, given, kept, evicted := ChatTurn(message.key, message.prompt, instruction, answer, delivered, now, later);
          built := Some(r);
      }
    }
  }
}
