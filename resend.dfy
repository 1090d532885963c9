/**
 * The batch utility `resend_media.py`: for every allow-listed VK chat, walk
 * its recent history from the newest item to the oldest, skip the items
 * older than a threshold, and send to Telegram the messages that carry a
 * photo, counting the sends.
 */
module Resend {
  import opened Vk
  import opened PyText

  // ---------------------------------------------------------------------------
  // Data
  // ---------------------------------------------------------------------------

  datatype ChatSettings = ChatSettings(title: Option<Title>)
  datatype Conversation = Conversation(chatSettings: Option<ChatSettings>)

  /** The `response` of `messages.getHistory`; `None` for an absent key. */
  datatype History = History(
    profiles: Option<seq<Profile>>,
    conversations: Option<seq<Conversation>>,
    items: Option<seq<Item>>)

  /** The Telegram destination. */
  datatype Target = Target(chatId: int, topicId: Option<int>)

  /**
   * The code the utility calls but that is not modelled: the credential
   * exchange, `get_history` (which raises on an error payload), the message
   * transform and `send_message`.
   */
  datatype Services = Services(
    login: string -> Answer<string>,
    history: (string, int, int) -> Answer<History>,
    build: Build,
    send: (Message, Target) -> Answer<()>)

  /** A call into code outside the model, with its arguments. */
  datatype Effect =
    | GetUserCredentials(cookie: string)
    | GetHistory(accessToken: string, peerId: int, count: int)
    | BuildMessage(item: Item, profiles: seq<Profile>, title: Title)
    | SendMessage(message: Message, target: Target)
    | CloseBot

  /**
   * What a walk through one chat, or a run over several peers, has done so
   * far: messages sent (`delivered`, or `total_sent` across peers), calls
   * made, and `false` once something raised.
   */
  datatype Tally = Tally(delivered: nat, calls: seq<Effect>, ok: bool)

  /** The environment variables `main` reads. */
  datatype Env = Env(
    authCookie: Option<string>,
    botToken: Option<string>,
    tgChatId: Option<string>,
    tgUserId: Option<string>,
    tgTopicId: Option<string>,
    vkChatId: Option<string>,
    historyDepth: Option<string>)

  /** Why `main` raised: `int()` failed, a variable is missing, no peers, or a call raised. */
  datatype Abort = NotAnInteger | MissingConfig | NoPeers | Crashed

  /** The validated configuration of lines 72-87. */
  datatype Setup = Setup(cookie: string, depth: int, target: Target, peers: seq<int>)

  datatype Checked = Ready(setup: Setup) | Refused(reason: Abort)

  datatype Outcome = Finished(total: nat) | Aborted(reason: Abort)

  datatype Run = Run(outcome: Outcome, calls: seq<Effect>)

  // ---------------------------------------------------------------------------
  // _parse_allowed_chats (lines 20-24)
  // ---------------------------------------------------------------------------

  /** `[chunk.strip() for chunk in chunks if chunk.strip()]`. */
  function NonBlank(chunks: seq<string>): (r: seq<string>)
    ensures |r| <= |chunks|
    ensures forall k :: 0 <= k < |r| ==> r[k] != ""
    decreases |chunks|
  {
    if chunks == [] then []
    else
      var rest := NonBlank(chunks[1..]);
      var chunk := Strip(chunks[0], IsSpace);
      if chunk == "" then rest else [chunk] + rest
  }

  /**
   * A comprehension whose element expression may raise: `f` on every entry,
   * in order, `None` as soon as one application fails.
   */
  function TryMap<A, B>(xs: seq<A>, f: A -> Option<B>): Option<seq<B>>
    decreases |xs|
  {
    if xs == [] then Some([])
    else
      match f(xs[0])
      case None => None
      case Some(v) =>
        var rest := TryMap(xs[1..], f);
        if rest.None? then None else Some([v] + rest.value)
  }

  /**
   * `TryMap` fails exactly when some entry fails; otherwise it gives one
   * result per entry, in order.
   */
  lemma {:induction false} TryMapSpec<A, B>(xs: seq<A>, f: A -> Option<B>)
    ensures TryMap(xs, f).Some? <==> forall k :: 0 <= k < |xs| ==> f(xs[k]).Some?
    ensures TryMap(xs, f).Some? ==>
              |TryMap(xs, f).value| == |xs| &&
              forall k :: 0 <= k < |xs| ==> f(xs[k]) == Some(TryMap(xs, f).value[k])
    decreases |xs|
  {
    if xs != [] {
      var tail := xs[1..];
      TryMapSpec(tail, f);
      if f(xs[0]).Some? && TryMap(tail, f).None? {
        var j :| 0 <= j < |tail| && f(tail[j]).None?;
        assert xs[j + 1] == tail[j];
      }
      assert forall k :: 0 < k < |xs| ==> xs[k] == tail[k - 1];
    }
  }

  /** The results `TryMap` gives when every entry is known to succeed. */
  lemma {:induction false} TryMapAll<A, B>(xs: seq<A>, ys: seq<B>, f: A -> Option<B>)
    requires |xs| == |ys|
    requires forall k :: 0 <= k < |xs| ==> f(xs[k]) == Some(ys[k])
    ensures TryMap(xs, f) == Some(ys)
    decreases |xs|
  {
    if xs != [] {
      assert forall k :: 0 <= k < |xs| - 1 ==> xs[1..][k] == xs[k + 1] && ys[1..][k] == ys[k + 1];
      TryMapAll(xs[1..], ys[1..], f);
      assert ys == [ys[0]] + ys[1..];
    }
  }

  /**
   * `_parse_allowed_chats`: `None` stands for the `ValueError` of a chunk
   * that is not an integer. The comprehension evaluates `int` on the
   * non-blank chunks in order and has no other effect, so it is `PyInt`
   * mapped over `NonBlank`.
   */
  function ParseAllowedChats(raw: Option<string>): (r: Option<seq<int>>)
    ensures raw == None || raw == Some("") ==> r == Some([])
  {
    if raw.None? || raw.value == "" then Some([]) else TryMap(NonBlank(Split(raw.value, ',')), PyInt)
  }

  // ---------------------------------------------------------------------------
  // _resend_for_chat (lines 27-66)
  // ---------------------------------------------------------------------------

  /** Lines 40-44: the title of the first conversation, `""` when any part of the path is missing. */
  function ChatTitle(conversations: Option<seq<Conversation>>): Title {
    var convs := conversations.GetOr([]);
    if convs == [] then Text("")
    else
      match convs[0].chatSettings
      case None => Text("")
      case Some(settings) => settings.title.GetOr(Text(""))
  }

  /** Lines 49-64: one history item. */
  function Process(w: Tally, item: Item, profiles: seq<Profile>, title: Title, threshold: int,
                   svc: Services, target: Target): Tally
  {
    if !w.ok || item.date.GetOr(0) < threshold then w
    else
      var built := w.calls + [BuildMessage(item, profiles, title)];
      match svc.build(item, profiles, title)
      case Raised => Tally(w.delivered, built, false)
      case Returned(m) =>
        if !HasPhoto(m) then Tally(w.delivered, built, true)
        else
          var sent := built + [SendMessage(m, target)];
          match svc.send(m, target)
          case Raised => Tally(w.delivered, sent, false)
          case Returned(_) => Tally(w.delivered + 1, sent, true)
  }

  /** Lines 46-64: `items` walked with `reversed`, so `items[0]` comes last. */
  function WalkItems(items: seq<Item>, profiles: seq<Profile>, title: Title, threshold: int,
                     svc: Services, target: Target): Tally
    decreases |items|
  {
    if items == [] then Tally(0, [], true)
    else Process(WalkItems(items[1..], profiles, title, threshold, svc, target), items[0], profiles, title, threshold, svc, target)
  }

  /** Lines 37-66: one peer. */
  function ChatRun(token: string, peer: int, target: Target, threshold: int, count: int, svc: Services): Tally {
    var fetch := [GetHistory(token, peer, count)];
    match svc.history(token, peer, count)
    case Raised => Tally(0, fetch, false)
    case Returned(h) =>
      var w := WalkItems(h.items.GetOr([]), h.profiles.GetOr([]), ChatTitle(h.conversations), threshold, svc, target);
      Tally(w.delivered, fetch + w.calls, w.ok)
  }

  // ---------------------------------------------------------------------------
  // main (lines 69-118)
  // ---------------------------------------------------------------------------

  /** Python truthiness of an environment variable. */
  predicate Truthy(v: Option<string>) {
    v.Some? && v.value != ""
  }

  /** Lines 72-87: reading and checking the configuration, before any network use. */
  function Configure(env: Env): Checked {
    match PyInt(env.historyDepth.GetOr("50"))
    case None => Refused(NotAnInteger)
    case Some(depth) =>
      var chat := if Truthy(env.tgChatId) then env.tgChatId else env.tgUserId;
      if !(Truthy(env.authCookie) && Truthy(env.botToken) && Truthy(chat) && Truthy(env.vkChatId)) then
        Refused(MissingConfig)
      else
        var topic := if Truthy(env.tgTopicId) then PyInt(env.tgTopicId.value) else None;
        if Truthy(env.tgTopicId) && topic.None? then Refused(NotAnInteger)
        else
          match PyInt(chat.value)
          case None => Refused(NotAnInteger)
          case Some(chatId) =>
            match ParseAllowedChats(env.vkChatId)
            case None => Refused(NotAnInteger)
            case Some(peers) =>
              if peers == [] then Refused(NoPeers)
              else Ready(Setup(env.authCookie.value, depth, Target(chatId, topic), peers))
  }

  /** Lines 103-114: the peers one after the other, stopping at the first exception. */
  function PeersRun(peers: seq<int>, token: string, target: Target, threshold: int, count: int, svc: Services): Tally
    decreases |peers|
  {
    if peers == [] then Tally(0, [], true)
    else
      var w := PeersRun(peers[..|peers| - 1], token, target, threshold, count, svc);
      if !w.ok then w
      else
        var c := ChatRun(token, peers[|peers| - 1], target, threshold, count, svc);
        Tally(w.delivered + c.delivered, w.calls + c.calls, c.ok)
  }

  /** Lines 95-116: everything after the configuration check. */
  function Launch(s: Setup, threshold: int, svc: Services): Run {
    var login := [GetUserCredentials(s.cookie)];
    match svc.login(s.cookie)
    case Raised => Run(Aborted(Crashed), login)
    case Returned(token) =>
      var p := PeersRun(s.peers, token, s.target, threshold, s.depth, svc);
      if !p.ok then Run(Aborted(Crashed), login + p.calls)
      else Run(Finished(p.delivered), login + p.calls + [CloseBot])
  }

  /** Lines 69-118. */
  function MainRun(env: Env, threshold: int, svc: Services): Run {
    match Configure(env)
    case Refused(why) => Run(Aborted(why), [])
    case Ready(s) => Launch(s, threshold, svc)
  }

  // ---------------------------------------------------------------------------
  // The two loops
  // ---------------------------------------------------------------------------

  /** A walk that has raised stays as it is for the older items. */
  lemma {:induction false} WalkStuck(items: seq<Item>, i: nat, profiles: seq<Profile>, title: Title, threshold: int,
                                     svc: Services, target: Target)
    requires i <= |items|
    requires !WalkItems(items[i..], profiles, title, threshold, svc, target).ok
    ensures WalkItems(items, profiles, title, threshold, svc, target) == WalkItems(items[i..], profiles, title, threshold, svc, target)
    decreases i
  {
    if i > 0 {
      assert items[i - 1..][1..] == items[i..];
      WalkStuck(items, i - 1, profiles, title, threshold, svc, target);
    } else {
      assert items[0..] == items;
    }
  }

  /** `_resend_for_chat`. */
  method ResendForChat(token: string, peer: int, target: Target, threshold: int, count: int, svc: Services)
    returns (delivered: nat, ok: bool, calls: seq<Effect>)
    ensures ChatRun(token, peer, target, threshold, count, svc) == Tally(delivered, calls, ok)
  {
    calls := [GetHistory(token, peer, count)];
    var answer := svc.history(token, peer, count);
    if answer.Raised? {
      return 0, false, calls;
    }
    var history := answer.value;
    var profiles := history.profiles.GetOr([]);
    var title := ChatTitle(history.conversations);
    var items := history.items.GetOr([]);
    var walked: seq<Effect> := [];
    delivered, ok := 0, true;
    var i := |items|;
    while i > 0 && ok
      invariant 0 <= i <= |items|
      invariant WalkItems(items[i..], profiles, title, threshold, svc, target) == Tally(delivered, walked, ok)
    {
      i := i - 1;
      assert items[i..][1..] == items[i + 1..];
      var item := items[i];
      if item.date.GetOr(0) < threshold {
        continue;
      }
      walked := walked + [BuildMessage(item, profiles, title)];
      var msg := svc.build(item, profiles, title);
      if msg.Raised? {
        ok := false;
        continue;
      }
      if !HasPhoto(msg.value) {
        continue;
      }
      walked := walked + [SendMessage(msg.value, target)];
      var sent := svc.send(msg.value, target);
      if sent.Raised? {
        ok := false;
      } else {
        delivered := delivered + 1;
      }
    }
    if ok {
      assert items[i..] == items;
    } else {
      WalkStuck(items, i, profiles, title, threshold, svc, target);
    }
    calls := calls + walked;
  }

  /** Once a peer has raised, the later peers are not visited. */
  lemma {:induction false} PeersStuck(peers: seq<int>, i: nat, token: string, target: Target, threshold: int,
                                      count: int, svc: Services)
    requires i <= |peers|
    requires !PeersRun(peers[..i], token, target, threshold, count, svc).ok
    ensures PeersRun(peers, token, target, threshold, count, svc) == PeersRun(peers[..i], token, target, threshold, count, svc)
    decreases |peers| - i
  {
    if i < |peers| {
      assert peers[..|peers| - 1][..i] == peers[..i];
      PeersStuck(peers[..|peers| - 1], i, token, target, threshold, count, svc);
    } else {
      assert peers[..i] == peers;
    }
  }

  /** Lines 103-114: the `for peer_id in peer_ids` loop with its running total. */
  method ResendPeers(peers: seq<int>, token: string, target: Target, threshold: int, count: int, svc: Services)
    returns (delivered: nat, ok: bool, calls: seq<Effect>)
    ensures PeersRun(peers, token, target, threshold, count, svc) == Tally(delivered, calls, ok)
  {
    delivered, ok, calls := 0, true, [];
    var i := 0;
    while i < |peers|
      invariant 0 <= i <= |peers|
      invariant PeersRun(peers[..i], token, target, threshold, count, svc) == Tally(delivered, calls, true)
    {
      assert peers[..i + 1][..i] == peers[..i];
      var sent, chatOk, chatCalls := ResendForChat(token, peers[i], target, threshold, count, svc);
      calls := calls + chatCalls;
      if !chatOk {
        PeersStuck(peers, i + 1, token, target, threshold, count, svc);
        return delivered + sent, false, calls;
      }
      delivered := delivered + sent;
      i := i + 1;
    }
    assert peers[..i] == peers;
  }

  /** `main`, with the start-of-day threshold given. */
  method ResendMain(env: Env, threshold: int, svc: Services) returns (outcome: Outcome, calls: seq<Effect>)
    ensures MainRun(env, threshold, svc) == Run(outcome, calls)
  {
    var checked := Configure(env);
    if checked.Refused? {
      return Aborted(checked.reason), [];
    }
    var setup := checked.setup;
    calls := [GetUserCredentials(setup.cookie)];
    var user := svc.login(setup.cookie);
    if user.Raised? {
      return Aborted(Crashed), calls;
    }
    var total, ok, peerCalls := ResendPeers(setup.peers, user.value, setup.target, threshold, setup.depth, svc);
    calls := calls + peerCalls;
    if !ok {
      return Aborted(Crashed), calls;
    }
    calls := calls + [CloseBot];
    outcome := Finished(total);
  }
}

/** What `resend_media.py` promises about the runs modelled in `Resend`. */
module ResendProperties {
  import opened Vk
  import opened PyText
  import opened Resend

  // ---------------------------------------------------------------------------
  // Reading a call trace
  // ---------------------------------------------------------------------------

  /** The items handed to the message transform, in call order. */
  function Builds(calls: seq<Effect>): seq<Item> {
    if calls == [] then []
    else (if calls[0].BuildMessage? then [calls[0].item] else []) + Builds(calls[1..])
  }

  /** The messages handed to `send_message`, in call order. */
  function Sends(calls: seq<Effect>): seq<Message> {
    if calls == [] then []
    else (if calls[0].SendMessage? then [calls[0].message] else []) + Sends(calls[1..])
  }

  /** The peers whose history was requested, in call order. */
  function HistoryPeers(calls: seq<Effect>): seq<int> {
    if calls == [] then []
    else (if calls[0].GetHistory? then [calls[0].peerId] else []) + HistoryPeers(calls[1..])
  }

  /** Calls made while walking chats: history, transform, and sends to `target` only. */
  predicate ChatCalls(calls: seq<Effect>, target: Target) {
    forall k :: 0 <= k < |calls| ==>
      calls[k].GetHistory? || calls[k].BuildMessage? || (calls[k].SendMessage? && calls[k].target == target)
  }

  predicate AllPhotos(messages: seq<Message>) {
    forall k :: 0 <= k < |messages| ==> HasPhoto(messages[k])
  }

  /** No item is dated before the threshold (line 50; a missing date counts as 0). */
  predicate AtOrAfter(items: seq<Item>, threshold: int) {
    forall k :: 0 <= k < |items| ==> items[k].date.GetOr(0) >= threshold
  }

  lemma {:induction false} BuildsAppend(a: seq<Effect>, b: seq<Effect>)
    ensures Builds(a + b) == Builds(a) + Builds(b)
    decreases |a|
  {
    if a == [] {
      assert a + b == b;
    } else {
      BuildsAppend(a[1..], b);
      assert (a + b)[1..] == a[1..] + b;
      var head := if a[0].BuildMessage? then [a[0].item] else [];
      assert Builds(a + b) == head + Builds(a[1..] + b);
      assert head + (Builds(a[1..]) + Builds(b)) == (head + Builds(a[1..])) + Builds(b);
    }
  }

  lemma {:induction false} SendsAppend(a: seq<Effect>, b: seq<Effect>)
    ensures Sends(a + b) == Sends(a) + Sends(b)
    decreases |a|
  {
    if a == [] {
      assert a + b == b;
    } else {
      SendsAppend(a[1..], b);
      assert (a + b)[1..] == a[1..] + b;
      var head := if a[0].SendMessage? then [a[0].message] else [];
      assert Sends(a + b) == head + Sends(a[1..] + b);
      assert head + (Sends(a[1..]) + Sends(b)) == (head + Sends(a[1..])) + Sends(b);
    }
  }

  lemma {:induction false} HistoryPeersAppend(a: seq<Effect>, b: seq<Effect>)
    ensures HistoryPeers(a + b) == HistoryPeers(a) + HistoryPeers(b)
    decreases |a|
  {
    if a == [] {
      assert a + b == b;
    } else {
      HistoryPeersAppend(a[1..], b);
      assert (a + b)[1..] == a[1..] + b;
      var head := if a[0].GetHistory? then [a[0].peerId] else [];
      assert HistoryPeers(a + b) == head + HistoryPeers(a[1..] + b);
      assert head + (HistoryPeers(a[1..]) + HistoryPeers(b)) == (head + HistoryPeers(a[1..])) + HistoryPeers(b);
    }
  }

  /** Reading a trace commutes with appending traces. */
  lemma TraceAppend(a: seq<Effect>, b: seq<Effect>)
    ensures Builds(a + b) == Builds(a) + Builds(b)
    ensures Sends(a + b) == Sends(a) + Sends(b)
    ensures HistoryPeers(a + b) == HistoryPeers(a) + HistoryPeers(b)
  {
    BuildsAppend(a, b);
    SendsAppend(a, b);
    HistoryPeersAppend(a, b);
  }

  // ---------------------------------------------------------------------------
  // Reference definitions for one chat
  // ---------------------------------------------------------------------------

  /** The items at or after the threshold, newest (last in the list) first. */
  function Recent(items: seq<Item>, threshold: int): (r: seq<Item>)
    ensures |r| <= |items|
    ensures forall k :: 0 <= k < |r| ==> r[k].date.GetOr(0) >= threshold
    decreases |items|
  {
    if items == [] then []
    else Recent(items[1..], threshold) + (if items[0].date.GetOr(0) < threshold then [] else [items[0]])
  }

  /** How many of `items` the transform turns into a message with a photo. */
  function PhotoCount(items: seq<Item>, profiles: seq<Profile>, title: Title, build: Build): (n: nat)
    ensures n <= |items|
    decreases |items|
  {
    if items == [] then 0
    else
      var last := build(items[|items| - 1], profiles, title);
      PhotoCount(items[..|items| - 1], profiles, title, build) + (if last.Returned? && HasPhoto(last.value) then 1 else 0)
  }

  lemma PhotoCountSnoc(items: seq<Item>, item: Item, profiles: seq<Profile>, title: Title, build: Build)
    ensures PhotoCount(items + [item], profiles, title, build) ==
            PhotoCount(items, profiles, title, build) +
            (if build(item, profiles, title).Returned? && HasPhoto(build(item, profiles, title).value) then 1 else 0)
  {
    assert (items + [item])[..|items|] == items;
  }

  // ---------------------------------------------------------------------------
  // _resend_for_chat
  // ---------------------------------------------------------------------------

  /** The calls one eligible item adds: a build, and a send to `target` when the message has a photo. */
  function StepCalls(item: Item, profiles: seq<Profile>, title: Title, svc: Services, target: Target): seq<Effect> {
    var answer := svc.build(item, profiles, title);
    [BuildMessage(item, profiles, title)] +
    (if answer.Returned? && HasPhoto(answer.value) then [SendMessage(answer.value, target)] else [])
  }

  lemma StepCallsShape(item: Item, profiles: seq<Profile>, title: Title, svc: Services, target: Target, threshold: int)
    ensures var answer := svc.build(item, profiles, title);
            var extra := StepCalls(item, profiles, title, svc, target);
            && Builds(extra) == [item]
            && Sends(extra) == (if answer.Returned? && HasPhoto(answer.value) then [answer.value] else [])
            && HistoryPeers(extra) == []
            && ChatCalls(extra, target)
            && (item.date.GetOr(0) >= threshold ==> SentFromRecent(extra, svc.build, threshold))
  {
    var answer := svc.build(item, profiles, title);
    var build := [BuildMessage(item, profiles, title)];
    assert build[1..] == [];
    if answer.Returned? && HasPhoto(answer.value) {
      var send := [SendMessage(answer.value, target)];
      assert send[1..] == [];
      TraceAppend(build, send);
    } else {
      assert StepCalls(item, profiles, title, svc, target) == build;
    }
  }

  /** What one eligible item does to a walk that has not raised. */
  lemma ProcessStep(w: Tally, item: Item, profiles: seq<Profile>, title: Title, threshold: int,
                    svc: Services, target: Target)
    requires w.ok && item.date.GetOr(0) >= threshold
    ensures var answer := svc.build(item, profiles, title);
            var photo := answer.Returned? && HasPhoto(answer.value);
            var next := Process(w, item, profiles, title, threshold, svc, target);
            && next.calls == w.calls + StepCalls(item, profiles, title, svc, target)
            && Builds(next.calls) == Builds(w.calls) + [item]
            && Sends(next.calls) == Sends(w.calls) + (if photo then [answer.value] else [])
            && HistoryPeers(next.calls) == HistoryPeers(w.calls)
            && (ChatCalls(w.calls, target) ==> ChatCalls(next.calls, target))
            && (SentFromRecent(w.calls, svc.build, threshold) ==> SentFromRecent(next.calls, svc.build, threshold))
            && (next.ok ==> next.delivered == w.delivered + (if photo then 1 else 0))
  {
    var extra := StepCalls(item, profiles, title, svc, target);
    assert Process(w, item, profiles, title, threshold, svc, target).calls == w.calls + extra;
    StepCallsShape(item, profiles, title, svc, target, threshold);
    TraceAppend(w.calls, extra);
    if ChatCalls(w.calls, target) {
      ChatCallsAppend(w.calls, extra, target);
    }
    if SentFromRecent(w.calls, svc.build, threshold) {
      SentFromRecentAppend(w.calls, extra, svc.build, threshold);
    }
  }

  /**
   * The walk in one chat asks for no history, sends only messages with a
   * photo, only to the configured chat, makes no other call, and offers the
   * transform at most one call per item.
   */
  lemma {:induction false} WalkSendsPhotos(items: seq<Item>, profiles: seq<Profile>, title: Title, threshold: int,
                                           svc: Services, target: Target)
    ensures var w := WalkItems(items, profiles, title, threshold, svc, target);
            && HistoryPeers(w.calls) == []
            && ChatCalls(w.calls, target)
            && AllPhotos(Sends(w.calls))
            && SentFromRecent(w.calls, svc.build, threshold)
            && |Builds(w.calls)| <= |items|
    decreases |items|
  {
    if items != [] {
      var before := WalkItems(items[1..], profiles, title, threshold, svc, target);
      WalkSendsPhotos(items[1..], profiles, title, threshold, svc, target);
      if before.ok && items[0].date.GetOr(0) >= threshold {
        ProcessStep(before, items[0], profiles, title, threshold, svc, target);
      }
    }
  }

  /**
   * A walk offers the transform the items at or after the threshold, newest
   * first (the `reversed` of line 48), and nothing else: the items built are a
   * prefix of those, and all of them when the walk did not raise.
   */
  lemma {:induction false} WalkOffersRecent(items: seq<Item>, profiles: seq<Profile>, title: Title, threshold: int,
                                            svc: Services, target: Target)
    ensures var w := WalkItems(items, profiles, title, threshold, svc, target);
            && Builds(w.calls) <= Recent(items, threshold)
            && (w.ok ==> Builds(w.calls) == Recent(items, threshold))
    decreases |items|
  {
    if items != [] {
      var before := WalkItems(items[1..], profiles, title, threshold, svc, target);
      WalkOffersRecent(items[1..], profiles, title, threshold, svc, target);
      if before.ok && items[0].date.GetOr(0) >= threshold {
        ProcessStep(before, items[0], profiles, title, threshold, svc, target);
      } else {
        assert WalkItems(items, profiles, title, threshold, svc, target) == before;
        assert Recent(items[1..], threshold) <= Recent(items, threshold);
      }
    }
  }

  /**
   * The count `_resend_for_chat` returns is the number of messages it sent,
   * which is the number of recent items whose message has a photo.
   */
  lemma {:induction false} WalkCounts(items: seq<Item>, profiles: seq<Profile>, title: Title, threshold: int,
                                      svc: Services, target: Target)
    ensures var w := WalkItems(items, profiles, title, threshold, svc, target);
            w.ok ==> w.delivered == |Sends(w.calls)| == PhotoCount(Recent(items, threshold), profiles, title, svc.build)
    decreases |items|
  {
    if items != [] {
      var before := WalkItems(items[1..], profiles, title, threshold, svc, target);
      WalkCounts(items[1..], profiles, title, threshold, svc, target);
      if before.ok && items[0].date.GetOr(0) >= threshold {
        ProcessStep(before, items[0], profiles, title, threshold, svc, target);
        PhotoCountSnoc(Recent(items[1..], threshold), items[0], profiles, title, svc.build);
      } else if items[0].date.GetOr(0) < threshold {
        assert WalkItems(items, profiles, title, threshold, svc, target) == before;
        assert Recent(items, threshold) == Recent(items[1..], threshold);
      }
    }
  }

  /** When neither the transform nor `send_message` raises, the walk finishes. */
  lemma {:induction false} WalkFinishes(items: seq<Item>, profiles: seq<Profile>, title: Title, threshold: int,
                                        svc: Services, target: Target)
    requires forall item :: svc.build(item, profiles, title).Returned?
    requires forall m :: svc.send(m, target).Returned?
    ensures WalkItems(items, profiles, title, threshold, svc, target).ok
    decreases |items|
  {
    if items != [] {
      WalkFinishes(items[1..], profiles, title, threshold, svc, target);
    }
  }

  /**
   * The title handed to the transform is `conversations[0].chat_settings.title`
   * when that path exists, and `""` otherwise.
   */
  lemma ChatTitleCases(conversations: Option<seq<Conversation>>)
    ensures conversations.None? || conversations.value == [] ==> ChatTitle(conversations) == Text("")
    ensures conversations.Some? && conversations.value != [] ==>
              var settings := conversations.value[0].chatSettings;
              && (settings.None? ==> ChatTitle(conversations) == Text(""))
              && (settings.Some? && settings.value.title.None? ==> ChatTitle(conversations) == Text(""))
              && (settings.Some? && settings.value.title.Some? ==> ChatTitle(conversations) == settings.value.title.value)
  {
  }

  // ---------------------------------------------------------------------------
  // One chat, all peers, main
  // ---------------------------------------------------------------------------

  lemma AllPhotosAppend(a: seq<Message>, b: seq<Message>)
    requires AllPhotos(a) && AllPhotos(b)
    ensures AllPhotos(a + b)
  {
    assert forall k :: 0 <= k < |a + b| ==> (a + b)[k] == if k < |a| then a[k] else b[k - |a|];
  }

  /**
   * Every `send_message` comes right after the build of an item at or after
   * the threshold, and sends the message that build returned.
   */
  predicate SentFromRecent(calls: seq<Effect>, build: Build, threshold: int) {
    forall k :: 0 <= k < |calls| && calls[k].SendMessage? ==>
      && k > 0 && calls[k - 1].BuildMessage?
      && calls[k - 1].item.date.GetOr(0) >= threshold
      && build(calls[k - 1].item, calls[k - 1].profiles, calls[k - 1].title) == Returned(calls[k].message)
  }

  lemma SentFromRecentAppend(a: seq<Effect>, b: seq<Effect>, build: Build, threshold: int)
    requires SentFromRecent(a, build, threshold) && SentFromRecent(b, build, threshold)
    ensures SentFromRecent(a + b, build, threshold)
  {
    assert forall k :: 0 <= k < |a + b| ==> (a + b)[k] == if k < |a| then a[k] else b[k - |a|];
  }

  lemma RecentPrefixAtOrAfter(built: seq<Item>, items: seq<Item>, threshold: int)
    requires built <= Recent(items, threshold)
    ensures AtOrAfter(built, threshold)
  {
    var r := Recent(items, threshold);
    assert forall k :: 0 <= k < |built| ==> built[k] == r[k];
  }

  lemma AtOrAfterAppend(a: seq<Item>, b: seq<Item>, threshold: int)
    requires AtOrAfter(a, threshold) && AtOrAfter(b, threshold)
    ensures AtOrAfter(a + b, threshold)
  {
    assert forall k :: 0 <= k < |a + b| ==> (a + b)[k] == if k < |a| then a[k] else b[k - |a|];
  }

  lemma ChatCallsAppend(a: seq<Effect>, b: seq<Effect>, target: Target)
    requires ChatCalls(a, target) && ChatCalls(b, target)
    ensures ChatCalls(a + b, target)
  {
    assert forall k :: 0 <= k < |a + b| ==> (a + b)[k] == if k < |a| then a[k] else b[k - |a|];
  }

  /** What `_resend_for_chat` should count for one peer: its recent items that have a photo. */
  function ChatExpected(token: string, peer: int, threshold: int, count: int, svc: Services): nat {
    match svc.history(token, peer, count)
    case Raised => 0
    case Returned(h) =>
      PhotoCount(Recent(h.items.GetOr([]), threshold), h.profiles.GetOr([]), ChatTitle(h.conversations), svc.build)
  }

  /** The sum of `ChatExpected` over the peers. */
  function Expected(peers: seq<int>, token: string, threshold: int, count: int, svc: Services): nat
    decreases |peers|
  {
    if peers == [] then 0
    else Expected(peers[..|peers| - 1], token, threshold, count, svc) + ChatExpected(token, peers[|peers| - 1], threshold, count, svc)
  }

  /** `_resend_for_chat` asks for the history of its own peer once, first, and of no other. */
  lemma ChatHistory(token: string, peer: int, target: Target, threshold: int, count: int, svc: Services)
    ensures var c := ChatRun(token, peer, target, threshold, count, svc);
            && |c.calls| > 0 && c.calls[0] == GetHistory(token, peer, count)
            && HistoryPeers(c.calls) == [peer]
  {
    var fetch := [GetHistory(token, peer, count)];
    assert fetch[1..] == [];
    match svc.history(token, peer, count)
    case Raised =>
    case Returned(h) =>
      var items := h.items.GetOr([]);
      var profiles := h.profiles.GetOr([]);
      var title := ChatTitle(h.conversations);
      var w := WalkItems(items, profiles, title, threshold, svc, target);
      WalkSendsPhotos(items, profiles, title, threshold, svc, target);
      HistoryPeersAppend(fetch, w.calls);
  }

  /**
   * `_resend_for_chat` asks for the history of its peer once, first; it offers
   * the transform only recent items of that history, neither of them older
   * than the threshold, whether or not it raises; when it returns, it offered
   * all of them and counted what it sent.
   */
  lemma ChatShape(token: string, peer: int, target: Target, threshold: int, count: int, svc: Services)
    ensures var c := ChatRun(token, peer, target, threshold, count, svc);
            && |c.calls| > 0 && c.calls[0] == GetHistory(token, peer, count)
            && HistoryPeers(c.calls) == [peer]
            && ChatCalls(c.calls, target)
            && AllPhotos(Sends(c.calls))
            && AtOrAfter(Builds(c.calls), threshold)
            && SentFromRecent(c.calls, svc.build, threshold)
            && (svc.history(token, peer, count).Raised? ==> Builds(c.calls) == [])
            && (svc.history(token, peer, count).Returned? ==>
                  Builds(c.calls) <= Recent(svc.history(token, peer, count).value.items.GetOr([]), threshold))
            && (c.ok ==> svc.history(token, peer, count).Returned?)
            && (c.ok ==> Builds(c.calls) == Recent(svc.history(token, peer, count).value.items.GetOr([]), threshold))
            && (c.ok ==> c.delivered == |Sends(c.calls)| == ChatExpected(token, peer, threshold, count, svc))
  {
    var fetch := [GetHistory(token, peer, count)];
    assert fetch[1..] == [];
    match svc.history(token, peer, count)
    case Raised =>
    case Returned(h) =>
      var items := h.items.GetOr([]);
      var profiles := h.profiles.GetOr([]);
      var title := ChatTitle(h.conversations);
      var w := WalkItems(items, profiles, title, threshold, svc, target);
      WalkSendsPhotos(items, profiles, title, threshold, svc, target);
      WalkOffersRecent(items, profiles, title, threshold, svc, target);
      WalkCounts(items, profiles, title, threshold, svc, target);
      RecentPrefixAtOrAfter(Builds(w.calls), items, threshold);
      TraceAppend(fetch, w.calls);
      ChatCallsAppend(fetch, w.calls, target);
      SentFromRecentAppend(fetch, w.calls, svc.build, threshold);
  }

  /**
   * The peers are visited in the order given, each once, until one raises;
   * when none raised, every peer was visited and the total is the number of
   * messages sent, which is the sum over the peers of their recent items
   * with a photo; every message sent has a photo and goes to the configured
   * chat, and no item older than the threshold is offered to the transform,
   * whether or not a peer raised.
   */
  lemma {:induction false} PeersCalls(peers: seq<int>, token: string, target: Target, threshold: int,
                                      count: int, svc: Services)
    ensures var p := PeersRun(peers, token, target, threshold, count, svc);
            && ChatCalls(p.calls, target) && AllPhotos(Sends(p.calls))
            && AtOrAfter(Builds(p.calls), threshold) && SentFromRecent(p.calls, svc.build, threshold)
    decreases |peers|
  {
    if peers != [] {
      var before := PeersRun(peers[..|peers| - 1], token, target, threshold, count, svc);
      PeersCalls(peers[..|peers| - 1], token, target, threshold, count, svc);
      if before.ok {
        var c := ChatRun(token, peers[|peers| - 1], target, threshold, count, svc);
        ChatShape(token, peers[|peers| - 1], target, threshold, count, svc);
        SendsAppend(before.calls, c.calls);
        BuildsAppend(before.calls, c.calls);
        ChatCallsAppend(before.calls, c.calls, target);
        AllPhotosAppend(Sends(before.calls), Sends(c.calls));
        AtOrAfterAppend(Builds(before.calls), Builds(c.calls), threshold);
        SentFromRecentAppend(before.calls, c.calls, svc.build, threshold);
      }
    }
  }

  lemma {:induction false} PeersOrder(peers: seq<int>, token: string, target: Target, threshold: int,
                                      count: int, svc: Services)
    ensures var p := PeersRun(peers, token, target, threshold, count, svc);
            && |HistoryPeers(p.calls)| <= |peers|
            && HistoryPeers(p.calls) == peers[..|HistoryPeers(p.calls)|]
            && (p.ok ==> HistoryPeers(p.calls) == peers)
    decreases |peers|
  {
    if peers != [] {
      var init := peers[..|peers| - 1];
      var before := PeersRun(init, token, target, threshold, count, svc);
      PeersOrder(init, token, target, threshold, count, svc);
      var n := |HistoryPeers(before.calls)|;
      assert peers[..n] == init[..n];
      if before.ok {
        var c := ChatRun(token, peers[|peers| - 1], target, threshold, count, svc);
        ChatHistory(token, peers[|peers| - 1], target, threshold, count, svc);
        HistoryPeersAppend(before.calls, c.calls);
        assert init + [peers[|peers| - 1]] == peers;
      }
    }
  }

  lemma {:induction false} PeersTotal(peers: seq<int>, token: string, target: Target, threshold: int,
                                      count: int, svc: Services)
    ensures var p := PeersRun(peers, token, target, threshold, count, svc);
            p.ok ==> p.delivered == |Sends(p.calls)| == Expected(peers, token, threshold, count, svc)
    decreases |peers|
  {
    if peers != [] {
      var before := PeersRun(peers[..|peers| - 1], token, target, threshold, count, svc);
      PeersTotal(peers[..|peers| - 1], token, target, threshold, count, svc);
      if before.ok {
        var c := ChatRun(token, peers[|peers| - 1], target, threshold, count, svc);
        ChatShape(token, peers[|peers| - 1], target, threshold, count, svc);
        SendsAppend(before.calls, c.calls);
      }
    }
  }

  /** No network call is made before the configuration has been validated. */
  lemma RefusedBeforeNetwork(env: Env, threshold: int, svc: Services)
    requires Configure(env).Refused?
    ensures MainRun(env, threshold, svc) == Run(Aborted(Configure(env).reason), [])
  {
  }

  /**
   * A finished run logged in first with the configured cookie, visited every
   * configured peer in order, closed the bot last, and reports as its total
   * the number of messages sent, which is the sum of the per-peer counts;
   * each message sent has a photo and goes to the configured chat.
   * A run that raised never closes the bot.
   */
  lemma LaunchCalls(s: Setup, threshold: int, svc: Services)
    ensures var r := Launch(s, threshold, svc);
            && |r.calls| > 0 && r.calls[0] == GetUserCredentials(s.cookie)
            && (r.outcome.Finished? ==>
                  r.calls[|r.calls| - 1] == CloseBot && ChatCalls(r.calls[1..|r.calls| - 1], s.target))
            && (r.outcome.Aborted? ==> CloseBot !in r.calls)
  {
    var login := [GetUserCredentials(s.cookie)];
    match svc.login(s.cookie)
    case Raised =>
    case Returned(token) =>
      var p := PeersRun(s.peers, token, s.target, threshold, s.depth, svc);
      PeersCalls(s.peers, token, s.target, threshold, s.depth, svc);
      assert forall k :: 0 <= k < |p.calls| ==> p.calls[k] != CloseBot;
      if p.ok {
        var all := login + p.calls + [CloseBot];
        assert all[1..|all| - 1] == p.calls;
      } else {
        assert forall k :: 0 <= k < |login + p.calls| ==> (login + p.calls)[k] != CloseBot;
      }
  }

  /**
   * No run, finished or not, offers the transform an item older than the
   * threshold, and every message it sends was built from such an item.
   */
  lemma LaunchOffersRecent(s: Setup, threshold: int, svc: Services)
    ensures var r := Launch(s, threshold, svc);
            AtOrAfter(Builds(r.calls), threshold) && SentFromRecent(r.calls, svc.build, threshold)
  {
    var login := [GetUserCredentials(s.cookie)];
    assert login[1..] == [];
    match svc.login(s.cookie)
    case Raised =>
    case Returned(token) =>
      var p := PeersRun(s.peers, token, s.target, threshold, s.depth, svc);
      PeersCalls(s.peers, token, s.target, threshold, s.depth, svc);
      BuildsAppend(login, p.calls);
      SentFromRecentAppend(login, p.calls, svc.build, threshold);
      if p.ok {
        var close := [CloseBot];
        assert close[1..] == [];
        BuildsAppend(login + p.calls, close);
        SentFromRecentAppend(login + p.calls, close, svc.build, threshold);
      }
  }

  lemma LaunchTotal(s: Setup, threshold: int, svc: Services)
    ensures var r := Launch(s, threshold, svc);
            r.outcome.Finished? ==>
              && svc.login(s.cookie).Returned?
              && HistoryPeers(r.calls) == s.peers
              && r.outcome.total == |Sends(r.calls)|
              && r.outcome.total == Expected(s.peers, svc.login(s.cookie).value, threshold, s.depth, svc)
              && AllPhotos(Sends(r.calls))
  {
    var login := [GetUserCredentials(s.cookie)];
    assert login[1..] == [];
    match svc.login(s.cookie)
    case Raised =>
    case Returned(token) =>
      var p := PeersRun(s.peers, token, s.target, threshold, s.depth, svc);
      if p.ok {
        PeersCalls(s.peers, token, s.target, threshold, s.depth, svc);
        PeersOrder(s.peers, token, s.target, threshold, s.depth, svc);
        PeersTotal(s.peers, token, s.target, threshold, s.depth, svc);
        var close := [CloseBot];
        assert close[1..] == [];
        TraceAppend(login, p.calls);
        TraceAppend(login + p.calls, close);
      }
  }

  /** `main` runs `Launch` on a configuration that passed the checks, and nothing else. */
  lemma MainShape(env: Env, threshold: int, svc: Services)
    ensures var r := MainRun(env, threshold, svc);
            && (r.calls != [] ==> Configure(env).Ready? && r == Launch(Configure(env).setup, threshold, svc))
            && (r.outcome.Finished? ==> Configure(env).Ready?)
  {
  }

  // ---------------------------------------------------------------------------
  // main: configuration
  // ---------------------------------------------------------------------------

  /** `RESEND_HISTORY_DEPTH` is converted before anything else is looked at. */
  lemma DepthCheckedFirst(env: Env, threshold: int, svc: Services)
    requires PyInt(env.historyDepth.GetOr("50")) == None
    ensures MainRun(env, threshold, svc) == Run(Aborted(NotAnInteger), [])
  {
  }

  /** Any of the four required variables unset or empty stops the run (lines 79-80). */
  lemma MissingConfigRejected(env: Env, threshold: int, svc: Services)
    requires PyInt(env.historyDepth.GetOr("50")).Some?
    requires !Truthy(env.authCookie) || !Truthy(env.botToken) || !Truthy(env.vkChatId) ||
             (!Truthy(env.tgChatId) && !Truthy(env.tgUserId))
    ensures MainRun(env, threshold, svc) == Run(Aborted(MissingConfig), [])
  {
  }

  /** An empty list of peers stops the run before any network call (lines 86-87). */
  lemma NoPeersRejected(env: Env, threshold: int, svc: Services)
    requires Configure(env) != Refused(NotAnInteger) && Configure(env) != Refused(MissingConfig)
    requires ParseAllowedChats(env.vkChatId) == Some([])
    ensures MainRun(env, threshold, svc) == Run(Aborted(NoPeers), [])
  {
  }

  // ---------------------------------------------------------------------------
  // _parse_allowed_chats
  // ---------------------------------------------------------------------------

  /**
   * A non-empty value parses exactly when every non-blank chunk between
   * commas is an integer once stripped, and then gives one id per non-blank
   * chunk, in order.
   */
  lemma ParseAllowedChatsSpec(raw: string)
    requires raw != ""
    ensures var kept := NonBlank(Split(raw, ','));
            var r := ParseAllowedChats(Some(raw));
            && (r.Some? <==> forall k :: 0 <= k < |kept| ==> PyInt(kept[k]).Some?)
            && (r.Some? ==> |r.value| == |kept| && forall k :: 0 <= k < |kept| ==> PyInt(kept[k]) == Some(r.value[k]))
  {
    TryMapSpec(NonBlank(Split(raw, ',')), PyInt);
  }

  /** Every character of a piece of `s.split(sep)` is a character of `s`. */
  lemma {:induction false} SplitChars(s: string, sep: char)
    ensures forall k, j :: 0 <= k < |Split(s, sep)| && 0 <= j < |Split(s, sep)[k]| ==> Split(s, sep)[k][j] in s
    decreases |s|
  {
    if s != [] {
      SplitChars(s[1..], sep);
      assert forall c :: c in s[1..] ==> c in s;
    }
  }

  lemma {:induction false} NonBlankOfBlanks(chunks: seq<string>)
    requires forall k, j :: 0 <= k < |chunks| && 0 <= j < |chunks[k]| ==> IsSpace(chunks[k][j])
    ensures NonBlank(chunks) == []
    decreases |chunks|
  {
    if chunks != [] {
      assert forall j :: 0 <= j < |chunks[0]| ==> IsSpace(chunks[0][j]);
      NonBlankOfBlanks(chunks[1..]);
    }
  }

  /** A value made only of commas and blanks, such as `" , "`, names no peer. */
  lemma BlankListHasNoPeers(raw: string)
    requires forall j :: 0 <= j < |raw| ==> raw[j] == ',' || IsSpace(raw[j])
    ensures ParseAllowedChats(Some(raw)) == Some([])
  {
    if raw != "" {
      var chunks := Split(raw, ',');
      SplitChars(raw, ',');
      forall k, j | 0 <= k < |chunks| && 0 <= j < |chunks[k]|
        ensures IsSpace(chunks[k][j])
      {
        assert chunks[k][j] in raw;
        assert chunks[k][j] != ',';
      }
      NonBlankOfBlanks(chunks);
    }
  }

  lemma {:induction false} NonBlankNumerals(ids: seq<int>)
    ensures NonBlank(Numerals(ids)) == Numerals(ids)
    decreases |ids|
  {
    if ids != [] {
      NonBlankNumerals(ids[1..]);
      PyIntOfIntToString(ids[0]);
      StripNumeral(ids[0]);
      assert Numerals(ids)[1..] == Numerals(ids[1..]);
    }
  }

  lemma ParseIntsNumerals(ids: seq<int>)
    ensures TryMap(Numerals(ids), PyInt) == Some(ids)
  {
    forall k | 0 <= k < |ids|
      ensures PyInt(Numerals(ids)[k]) == Some(ids[k])
    {
      PyIntOfIntToString(ids[k]);
    }
    TryMapAll(Numerals(ids), ids, PyInt);
  }

  /** The allow-list written as `str` ids joined by commas parses back to the same ids. */
  lemma ParseListedIds(ids: seq<int>)
    ensures ParseAllowedChats(Some(Join(Numerals(ids), ','))) == Some(ids)
  {
    var parts := Numerals(ids);
    if ids != [] {
      NumeralsClean(ids);
      SplitJoin(parts, ',');
      NonBlankNumerals(ids);
      ParseIntsNumerals(ids);
      JoinStartsWith(parts, ',');
    }
  }
}
