/**
 * What one iteration of the relay loop, and a run of several, guarantee.
 */
module RelayProperties {
  import opened Vk
  import opened PyText
  import opened Relay

  // ---------------------------------------------------------------------------
  // Counting calls in a trace
  // ---------------------------------------------------------------------------

  function Count(calls: seq<Effect>, p: Effect -> bool): nat
    decreases |calls|
  {
    if calls == [] then 0 else (if p(calls[0]) then 1 else 0) + Count(calls[1..], p)
  }

  predicate IsPoll(e: Effect) { e.LongPoll? }
  predicate IsFetch(e: Effect) { e.GetMessage? }
  predicate IsSend(e: Effect) { e.SendMessage? }
  predicate IsNotice(e: Effect) { e.SendError? }

  lemma {:induction false} CountAppend(a: seq<Effect>, b: seq<Effect>, p: Effect -> bool)
    ensures Count(a + b, p) == Count(a, p) + Count(b, p)
    decreases |a|
  {
    if a == [] {
      assert a + b == b;
    } else {
      CountAppend(a[1..], b, p);
      assert (a + b)[1..] == a[1..] + b;
    }
  }

  lemma {:induction false} CountNone(a: seq<Effect>, p: Effect -> bool)
    requires forall k :: 0 <= k < |a| ==> !p(a[k])
    ensures Count(a, p) == 0
    decreases |a|
  {
    if a != [] {
      CountNone(a[1..], p);
    }
  }

  /** Outcomes that come from the `except` branch. */
  predicate Caught(o: Outcome) {
    o.Notified? || o.Stopped?
  }

  /** `failed` is neither 1 nor 2: lines 87-94 do nothing. */
  predicate Quiet(req: PollReply) {
    req.failed != Some(1) && req.failed != Some(2)
  }

  // ---------------------------------------------------------------------------
  // The chat allow-list (line 50)
  // ---------------------------------------------------------------------------

  /** Blanks anywhere in `vk_chat_ids` are ignored: the list is split after they are removed. */
  lemma AllowListIgnoresBlanks(vkChatIds: string)
    ensures AllowList(vkChatIds) == Split(Squeeze(vkChatIds), ',')
  {
    ConcatFields(vkChatIds);
  }

  /** A comma-joined list of decimal ids splits back into those numerals; no ids give `[""]`. */
  lemma AllowListOfNumerals(ids: seq<int>)
    ensures AllowList(Join(Numerals(ids), ',')) == if ids == [] then [""] else Numerals(ids)
  {
    var parts := Numerals(ids);
    var v := Join(parts, ',');
    NumeralsClean(ids);
    JoinNoSpace(parts, ',');
    AllowListIgnoresBlanks(v);
    SqueezeNoSpace(v);
    if ids != [] {
      SplitJoin(parts, ',');
    }
  }

  /** The numeral of `chatId` is among those of `ids` exactly when `chatId` is. */
  lemma NumeralListed(ids: seq<int>, chatId: int)
    ensures IntToString(chatId) in Numerals(ids) <==> chatId in ids
  {
    var parts := Numerals(ids);
    if chatId in ids {
      var k :| 0 <= k < |ids| && ids[k] == chatId;
      assert parts[k] == IntToString(chatId);
    }
    if IntToString(chatId) in parts {
      var k :| 0 <= k < |parts| && parts[k] == IntToString(chatId);
      IntToStringInjective(ids[k], chatId);
    }
  }

  /**
   * For a list written as decimal ids joined by commas, a chat is allowed
   * exactly when its id is one of them; an empty list allows no chat.
   */
  lemma AllowedIffListed(ids: seq<int>, chatId: int)
    ensures Allowed(Join(Numerals(ids), ','), chatId) <==> chatId in ids
  {
    AllowListOfNumerals(ids);
    NumeralListed(ids, chatId);
    if ids == [] {
      assert |IntToString(chatId)| > 0;
    }
  }

  // ---------------------------------------------------------------------------
  // The first update (lines 42-50, 82-83)
  // ---------------------------------------------------------------------------

  /** The stages after the poll never look at the poll's answer. */
  lemma FetchIgnoresPoll(c: Cursor, cfg: Config, r: Responses, poll: Answer<PollReply>)
    ensures Fetch(c, cfg, r.(poll := poll)) == Fetch(c, cfg, r)
  {
  }

  lemma EventIgnoresPoll(c: Cursor, cfg: Config, r: Responses, build: Build, e: Event, poll: Answer<PollReply>)
    ensures OnEvent(c, cfg, r.(poll := poll), build, e) == OnEvent(c, cfg, r, build, e)
  {
    FetchIgnoresPoll(c, cfg, r, poll);
    assert Deliver(c, cfg, r.(poll := poll), build) == Deliver(c, cfg, r, build);
  }

  /** Only `updates[0]` is looked at: the rest of the batch makes no difference. */
  lemma OnlyFirstUpdate(server: string, cfg: Config, c: Cursor, r: Responses, build: Build, req: PollReply)
    requires r.poll == Returned(req) && req.updates != []
    ensures Iteration(server, cfg, c, r, build)
         == Iteration(server, cfg, c, r.(poll := Returned(req.(updates := [req.updates[0]]))), build)
  {
    var req2 := req.(updates := [req.updates[0]]);
    var r2 := r.(poll := Returned(req2));
    if req.ts.Some? {
      var ev := OnEvent(c.(ts := req.ts.value), cfg, r, build, req.updates[0]);
      EventIgnoresPoll(c.(ts := req.ts.value), cfg, r, build, req.updates[0], Returned(req2));
      assert OnFailed(ev.cursor, cfg, r2, req2) == OnFailed(ev.cursor, cfg, r, req);
    }
    assert Attempt(server, cfg, c, r, build) == Attempt(server, cfg, c, r2, build);
  }

  /** A poll without updates changes the cursor only through `failed`. */
  lemma NoUpdates(server: string, cfg: Config, c: Cursor, r: Responses, build: Build, req: PollReply)
    requires r.poll == Returned(req) && req.updates == [] && Quiet(req)
    ensures Iteration(server, cfg, c, r, build) == Report(c, [LongPoll(Url(server), Form(c))], Idle)
  {
  }

  /** An update with a tag other than 4 only moves `ts`; nothing is fetched or sent. */
  lemma IgnoredEvent(server: string, cfg: Config, c: Cursor, r: Responses, build: Build, req: PollReply, t: int)
    requires r.poll == Returned(req) && req.updates != [] && req.ts == Some(t) && Quiet(req)
    requires req.updates[0].Tagged? && req.updates[0].tag != 4
    ensures Iteration(server, cfg, c, r, build)
         == Report(c.(ts := t), [LongPoll(Url(server), Form(c))], Ignored(req.updates[0].tag))
  {
  }

  /** A new message from a chat outside the allow-list: `pts` goes up by one, nothing is fetched or sent. */
  lemma FilteredChat(server: string, cfg: Config, c: Cursor, r: Responses, build: Build, req: PollReply, t: int, chat: int)
    requires r.poll == Returned(req) && req.updates != [] && req.ts == Some(t) && Quiet(req)
    requires req.updates[0] == Tagged(4, Some(chat)) && !Allowed(cfg.vkChatIds, chat)
    ensures Iteration(server, cfg, c, r, build)
         == Report(c.(ts := t, pts := c.pts + 1), [LongPoll(Url(server), Form(c))], Filtered(chat))
  {
  }

  /** Updates that are present but come without `ts` raise at line 43, before anything changes. */
  lemma UpdatesWithoutTs(server: string, cfg: Config, c: Cursor, r: Responses, build: Build, req: PollReply)
    requires r.poll == Returned(req) && req.updates != [] && req.ts == None
    ensures Iteration(server, cfg, c, r, build).cursor == c
    ensures Iteration(server, cfg, c, r, build).calls
         == [LongPoll(Url(server), Form(c)), SendError(cfg.tgChatId, cfg.tgTopicId)]
  {
  }

  // ---------------------------------------------------------------------------
  // Fetch and delivery (lines 53-81)
  // ---------------------------------------------------------------------------

  /**
   * An allowed message whose first fetch succeeds: one fetch at the current
   * `pts`, one message built from the last item with the title made a string,
   * one `send_message`, and `pts` is `new_pts` or else one more than before.
   */
  lemma Delivery(server: string, cfg: Config, c: Cursor, r: Responses, build: Build, req: PollReply, t: int,
                 chat: int, reply: MessageReply, m: Message)
    requires r.poll == Returned(req) && req.updates != [] && req.ts == Some(t) && Quiet(req)
    requires req.updates[0] == Tagged(4, Some(chat)) && Allowed(cfg.vkChatIds, chat)
    requires r.fetch == Returned(reply) && !reply.error
    requires reply.items.Some? && reply.items.value != [] && reply.profiles.Some? && reply.title.Some?
    requires var items := reply.items.value;
             build(items[|items| - 1], reply.profiles.value, Text(TitleText(reply.title.value))) == Returned(m)
    requires r.send.Returned?
    ensures var items := reply.items.value;
            Iteration(server, cfg, c, r, build) == Report(c.(ts := t, pts := reply.newPts.GetOr(c.pts + 1)),
                   [LongPoll(Url(server), Form(c)),
                    GetMessage(c.accessToken, c.pts),
                    BuildMessage(items[|items| - 1], reply.profiles.value, Text(TitleText(reply.title.value))),
                    SendMessage(m, cfg.tgChatId, cfg.tgTopicId)],
                   Delivered(m))
  {
  }

  /** A falsy chat title (`None` or `""`) is passed on as `""`, any other as itself. */
  lemma FalsyTitle(t: Title)
    ensures TitleText(t) == "" <==> t == Null || t == Text("")
    ensures t.Text? ==> TitleText(t) == t.text
  {
  }

  /** Lines 55-64: an `error` reply re-authenticates once and retries with the new token. */
  lemma FetchRetry(c: Cursor, cfg: Config, r: Responses, token: string, cred: Credentials)
    requires r.fetch.Returned? && r.fetch.value.error
    requires r.userAuth == Returned(token) && r.longPollAuth == Returned(cred)
    ensures var f := Fetch(c, cfg, r);
            && f.calls == [GetMessage(c.accessToken, c.pts), GetUserCredentials(cfg.cookie),
                           GetCredentials(token), GetMessage(token, c.pts)]
            && f.cursor == c.(accessToken := token, ts := cred.ts, key := cred.key)
  {
  }

  /** What `Deliver` adds comes after the fetch calls, and only `pts` moves. */
  lemma DeliverExtendsFetch(c: Cursor, cfg: Config, r: Responses, build: Build)
    ensures var f, d := Fetch(c, cfg, r), Deliver(c, cfg, r, build);
            && |d.calls| >= |f.calls| && d.calls[..|f.calls|] == f.calls
            && d.cursor == f.cursor.(pts := d.cursor.pts)
            && forall k :: |f.calls| <= k < |d.calls| ==> d.calls[k].BuildMessage? || d.calls[k].SendMessage?
  {
    var f := Fetch(c, cfg, r);
    if f.result.Some? {
      var reply := f.result.value;
      if reply.items.Some? && reply.profiles.Some? && reply.title.Some? && reply.items.value != [] {
        var items, profiles := reply.items.value, reply.profiles.value;
        var item := items[|items| - 1];
        var title := Text(TitleText(reply.title.value));
        var built := f.calls + [BuildMessage(item, profiles, title)];
        assert built[..|f.calls|] == f.calls;
        if build(item, profiles, title).Returned? {
          var sent := built + [SendMessage(build(item, profiles, title).value, cfg.tgChatId, cfg.tgTopicId)];
          assert sent[..|f.calls|] == f.calls;
        }
      }
    }
  }

  /**
   * A fetch that answers with `error`: the user credentials and then the
   * long-poll credentials are fetched again, and the fetch is retried once,
   * with the new token and the same `pts`. The new token, `ts` and `key` stay,
   * whatever the retry answers.
   */
  lemma RetryAfterFetchError(server: string, cfg: Config, c: Cursor, r: Responses, build: Build, req: PollReply,
                             t: int, chat: int, token: string, cred: Credentials)
    requires r.poll == Returned(req) && req.updates != [] && req.ts == Some(t) && Quiet(req)
    requires req.updates[0] == Tagged(4, Some(chat)) && Allowed(cfg.vkChatIds, chat)
    requires r.fetch.Returned? && r.fetch.value.error
    requires r.userAuth == Returned(token) && r.longPollAuth == Returned(cred)
    ensures var it := Iteration(server, cfg, c, r, build);
            && |it.calls| >= 5
            && it.calls[..5] == [LongPoll(Url(server), Form(c)), GetMessage(c.accessToken, c.pts),
                                 GetUserCredentials(cfg.cookie), GetCredentials(token), GetMessage(token, c.pts)]
            && it.cursor.accessToken == token && it.cursor.ts == cred.ts && it.cursor.key == cred.key
  {
    var c1 := c.(ts := t);
    FetchRetry(c1, cfg, r, token, cred);
    DeliverExtendsFetch(c1, cfg, r, build);
    var f := Fetch(c1, cfg, r);
    var d := Deliver(c1, cfg, r, build);
    var ev := OnEvent(c1, cfg, r, build, req.updates[0]);
    assert ev.calls == d.calls && ev.cursor == d.cursor;
    var polled := [LongPoll(Url(server), Form(c))];
    var a := Attempt(server, cfg, c, r, build);
    assert a.calls == polled + ev.calls;
    assert a.cursor == ev.cursor;
    var it := Iteration(server, cfg, c, r, build);
    assert it.calls[..|a.calls|] == a.calls;
    assert it.calls[..5] == polled + f.calls;
  }

  /** Whatever happens, there is at most one retry, and every fetch uses the `pts` the iteration began with. */
  lemma AtMostOneRetry(server: string, cfg: Config, c: Cursor, r: Responses, build: Build)
    ensures var it := Iteration(server, cfg, c, r, build);
            && Count(it.calls, IsFetch) <= 2
            && forall k :: 0 <= k < |it.calls| && it.calls[k].GetMessage? ==> it.calls[k].pts == c.pts
  {
    var it := Iteration(server, cfg, c, r, build);
    var a := Attempt(server, cfg, c, r, build);
    assert |a.calls| >= 1;
    var tail := if a.result.Some? then [] else [SendError(cfg.tgChatId, cfg.tgTopicId)];
    assert it.calls == a.calls + tail;
    CountNone(tail, IsFetch);
    CountAppend(a.calls, tail, IsFetch);
    AttemptFetches(server, cfg, c, r, build);
  }

  lemma AttemptFetches(server: string, cfg: Config, c: Cursor, r: Responses, build: Build)
    ensures var a := Attempt(server, cfg, c, r, build);
            && Count(a.calls, IsFetch) <= 2
            && forall k :: 0 <= k < |a.calls| && a.calls[k].GetMessage? ==> a.calls[k].pts == c.pts
  {
    var a := Attempt(server, cfg, c, r, build);
    var polled := [LongPoll(Url(server), Form(c))];
    if r.poll.Returned? {
      var req := r.poll.value;
      var ev :=
        if req.updates == [] then Stage(c, [], Some(Idle))
        else if req.ts.None? then Stage(c, [], None)
        else OnEvent(c.(ts := req.ts.value), cfg, r, build, req.updates[0]);
      var f := OnFailed(ev.cursor, cfg, r, req);
      var rest := if ev.result.None? then [] else f.calls;
      assert a.calls == polled + ev.calls + rest;
      assert forall k :: 0 <= k < |f.calls| ==> !f.calls[k].GetMessage?;
      CountNone(polled, IsFetch);
      CountNone(rest, IsFetch);
      CountAppend(polled, ev.calls, IsFetch);
      CountAppend(polled + ev.calls, rest, IsFetch);
      if req.updates != [] && req.ts.Some? {
        EventFetches(c.(ts := req.ts.value), cfg, r, build, req.updates[0]);
      }
    } else {
      CountNone(polled, IsFetch);
    }
  }

  lemma EventFetches(c: Cursor, cfg: Config, r: Responses, build: Build, e: Event)
    ensures var s := OnEvent(c, cfg, r, build, e);
            && Count(s.calls, IsFetch) <= 2
            && forall k :: 0 <= k < |s.calls| && s.calls[k].GetMessage? ==> s.calls[k].pts == c.pts
  {
    var s := OnEvent(c, cfg, r, build, e);
    if e.Tagged? && e.tag == 4 && e.chatId.Some? && Allowed(cfg.vkChatIds, e.chatId.value) {
      var f := Fetch(c, cfg, r);
      var d := Deliver(c, cfg, r, build);
      DeliverExtendsFetch(c, cfg, r, build);
      var extra := d.calls[|f.calls|..];
      assert d.calls == f.calls + extra;
      assert forall k :: 0 <= k < |extra| ==> extra[k] == d.calls[|f.calls| + k];
      CountNone(extra, IsFetch);
      CountAppend(f.calls, extra, IsFetch);
      FetchFetches(c, cfg, r);
    } else {
      CountNone(s.calls, IsFetch);
    }
  }

  lemma FetchFetches(c: Cursor, cfg: Config, r: Responses)
    ensures var f := Fetch(c, cfg, r);
            && Count(f.calls, IsFetch) <= 2
            && forall k :: 0 <= k < |f.calls| && f.calls[k].GetMessage? ==> f.calls[k].pts == c.pts
  {
    var f := Fetch(c, cfg, r);
    var first := [GetMessage(c.accessToken, c.pts)];
    assert Count(first, IsFetch) == 1;
    if r.fetch.Returned? && r.fetch.value.error {
      var auth := Reauth(c, cfg.cookie, r.userAuth, r.longPollAuth);
      var more := f.calls[1..];
      assert f.calls == first + more;
      assert Count(more, IsFetch) <= 1 by {
        if auth.result.None? {
          CountNone(more, IsFetch);
        } else {
          var again := [GetMessage(auth.cursor.accessToken, c.pts)];
          assert more == auth.calls + again;
          CountNone(auth.calls, IsFetch);
          CountAppend(auth.calls, again, IsFetch);
        }
      }
      CountAppend(first, more, IsFetch);
    }
  }

  // ---------------------------------------------------------------------------
  // `failed` (lines 85-94)
  // ---------------------------------------------------------------------------

  /** `failed == 1` only resynchronises `ts`. */
  lemma FailedOne(cfg: Config, c: Cursor, r: Responses, req: PollReply, t: int)
    requires req.failed == Some(1) && req.ts == Some(t)
    ensures OnFailed(c, cfg, r, req) == Stage(c.(ts := t), [], Some(()))
  {
  }

  /** `failed == 2` replaces the token, `ts` and `key` from fresh credentials; `pts` stays. */
  lemma FailedTwo(cfg: Config, c: Cursor, r: Responses, req: PollReply, token: string, cred: Credentials)
    requires req.failed == Some(2)
    requires r.resyncUserAuth == Returned(token) && r.resyncLongPollAuth == Returned(cred)
    ensures OnFailed(c, cfg, r, req)
         == Stage(Cursor(cred.key, cred.ts, c.pts, token), [GetUserCredentials(cfg.cookie), GetCredentials(token)], Some(()))
  {
  }

  /** Any other `failed` changes nothing. */
  lemma FailedOther(cfg: Config, c: Cursor, r: Responses, req: PollReply)
    requires Quiet(req)
    ensures OnFailed(c, cfg, r, req) == Stage(c, [], Some(()))
  {
  }

  /** A whole iteration with only `failed == 1`. */
  lemma ResyncIteration(server: string, cfg: Config, c: Cursor, r: Responses, build: Build, req: PollReply, t: int)
    requires r.poll == Returned(req) && req.updates == [] && req.failed == Some(1) && req.ts == Some(t)
    ensures Iteration(server, cfg, c, r, build) == Report(c.(ts := t), [LongPoll(Url(server), Form(c))], Idle)
  {
  }

  // ---------------------------------------------------------------------------
  // The exception boundary (lines 95-97)
  // ---------------------------------------------------------------------------

  /** Lines 38-94 make exactly one long poll and send no notice: the inner calls. */
  predicate Inner(e: Effect) {
    !e.LongPoll? && !e.SendError?
  }

  predicate AllInner(calls: seq<Effect>) {
    forall k :: 0 <= k < |calls| ==> Inner(calls[k])
  }

  /** `p` is the old `pts`, one more, or a `new_pts` of one of the two fetches. */
  predicate PtsMoved(c: Cursor, r: Responses, p: int) {
    || p == c.pts || p == c.pts + 1
    || (r.fetch.Returned? && r.fetch.value.newPts == Some(p))
    || (r.refetch.Returned? && r.refetch.value.newPts == Some(p))
  }

  lemma AllInnerAppend(a: seq<Effect>, b: seq<Effect>)
    requires AllInner(a) && AllInner(b)
    ensures AllInner(a + b)
  {
    assert forall k :: |a| <= k < |a + b| ==> (a + b)[k] == b[k - |a|];
  }

  lemma ReauthInner(c: Cursor, cookie: string, user: Answer<string>, longPoll: Answer<Credentials>)
    ensures var s := Reauth(c, cookie, user, longPoll);
            AllInner(s.calls) && s.cursor.pts == c.pts
  {
  }

  lemma FetchInner(c: Cursor, cfg: Config, r: Responses)
    ensures var f := Fetch(c, cfg, r);
            && AllInner(f.calls) && f.cursor.pts == c.pts
            && (f.result.Some? ==> r.fetch == Returned(f.result.value) || r.refetch == Returned(f.result.value))
  {
    ReauthInner(c, cfg.cookie, r.userAuth, r.longPollAuth);
    if r.fetch.Returned? && r.fetch.value.error {
      var auth := Reauth(c, cfg.cookie, r.userAuth, r.longPollAuth);
      AllInnerAppend([GetMessage(c.accessToken, c.pts)], auth.calls);
      AllInnerAppend([GetMessage(c.accessToken, c.pts)] + auth.calls, [GetMessage(auth.cursor.accessToken, c.pts)]);
    }
  }

  lemma DeliverInner(c: Cursor, cfg: Config, r: Responses, build: Build)
    ensures var d := Deliver(c, cfg, r, build);
            AllInner(d.calls) && PtsMoved(c, r, d.cursor.pts)
  {
    var f := Fetch(c, cfg, r);
    FetchInner(c, cfg, r);
    if f.result.Some? {
      var reply := f.result.value;
      if reply.items.Some? && reply.profiles.Some? && reply.title.Some? && reply.items.value != [] {
        var items, profiles := reply.items.value, reply.profiles.value;
        var item := items[|items| - 1];
        var title := Text(TitleText(reply.title.value));
        var built := f.calls + [BuildMessage(item, profiles, title)];
        AllInnerAppend(f.calls, [BuildMessage(item, profiles, title)]);
        if build(item, profiles, title).Returned? {
          AllInnerAppend(built, [SendMessage(build(item, profiles, title).value, cfg.tgChatId, cfg.tgTopicId)]);
        }
      }
    }
  }

  lemma EventInner(c: Cursor, cfg: Config, r: Responses, build: Build, e: Event)
    ensures var s := OnEvent(c, cfg, r, build, e);
            AllInner(s.calls) && PtsMoved(c, r, s.cursor.pts)
  {
    if e.Tagged? && e.tag == NewMessageTag && e.chatId.Some? && Allowed(cfg.vkChatIds, e.chatId.value) {
      DeliverInner(c, cfg, r, build);
    }
  }

  lemma FailedInner(c: Cursor, cfg: Config, r: Responses, req: PollReply)
    ensures var s := OnFailed(c, cfg, r, req);
            AllInner(s.calls) && s.cursor.pts == c.pts
  {
    ReauthInner(c, cfg.cookie, r.resyncUserAuth, r.resyncLongPollAuth);
  }

  /** The body of the `try` polls first, and only there. */
  lemma AttemptInner(server: string, cfg: Config, c: Cursor, r: Responses, build: Build)
    ensures var a := Attempt(server, cfg, c, r, build);
            && a.calls != [] && a.calls[0] == LongPoll(Url(server), Form(c))
            && AllInner(a.calls[1..]) && PtsMoved(c, r, a.cursor.pts)
  {
    var a := Attempt(server, cfg, c, r, build);
    var polled := [LongPoll(Url(server), Form(c))];
    if r.poll.Returned? {
      var req := r.poll.value;
      var ev :=
        if req.updates == [] then Stage(c, [], Some(Idle))
        else if req.ts.None? then Stage(c, [], None)
        else OnEvent(c.(ts := req.ts.value), cfg, r, build, req.updates[0]);
      if req.updates != [] && req.ts.Some? {
        EventInner(c.(ts := req.ts.value), cfg, r, build, req.updates[0]);
      }
      assert AllInner(ev.calls) && PtsMoved(c, r, ev.cursor.pts);
      if ev.result.None? {
        assert a.calls == polled + ev.calls;
        assert a.calls[1..] == ev.calls;
      } else {
        var f := OnFailed(ev.cursor, cfg, r, req);
        FailedInner(ev.cursor, cfg, r, req);
        AllInnerAppend(ev.calls, f.calls);
        assert a.calls == polled + (ev.calls + f.calls);
        assert a.calls[1..] == ev.calls + f.calls;
      }
    }
  }

  lemma AttemptHasNoNotice(server: string, cfg: Config, c: Cursor, r: Responses, build: Build)
    ensures var a := Attempt(server, cfg, c, r, build);
            forall k :: 0 <= k < |a.calls| ==> !a.calls[k].SendError?
  {
    AttemptInner(server, cfg, c, r, build);
    var a := Attempt(server, cfg, c, r, build);
    assert forall k :: 1 <= k < |a.calls| ==> a.calls[k] == a.calls[1..][k - 1];
  }

  /**
   * An iteration sends the error notice exactly when its body raised, exactly
   * once, as its last call.
   */
  lemma OneNoticePerFailure(server: string, cfg: Config, c: Cursor, r: Responses, build: Build)
    ensures var it := Iteration(server, cfg, c, r, build);
            && Count(it.calls, IsNotice) == (if Caught(it.outcome) then 1 else 0)
            && (Caught(it.outcome) <==> Attempt(server, cfg, c, r, build).result.None?)
            && (Caught(it.outcome) ==> it.calls[|it.calls| - 1] == SendError(cfg.tgChatId, cfg.tgTopicId))
  {
    var a := Attempt(server, cfg, c, r, build);
    AttemptHasNoNotice(server, cfg, c, r, build);
    CountNone(a.calls, IsNotice);
    if a.result.None? {
      var tail := [SendError(cfg.tgChatId, cfg.tgTopicId)];
      CountAppend(a.calls, tail, IsNotice);
    }
  }

  /** Every iteration is exactly one long poll, at the start, to the same server. */
  lemma OnePollFirst(server: string, cfg: Config, c: Cursor, r: Responses, build: Build)
    ensures var it := Iteration(server, cfg, c, r, build);
            && it.calls != [] && it.calls[0] == LongPoll(Url(server), Form(c))
            && forall k :: 0 < k < |it.calls| ==> !it.calls[k].LongPoll?
  {
    AttemptInner(server, cfg, c, r, build);
    var a := Attempt(server, cfg, c, r, build);
    var it := Iteration(server, cfg, c, r, build);
    assert it.calls[..|a.calls|] == a.calls;
    assert forall k :: 1 <= k < |a.calls| ==> a.calls[k] == a.calls[1..][k - 1];
  }

  /** `pts` moves at most once: by one, or to a `new_pts` the server sent. */
  lemma PtsMovesOnce(server: string, cfg: Config, c: Cursor, r: Responses, build: Build)
    ensures var p := Iteration(server, cfg, c, r, build).cursor.pts;
            || p == c.pts || p == c.pts + 1
            || (r.fetch.Returned? && r.fetch.value.newPts == Some(p))
            || (r.refetch.Returned? && r.refetch.value.newPts == Some(p))
  {
    AttemptInner(server, cfg, c, r, build);
    assert Iteration(server, cfg, c, r, build).cursor == Attempt(server, cfg, c, r, build).cursor;
  }

  /** State assigned before a failure is kept: `pts` has advanced when `items` is empty (line 77). */
  lemma KeptAfterEmptyItems(server: string, cfg: Config, c: Cursor, r: Responses, build: Build, req: PollReply,
                            t: int, chat: int, reply: MessageReply)
    requires r.poll == Returned(req) && req.updates != [] && req.ts == Some(t)
    requires req.updates[0] == Tagged(4, Some(chat)) && Allowed(cfg.vkChatIds, chat)
    requires r.fetch == Returned(reply) && !reply.error
    requires reply.items == Some([]) && reply.profiles.Some? && reply.title.Some?
    ensures var it := Iteration(server, cfg, c, r, build);
            && it.cursor == c.(ts := t, pts := reply.newPts.GetOr(c.pts + 1))
            && Caught(it.outcome)
            && it.calls == [LongPoll(Url(server), Form(c)), GetMessage(c.accessToken, c.pts),
                            SendError(cfg.tgChatId, cfg.tgTopicId)]
  {
  }

  /** State assigned before a failure is kept: a retry that still lacks `items` leaves the new credentials. */
  lemma KeptAfterFailedRetry(server: string, cfg: Config, c: Cursor, r: Responses, build: Build, req: PollReply,
                             t: int, chat: int, token: string, cred: Credentials, again: MessageReply)
    requires r.poll == Returned(req) && req.updates != [] && req.ts == Some(t)
    requires req.updates[0] == Tagged(4, Some(chat)) && Allowed(cfg.vkChatIds, chat)
    requires r.fetch.Returned? && r.fetch.value.error
    requires r.userAuth == Returned(token) && r.longPollAuth == Returned(cred)
    requires r.refetch == Returned(again) && again.items.None?
    ensures var it := Iteration(server, cfg, c, r, build);
            && it.cursor == Cursor(cred.key, cred.ts, c.pts, token)
            && Caught(it.outcome)
            && it.calls == [LongPoll(Url(server), Form(c)), GetMessage(c.accessToken, c.pts),
                            GetUserCredentials(cfg.cookie), GetCredentials(token), GetMessage(token, c.pts),
                            SendError(cfg.tgChatId, cfg.tgTopicId)]
  {
  }

  // ---------------------------------------------------------------------------
  // Several iterations (lines 34-97)
  // ---------------------------------------------------------------------------

  function CountOutcomes(os: seq<Outcome>, p: Outcome -> bool): nat
    decreases |os|
  {
    if os == [] then 0 else (if p(os[0]) then 1 else 0) + CountOutcomes(os[1..], p)
  }

  /**
   * The loop goes on after every caught exception: it runs all iterations it
   * is given unless `send_error` itself raises, which ends it right there.
   */
  lemma {:induction false} RunContinues(server: string, cfg: Config, c: Cursor, script: seq<Responses>, build: Build)
    ensures var t := Run(server, cfg, c, script, build);
            && |t.outcomes| <= |script|
            && (|t.outcomes| < |script| ==> t.outcomes != [] && t.outcomes[|t.outcomes| - 1].Stopped?)
            && forall k :: 0 <= k < |t.outcomes| - 1 ==> !t.outcomes[k].Stopped?
    decreases |script|
  {
    if script != [] {
      RunContinues(server, cfg, Iteration(server, cfg, c, script[0], build).cursor, script[1..], build);
    }
  }

  /** One long poll per iteration, always to `https://{server}`: `server` never changes. */
  lemma {:induction false} RunPollsOneServer(server: string, cfg: Config, c: Cursor, script: seq<Responses>, build: Build)
    ensures var t := Run(server, cfg, c, script, build);
            && Count(t.calls, IsPoll) == |t.outcomes|
            && forall k :: 0 <= k < |t.calls| && t.calls[k].LongPoll? ==> t.calls[k].url == Url(server)
    decreases |script|
  {
    if script != [] {
      var it := Iteration(server, cfg, c, script[0], build);
      OnePollFirst(server, cfg, c, script[0], build);
      assert Count(it.calls, IsPoll) == 1 by {
        CountNone(it.calls[1..], IsPoll);
      }
      if !it.outcome.Stopped? {
        RunPollsOneServer(server, cfg, it.cursor, script[1..], build);
        var rest := Run(server, cfg, it.cursor, script[1..], build);
        CountAppend(it.calls, rest.calls, IsPoll);
      }
    }
  }

  /** One error notice per caught exception over a whole run. */
  lemma {:induction false} RunNotices(server: string, cfg: Config, c: Cursor, script: seq<Responses>, build: Build)
    ensures var t := Run(server, cfg, c, script, build);
            Count(t.calls, IsNotice) == CountOutcomes(t.outcomes, Caught)
    decreases |script|
  {
    if script != [] {
      var it := Iteration(server, cfg, c, script[0], build);
      OneNoticePerFailure(server, cfg, c, script[0], build);
      if !it.outcome.Stopped? {
        RunNotices(server, cfg, it.cursor, script[1..], build);
        var rest := Run(server, cfg, it.cursor, script[1..], build);
        CountAppend(it.calls, rest.calls, IsNotice);
        assert ([it.outcome] + rest.outcomes)[1..] == rest.outcomes;
      }
    }
  }
}
