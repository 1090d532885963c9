/**
 * The long-poll relay loop of `main.py`.
 *
 * One iteration of `while True` is described twice: by the functions
 * `Reauth` ... `Iteration`, which say what the iteration does to the cursor
 * and which calls it makes, and by the class `RelayLoop`, whose methods do the
 * same thing step by step on mutable fields, as the Python does on `data`,
 * `pts` and `access_token`. Every network call is answered by a field of
 * `Responses`; the calls themselves, with their arguments, are recorded as a
 * trace of `Effect`s.
 */
module Relay {
  import opened Vk
  import opened PyText

  // ---------------------------------------------------------------------------
  // Data
  // ---------------------------------------------------------------------------

  /**
   * One entry of `updates`. `Untagged` is an empty tuple (`event[0]` raises).
   * For a tagged tuple, `chatId` is what `EventMessage(*event)` yields as
   * `chat_id`, or `None` when that constructor raises.
   */
  datatype Event = Tagged(tag: int, chatId: Option<int>) | Untagged

  /** The JSON answer of the long poll; an absent `updates` is the empty list. */
  datatype PollReply = PollReply(updates: seq<Event>, ts: Option<int>, failed: Option<int>)

  /**
   * The answer of `get_message`: a truthy `error` field, and the keys
   * `items`, `profiles`, `title` (`None` when absent) and `new_pts`.
   */
  datatype MessageReply = MessageReply(
    error: bool,
    items: Option<seq<Item>>,
    profiles: Option<seq<Profile>>,
    title: Option<Title>,
    newPts: Option<int>)

  /** The two fields of `get_credentials`' answer that the loop reads. */
  datatype Credentials = Credentials(ts: int, key: string)

  /** The arguments of `main` that never change. */
  datatype Config = Config(vkChatIds: string, cookie: string, tgChatId: string, tgTopicId: Option<string>)

  /** The state the loop carries from one iteration to the next (`server` aside). */
  datatype Cursor = Cursor(key: string, ts: int, pts: int, accessToken: string)

  /** The form `data` posted to the long-poll server. */
  datatype PollForm = PollForm(act: string, key: string, ts: int, wait: int)

  /** A call the loop makes into code outside the model, with its arguments. */
  datatype Effect =
    | LongPoll(url: string, form: PollForm)
    | GetMessage(accessToken: string, pts: int)
    | GetUserCredentials(cookie: string)
    | GetCredentials(accessToken: string)
    | BuildMessage(item: Item, profiles: seq<Profile>, title: Title)
    | SendMessage(message: Message, chatId: string, topicId: Option<string>)
    | SendError(chatId: string, topicId: Option<string>)

  /**
   * What each call site of one iteration answers: the poll (line 37), the
   * fetch and its retry (53, 61), the re-authentication after a fetch error
   * (56-57) and after `failed == 2` (91-92), `send_message` (81) and
   * `send_error` (96).
   */
  datatype Responses = Responses(
    poll: Answer<PollReply>,
    fetch: Answer<MessageReply>,
    userAuth: Answer<string>,
    longPollAuth: Answer<Credentials>,
    refetch: Answer<MessageReply>,
    send: Answer<()>,
    resyncUserAuth: Answer<string>,
    resyncLongPollAuth: Answer<Credentials>,
    notice: Answer<()>)

  /** How an iteration ended. `Stopped`: `send_error` raised, which ends `main`. */
  datatype Outcome =
    | Idle
    | Ignored(tag: int)
    | Filtered(chatId: int)
    | Delivered(message: Message)
    | Notified
    | Stopped

  /** A part of an iteration: the cursor and the calls so far; `result` is `None` when it raised. */
  datatype Stage<T> = Stage(cursor: Cursor, calls: seq<Effect>, result: Option<T>)

  datatype Report = Report(cursor: Cursor, calls: seq<Effect>, outcome: Outcome)

  /** Several iterations in a row. */
  datatype Trace = Trace(cursor: Cursor, outcomes: seq<Outcome>, calls: seq<Effect>)

  // ---------------------------------------------------------------------------
  // One iteration, as functions
  // ---------------------------------------------------------------------------

  const NewMessageTag := 4

  function Url(server: string): string {
    "https://" + server
  }

  function Form(c: Cursor): PollForm {
    PollForm("a_check", c.key, c.ts, 10)
  }

  /** `"".join(vk_chat_ids.split()).split(",")`. */
  function AllowList(vkChatIds: string): seq<string> {
    Split(Concat(Fields(vkChatIds)), ',')
  }

  predicate Allowed(vkChatIds: string, chatId: int) {
    IntToString(chatId) in AllowList(vkChatIds)
  }

  /** `"" if not chat_title else f"{chat_title}"`. */
  function TitleText(t: Title): string {
    match t
    case Null => ""
    case Text(s) => s
  }

  /** Lines 56-59 and 91-94: a fresh access token, then a fresh `ts` and `key`. */
  function Reauth(c: Cursor, cookie: string, user: Answer<string>, longPoll: Answer<Credentials>): Stage<()> {
    match user
    case Raised => Stage(c, [GetUserCredentials(cookie)], None)
    case Returned(token) =>
      var c1 := c.(accessToken := token);
      var calls := [GetUserCredentials(cookie), GetCredentials(token)];
      match longPoll
      case Raised => Stage(c1, calls, None)
      case Returned(cred) => Stage(c1.(ts := cred.ts, key := cred.key), calls, Some(()))
  }

  /** Lines 53-65: the fetch, and after an `error` reply one re-authentication and one retry. */
  function Fetch(c: Cursor, cfg: Config, r: Responses): Stage<MessageReply> {
    var first := [GetMessage(c.accessToken, c.pts)];
    match r.fetch
    case Raised => Stage(c, first, None)
    case Returned(reply) =>
      if !reply.error then Stage(c, first, Some(reply))
      else
        var auth := Reauth(c, cfg.cookie, r.userAuth, r.longPollAuth);
        var calls := first + auth.calls;
        if auth.result.None? then Stage(auth.cursor, calls, None)
        else
          var retried := calls + [GetMessage(auth.cursor.accessToken, c.pts)];
          match r.refetch
          case Raised => Stage(auth.cursor, retried, None)
          case Returned(again) => Stage(auth.cursor, retried, Some(again))
  }

  /** Lines 53-81: fetch, advance `pts`, build from the last item and send. */
  function Deliver(c: Cursor, cfg: Config, r: Responses, build: Build): Stage<Message> {
    var f := Fetch(c, cfg, r);
    match f.result
    case None => Stage(f.cursor, f.calls, None)
    case Some(reply) =>
      if reply.items.None? || reply.profiles.None? || reply.title.None? then Stage(f.cursor, f.calls, None)
      else
        var items, profiles := reply.items.value, reply.profiles.value;
        var advanced := f.cursor.(pts := reply.newPts.GetOr(f.cursor.pts + 1));
        if items == [] then Stage(advanced, f.calls, None)
        else
          var item := items[|items| - 1];
          var title := Text(TitleText(reply.title.value));
          var built := f.calls + [BuildMessage(item, profiles, title)];
          match build(item, profiles, title)
          case Raised => Stage(advanced, built, None)
          case Returned(msg) =>
            var sent := built + [SendMessage(msg, cfg.tgChatId, cfg.tgTopicId)];
            Stage(advanced, sent, if r.send.Raised? then None else Some(msg))
  }

  /** Lines 46-83: what the first update of a poll leads to. */
  function OnEvent(c: Cursor, cfg: Config, r: Responses, build: Build, e: Event): Stage<Outcome> {
    match e
    case Untagged => Stage(c, [], None)
    case Tagged(tag, chat) =>
      if tag != NewMessageTag then Stage(c, [], Some(Ignored(tag)))
      else if chat.None? then Stage(c, [], None)
      else if !Allowed(cfg.vkChatIds, chat.value) then
        Stage(c.(pts := c.pts + 1), [], Some(Filtered(chat.value)))
      else
        var d := Deliver(c, cfg, r, build);
        Stage(d.cursor, d.calls, if d.result.Some? then Some(Delivered(d.result.value)) else None)
  }

  /** Lines 85-94: the `failed` field of the poll answer. */
  function OnFailed(c: Cursor, cfg: Config, r: Responses, req: PollReply): Stage<()> {
    if req.failed == Some(1) then
      if req.ts.None? then Stage(c, [], None) else Stage(c.(ts := req.ts.value), [], Some(()))
    else if req.failed == Some(2) then
      Reauth(c, cfg.cookie, r.resyncUserAuth, r.resyncLongPollAuth)
    else Stage(c, [], Some(()))
  }

  /** Lines 37-94: the body of the `try`. */
  function Attempt(server: string, cfg: Config, c: Cursor, r: Responses, build: Build): Stage<Outcome> {
    var polled := [LongPoll(Url(server), Form(c))];
    match r.poll
    case Raised => Stage(c, polled, None)
    case Returned(req) =>
      var ev :=
        if req.updates == [] then Stage(c, [], Some(Idle))
        else if req.ts.None? then Stage(c, [], None)
        else OnEvent(c.(ts := req.ts.value), cfg, r, build, req.updates[0]);
      match ev.result
      case None => Stage(ev.cursor, polled + ev.calls, None)
      case Some(outcome) =>
        var f := OnFailed(ev.cursor, cfg, r, req);
        Stage(f.cursor, polled + ev.calls + f.calls, if f.result.None? then None else Some(outcome))
  }

  /** Lines 36-97: one iteration, with the `except` that sends the error notice. */
  function Iteration(server: string, cfg: Config, c: Cursor, r: Responses, build: Build): Report {
    var a := Attempt(server, cfg, c, r, build);
    match a.result
    case Some(outcome) => Report(a.cursor, a.calls, outcome)
    case None =>
      Report(a.cursor, a.calls + [SendError(cfg.tgChatId, cfg.tgTopicId)],
             if r.notice.Raised? then Stopped else Notified)
  }

  /** Lines 34-97: the loop, one `Responses` per iteration, until they run out or `main` stops. */
  function Run(server: string, cfg: Config, c: Cursor, script: seq<Responses>, build: Build): Trace
    decreases |script|
  {
    if script == [] then Trace(c, [], [])
    else
      var it := Iteration(server, cfg, c, script[0], build);
      if it.outcome.Stopped? then Trace(it.cursor, [Stopped], it.calls)
      else
        var rest := Run(server, cfg, it.cursor, script[1..], build);
        Trace(rest.cursor, [it.outcome] + rest.outcomes, it.calls + rest.calls)
  }

  /** `Run` after one iteration whose report is known. */
  lemma RunStep(server: string, cfg: Config, c: Cursor, script: seq<Responses>, build: Build, it: Report)
    requires script != [] && it == Iteration(server, cfg, c, script[0], build)
    ensures Run(server, cfg, c, script, build) ==
            if it.outcome.Stopped? then Trace(it.cursor, [Stopped], it.calls)
            else
              var rest := Run(server, cfg, it.cursor, script[1..], build);
              Trace(rest.cursor, [it.outcome] + rest.outcomes, it.calls + rest.calls)
  {
  }

  // ---------------------------------------------------------------------------
  // The loop itself, on mutable state
  // ---------------------------------------------------------------------------

  class RelayLoop {
    const server: string
    const config: Config
    var key: string           // data["key"]
    var ts: int               // data["ts"]
    var pts: int
    var accessToken: string

    function State(): Cursor
      reads this
    {
      Cursor(key, ts, pts, accessToken)
    }

    /** Lines 13-32: the arguments of `main` and the form `data`. */
    constructor (server: string, key: string, ts: int, config: Config, accessToken: string, pts: int)
      ensures this.server == server && this.config == config
      ensures State() == Cursor(key, ts, pts, accessToken)
    {
      this.server := server;
      this.config := config;
      this.key := key;
      this.ts := ts;
      this.pts := pts;
      this.accessToken := accessToken;
    }

    method Reauthenticate(user: Answer<string>, longPoll: Answer<Credentials>) returns (ok: bool, calls: seq<Effect>)
      modifies this
      ensures Reauth(old(State()), config.cookie, user, longPoll) == Stage(State(), calls, if ok then Some(()) else None)
    {
      calls := [GetUserCredentials(config.cookie)];
      if user.Raised? {
        return false, calls;
      }
      accessToken := user.value;
      calls := calls + [GetCredentials(accessToken)];
      if longPoll.Raised? {
        return false, calls;
      }
      ts := longPoll.value.ts;
      key := longPoll.value.key;
      ok := true;
    }

    method FetchMessage(r: Responses) returns (reply: Option<MessageReply>, calls: seq<Effect>)
      modifies this
      ensures Fetch(old(State()), config, r) == Stage(State(), calls, reply)
    {
      calls := [GetMessage(accessToken, pts)];
      if r.fetch.Raised? {
        return None, calls;
      }
      reply := Some(r.fetch.value);
      if r.fetch.value.error {
        var ok, authCalls := Reauthenticate(r.userAuth, r.longPollAuth);
        calls := calls + authCalls;
        if !ok {
          return None, calls;
        }
        calls := calls + [GetMessage(accessToken, pts)];
        if r.refetch.Raised? {
          return None, calls;
        }
        reply := Some(r.refetch.value);
      }
    }

    method DeliverMessage(r: Responses, build: Build) returns (msg: Option<Message>, calls: seq<Effect>)
      modifies this
      ensures Deliver(old(State()), config, r, build) == Stage(State(), calls, msg)
    {
      var reply;
      reply, calls := FetchMessage(r);
      if reply.None? {
        return None, calls;
      }
      var m := reply.value;
      if m.items.None? || m.profiles.None? || m.title.None? {
        return None, calls;
      }
      var items, profiles := m.items.value, m.profiles.value;
      pts := m.newPts.GetOr(pts + 1);
      var title := Text(TitleText(m.title.value));
      if items == [] {
        return None, calls;
      }
      var item := items[|items| - 1];
      calls := calls + [BuildMessage(item, profiles, title)];
      var built := build(item, profiles, title);
      if built.Raised? {
        return None, calls;
      }
      calls := calls + [SendMessage(built.value, config.tgChatId, config.tgTopicId)];
      if r.send.Raised? {
        return None, calls;
      }
      msg := Some(built.value);
    }

    method HandleEvent(r: Responses, build: Build, e: Event) returns (outcome: Option<Outcome>, calls: seq<Effect>)
      modifies this
      ensures OnEvent(old(State()), config, r, build, e) == Stage(State(), calls, outcome)
    {
      calls := [];
      match e {
        case Untagged =>
          outcome := None;
        case Tagged(tag, chat) =>
          if tag != NewMessageTag {
            outcome := Some(Ignored(tag));
          } else if chat.None? {
            outcome := None;
          } else if Allowed(config.vkChatIds, chat.value) {
            var msg;
            msg, calls := DeliverMessage(r, build);
            outcome := if msg.Some? then Some(Delivered(msg.value)) else None;
          } else {
            pts := pts + 1;
            outcome := Some(Filtered(chat.value));
          }
      }
    }

    method HandleFailed(r: Responses, req: PollReply) returns (ok: bool, calls: seq<Effect>)
      modifies this
      ensures OnFailed(old(State()), config, r, req) == Stage(State(), calls, if ok then Some(()) else None)
    {
      calls, ok := [], true;
      if req.failed == Some(1) {
        if req.ts.None? {
          return false, calls;
        }
        ts := req.ts.value;
      } else if req.failed == Some(2) {
        ok, calls := Reauthenticate(r.resyncUserAuth, r.resyncLongPollAuth);
      }
    }

    method TryIteration(r: Responses, build: Build) returns (outcome: Option<Outcome>, calls: seq<Effect>)
      modifies this
      ensures Attempt(server, config, old(State()), r, build) == Stage(State(), calls, outcome)
    {
      calls := [LongPoll(Url(server), Form(State()))];
      if r.poll.Raised? {
        return None, calls;
      }
      var req := r.poll.value;
      outcome := Some(Idle);
      if req.updates != [] {
        if req.ts.None? {
          return None, calls;
        }
        ts := req.ts.value;
        var eventCalls;
        outcome, eventCalls := HandleEvent(r, build, req.updates[0]);
        calls := calls + eventCalls;
        if outcome.None? {
          return None, calls;
        }
      }
      var ok, failedCalls := HandleFailed(r, req);
      calls := calls + failedCalls;
      if !ok {
        outcome := None;
      }
    }

    method Iterate(r: Responses, build: Build) returns (outcome: Outcome, calls: seq<Effect>)
      modifies this
      ensures Iteration(server, config, old(State()), r, build) == Report(State(), calls, outcome)
    {
      var result;
      result, calls := TryIteration(r, build);
      if result.Some? {
        outcome := result.value;
      } else {
        calls := calls + [SendError(config.tgChatId, config.tgTopicId)];
        outcome := if r.notice.Raised? then Stopped else Notified;
      }
    }

    /** The `while True` loop, fed one `Responses` per iteration. */
    method Loop(script: seq<Responses>, build: Build) returns (outcomes: seq<Outcome>, calls: seq<Effect>)
      modifies this
      ensures Run(server, config, old(State()), script, build) == Trace(State(), outcomes, calls)
    {
      ghost var start := State();
      outcomes, calls := [], [];
      var i := 0;
      while i < |script|
        invariant 0 <= i <= |script|
        invariant var rest := Run(server, config, State(), script[i..], build);
          Run(server, config, start, script, build) == Trace(rest.cursor, outcomes + rest.outcomes, calls + rest.calls)
      {
        ghost var before := State();
        var outcome, stepCalls := Iterate(script[i], build);
        RunStep(server, config, before, script[i..], build, Report(State(), stepCalls, outcome));
        assert script[i..][1..] == script[i + 1..];
        if outcome.Stopped? {
          outcomes, calls := outcomes + [outcome], calls + stepCalls;
          return;
        }
        ghost var rest := Run(server, config, State(), script[i + 1..], build);
        assert outcomes + ([outcome] + rest.outcomes) == (outcomes + [outcome]) + rest.outcomes;
        assert calls + (stepCalls + rest.calls) == (calls + stepCalls) + rest.calls;
        outcomes, calls := outcomes + [outcome], calls + stepCalls;
        i := i + 1;
      }
      assert script[i..] == [];
    }
  }
}
