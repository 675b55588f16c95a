/**
 * One tab's session (apps/law/web/src/session/session.ts): the access token it
 * holds in memory, its state, and what it tells its sibling tabs.
 */
module SessionKit {
  import opened Wrappers

  datatype Held = Held(accessToken: string, expiresAtMs: int)

  datatype Status = Starting | SignedIn | SignedOut(notice: Option<string>)

  datatype Message = TokenNews(accessToken: string, expiresAtMs: int) | SessionOver(notice: Option<string>)

  datatype Tab = Tab(held: Option<Held>, status: Status)

  /** A refresh as the client sees it: renewed, refused by the server, or no usable answer. */
  datatype RefreshResult = Fresh(accessToken: string, expiresInSeconds: int) | Refused(notice: Option<string>) | Unreachable

  const EXPIRY_SKEW_MS := 30000

  predicate IsFresh(held: Option<Held>, nowMs: int) {
    held.Some? && nowMs < held.value.expiresAtMs - EXPIRY_SKEW_MS
  }

  /** A token counts as fresh exactly when it stays good for the next half minute, this moment included. */
  lemma FreshIff(held: Option<Held>, nowMs: int)
    ensures IsFresh(held, nowMs) <==>
            held.Some? && forall t | nowMs <= t <= nowMs + 30000 :: GoodAt(held.value, t)
  {
    if held.Some? && !IsFresh(held, nowMs) {
      assert !GoodAt(held.value, nowMs + 30000);
    }
  }

  predicate GoodAt(held: Held, t: int) {
    t < held.expiresAtMs
  }

  /** A broadcast heard from a sibling; hydrating the user is a later step of its own. */
  function Hears(tab: Tab, m: Message): Tab {
    match m
    case TokenNews(accessToken, expiresAtMs) => tab.(held := Some(Held(accessToken, expiresAtMs)))
    case SessionOver(notice) => Tab(None, SignedOut(notice))
  }

  /** The token a tab holds after hearing the message. */
  function TokenIn(m: Message): Option<Held> {
    if m.TokenNews? then Some(Held(m.accessToken, m.expiresAtMs)) else None
  }

  /** A broadcast reaches every tab but its sender, behind what that tab was told before. */
  function Told(mail: map<nat, seq<Message>>, sender: nat, m: Message): map<nat, seq<Message>> {
    map t | t in mail :: if t == sender then mail[t] else mail[t] + [m]
  }

  function HearsAll(tab: Tab, heard: seq<Message>): Tab {
    if heard == [] then tab else Hears(HearsAll(tab, heard[..|heard| - 1]), heard[|heard| - 1])
  }

  /** Only the last message counts for the token, whatever came before it. */
  lemma LastMessageDecides(tab: Tab, heard: seq<Message>, m: Message)
    ensures HearsAll(tab, heard + [m]).held == TokenIn(m)
  {
    assert (heard + [m])[..|heard|] == heard;
  }

  /** What the tab tells its siblings about a refresh it asked for. */
  function News(result: RefreshResult, answeredMs: int): Option<Message> {
    match result
    case Fresh(accessToken, expiresInSeconds) => Some(TokenNews(accessToken, answeredMs + expiresInSeconds * 1000))
    case Refused(notice) => Some(SessionOver(notice))
    case Unreachable => None
  }

  class Kit {
    var token: Option<Held>
    var state: Status
    var outbox: seq<Message>

    function View(): Tab
      reads this
    {
      Tab(token, state)
    }

    constructor ()
      ensures View() == Tab(None, Starting) && outbox == []
    {
      token, state, outbox := None, Starting, [];
    }

    method AdoptToken(accessToken: string, expiresAtMs: int, broadcastIt: bool)
      modifies this
      ensures View() == Hears(old(View()), TokenNews(accessToken, expiresAtMs))
      ensures outbox == old(outbox) + if broadcastIt then [TokenNews(accessToken, expiresAtMs)] else []
    {
      token := Some(Held(accessToken, expiresAtMs));
      if broadcastIt {
        outbox := outbox + [TokenNews(accessToken, expiresAtMs)];
      }
    }

    method EndSession(notice: Option<string>, broadcastIt: bool)
      modifies this
      ensures View() == Hears(old(View()), SessionOver(notice))
      ensures outbox == old(outbox) + if broadcastIt then [SessionOver(notice)] else []
    {
      token := None;
      state := SignedOut(notice);
      if broadcastIt {
        outbox := outbox + [SessionOver(notice)];
      }
    }

    /** A sibling's message is applied and never passed on. */
    method OnBroadcast(m: Message)
      modifies this
      ensures View() == Hears(old(View()), m) && outbox == old(outbox)
    {
      match m
      case TokenNews(accessToken, expiresAtMs) => AdoptToken(accessToken, expiresAtMs, false);
      case SessionOver(notice) => EndSession(notice, false);
    }

    /**
     * A usable access token: `heard` arrives while the tab queues for the lock,
     * and `result` is the server's answer should the tab have to ask. It asks only
     * when neither its own token nor the last one heard is usable, and every
     * outcome of asking is told to the siblings.
     */
    method GetAccessToken(nowMs: int, heard: seq<Message>, lockedMs: int, result: RefreshResult, answeredMs: int)
      returns (accessToken: Option<string>, asked: bool)
      modifies this
      ensures asked <==> !IsFresh(old(token), nowMs) && !IsFresh(HearsAll(old(View()), heard).held, lockedMs)
      ensures IsFresh(old(token), nowMs) ==> View() == old(View()) && accessToken == Some(old(token).value.accessToken)
      ensures !IsFresh(old(token), nowMs) && !asked ==>
                View() == HearsAll(old(View()), heard) && accessToken == Some(View().held.value.accessToken)
      ensures asked ==>
                && (accessToken == if result.Fresh? then Some(result.accessToken) else None)
                && (News(result, answeredMs).Some? ==>
                      View() == Hears(HearsAll(old(View()), heard), News(result, answeredMs).value)
                      && outbox == old(outbox) + [News(result, answeredMs).value])
                && (News(result, answeredMs).None? ==> View() == HearsAll(old(View()), heard))
      ensures !asked || result.Unreachable? ==> outbox == old(outbox)
    {
      asked, accessToken := false, None;
      if IsFresh(token, nowMs) {
        accessToken := Some(token.value.accessToken);
        return;
      }
      for i := 0 to |heard|
        invariant View() == HearsAll(old(View()), heard[..i]) && outbox == old(outbox)
      {
        OnBroadcast(heard[i]);
        assert heard[..i + 1][..i] == heard[..i];
      }
      assert heard[..|heard|] == heard;
      if IsFresh(token, lockedMs) {
        accessToken := Some(token.value.accessToken);
        return;
      }
      asked := true;
      match result
      case Fresh(renewed, expiresInSeconds) =>
        AdoptToken(renewed, answeredMs + expiresInSeconds * 1000, true);
        accessToken := Some(renewed);
      case Refused(notice) => EndSession(notice, true);
      case Unreachable =>
    }

    method SignIn(accessToken: string, expiresInSeconds: int, answeredMs: int)
      modifies this
      ensures token == Some(Held(accessToken, answeredMs + expiresInSeconds * 1000)) && state == SignedIn
      ensures outbox == old(outbox) + [TokenNews(accessToken, answeredMs + expiresInSeconds * 1000)]
    {
      AdoptToken(accessToken, answeredMs + expiresInSeconds * 1000, true);
      state := SignedIn;
    }

    /** Ends the session here and in every tab, whether or not the server was reached. */
    method SignOut()
      modifies this
      ensures View() == Tab(None, SignedOut(None)) && outbox == old(outbox) + [SessionOver(None)]
    {
      EndSession(None, true);
    }
  }
}
