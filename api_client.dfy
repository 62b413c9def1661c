/**
 * The intercepted HTTP client of the front end (services/api.ts), as a
 * sequential event system on one event loop.
 *
 * State: the credential store, the single `refreshPromise` slot, the
 * per-request `_retry` bit, the number of refresh calls put on the network,
 * and whether the page was sent to the login route. Events: a request is
 * sent (request interceptor), a response succeeds, a response fails with
 * some status (response interceptor), and the shared refresh settles.
 * Each event is a pure step function over `State`; the class `Client`
 * performs the same steps in place and is proved against them.
 */
module ApiClient {
  import opened Common
  import opened Storage
  import AuthClient

  const AUTHORIZATION: string := "Authorization"
  const BEARER: string := "Bearer "
  const UNAUTHORIZED: int := 401

  /** The shared refresh: nothing in flight, or one call carrying this refresh token. */
  datatype Slot = Idle | InFlight(refreshToken: string)

  /** Why a request was rejected to its caller. */
  datatype ClientError =
    | Original(status: Option<int>)   // the error as the transport produced it (None: no response)
    | SessionExpired                  // "Session expired, redirecting to login"

  datatype Outcome = Fulfilled | Rejected(error: ClientError)

  datatype Phase =
    | Pending          // on the network, waiting for the server
    | Waiting          // waiting for the shared refresh to settle
    | Done(outcome: Outcome)

  /** One outbound call: its headers, the `_retry` bit and how often it was put on the network. */
  datatype Request = Request(headers: map<string, string>, retried: bool, sends: nat, phase: Phase)

  /** One field of the refresh response body as JavaScript sees it. */
  datatype Field = Absent | Text(text: string) | NotText

  /** How the POST to the refresh endpoint ended. */
  datatype RefreshReply =
    | Failed                                    // network error, timeout or non-2xx status
    | Reply(accessToken: Field, refreshToken: Field)

  datatype State = State(
    items: map<string, string>,
    slot: Slot,
    requests: seq<Request>,
    refreshCalls: nat,
    redirected: bool)

  /** Request interceptor: attach the stored access token when it is non-empty. */
  function WithBearer(items: map<string, string>, headers: map<string, string>): (h: map<string, string>)
    ensures AuthClient.IsAuthenticated(items) ==> h == headers[AUTHORIZATION := BEARER + items[ACCESS_KEY]]
    ensures !AuthClient.IsAuthenticated(items) ==> h == headers
  {
    match AuthClient.GetAccessToken(items)
    case Some(token) => if token != "" then headers[AUTHORIZATION := BEARER + token] else headers
    case None => headers
  }

  /** The refresh token `refreshAccessToken` would send; a missing or empty one means none. */
  function StoredRefreshToken(items: map<string, string>): (r: Option<string>)
    ensures r.Some? <==> REFRESH_KEY in items && items[REFRESH_KEY] != ""
    ensures r.Some? ==> r.value == items[REFRESH_KEY]
  {
    if REFRESH_KEY in items && items[REFRESH_KEY] != "" then Some(items[REFRESH_KEY]) else None
  }

  /** The new pair in a refresh reply, when both fields are non-empty strings. */
  function NewPair(reply: RefreshReply): (p: Option<(string, string)>)
    ensures p.Some? <==>
      && reply.Reply?
      && reply.accessToken.Text? && reply.accessToken.text != ""
      && reply.refreshToken.Text? && reply.refreshToken.text != ""
    ensures p.Some? ==> p.value == (reply.accessToken.text, reply.refreshToken.text)
  {
    match reply
    case Failed => None
    case Reply(access, refresh) =>
      if access.Text? && access.text != "" && refresh.Text? && refresh.text != ""
      then Some((access.text, refresh.text))
      else None
  }

  predicate IsPending(s: State, id: nat) {
    id < |s.requests| && s.requests[id].phase.Pending?
  }

  predicate NoWaiters(requests: seq<Request>) {
    forall i :: 0 <= i < |requests| ==> !requests[i].phase.Waiting?
  }

  /** A request is put on the network once, and once more only after it was marked retried. */
  predicate RequestOk(r: Request) {
    && 1 <= r.sends <= (if r.retried then 2 else 1)
    && (r.phase.Waiting? ==> r.retried && r.sends == 1)
  }

  /** The slot is set exactly while some request waits on it. */
  ghost predicate Inv(s: State) {
    && (s.slot.Idle? <==> NoWaiters(s.requests))
    && (forall i :: 0 <= i < |s.requests| ==> RequestOk(s.requests[i]))
  }

  function InitialState(items: map<string, string>): State {
    State(items, Idle, [], 0, false)
  }

  /** Event: a call goes out through the request interceptor. */
  function SendStep(s: State, headers: map<string, string>): State {
    s.(requests := s.requests + [Request(WithBearer(s.items, headers), false, 1, Pending)])
  }

  /** Event: the server answered a pending request with success. */
  function SucceedStep(s: State, id: nat): State
    requires IsPending(s, id)
  {
    s.(requests := s.requests[id := s.requests[id].(phase := Done(Fulfilled))])
  }

  /** Event: a pending request failed; the response interceptor's error path. */
  function FailStep(s: State, id: nat, status: Option<int>): State
    requires IsPending(s, id)
  {
    var r := s.requests[id];
    if status == Some(UNAUTHORIZED) && !r.retried then
      var marked := r.(retried := true);
      if s.slot.InFlight? then
        s.(requests := s.requests[id := marked.(phase := Waiting)])
      else
        match StoredRefreshToken(s.items)
        case None =>
          // refreshAccessToken throws before any network call; the catch clears and redirects
          s.(items := AuthClient.Cleared(s.items), redirected := true,
             requests := s.requests[id := marked.(phase := Done(Rejected(SessionExpired)))])
        case Some(token) =>
          s.(slot := InFlight(token), refreshCalls := s.refreshCalls + 1,
             requests := s.requests[id := marked.(phase := Waiting)])
    else
      s.(requests := s.requests[id := r.(phase := Done(Rejected(Original(status))))])
  }

  /** A waiter resumes with the new access token and is sent again through the interceptor. */
  function Resume(r: Request, items: map<string, string>, access: string): Request {
    if r.phase.Waiting? then
      r.(headers := WithBearer(items, r.headers[AUTHORIZATION := BEARER + access]),
         sends := r.sends + 1, phase := Pending)
    else r
  }

  /** A waiter's catch block rejects it with the session-expired error. */
  function Expire(r: Request): Request {
    if r.phase.Waiting? then r.(phase := Done(Rejected(SessionExpired))) else r
  }

  function ResumeAll(rs: seq<Request>, items: map<string, string>, access: string): (out: seq<Request>)
    ensures |out| == |rs|
    ensures forall i :: 0 <= i < |rs| ==> out[i] == Resume(rs[i], items, access)
  {
    seq(|rs|, i requires 0 <= i < |rs| => Resume(rs[i], items, access))
  }

  function ExpireAll(rs: seq<Request>): (out: seq<Request>)
    ensures |out| == |rs|
    ensures forall i :: 0 <= i < |rs| ==> out[i] == Expire(rs[i])
  {
    seq(|rs|, i requires 0 <= i < |rs| => Expire(rs[i]))
  }

  /** Event: the shared refresh settles with this reply. */
  function SettleStep(s: State, reply: RefreshReply): State
    requires s.slot.InFlight?
  {
    match NewPair(reply)
    case Some((access, refresh)) =>
      var items := s.items[ACCESS_KEY := access][REFRESH_KEY := refresh];
      s.(items := items, slot := Idle, requests := ResumeAll(s.requests, items, access))
    case None =>
      s.(items := AuthClient.Cleared(s.items), slot := Idle, redirected := true,
         requests := ExpireAll(s.requests))
  }

  // ---------------------------------------------------------------------------
  // The invariant is kept by every event

  lemma InitialInv(items: map<string, string>)
    ensures Inv(InitialState(items))
  {
  }

  lemma SendPreservesInv(s: State, headers: map<string, string>)
    requires Inv(s)
    ensures Inv(SendStep(s, headers))
  {
    var t := SendStep(s, headers);
    assert forall i :: 0 <= i < |s.requests| ==> t.requests[i] == s.requests[i];
  }

  lemma SucceedPreservesInv(s: State, id: nat)
    requires Inv(s) && IsPending(s, id)
    ensures Inv(SucceedStep(s, id))
  {
    var t := SucceedStep(s, id);
    assert forall i :: 0 <= i < |t.requests| ==> (t.requests[i].phase.Waiting? <==> s.requests[i].phase.Waiting?);
  }

  lemma FailPreservesInv(s: State, id: nat, status: Option<int>)
    requires Inv(s) && IsPending(s, id)
    ensures Inv(FailStep(s, id, status))
  {
    var t := FailStep(s, id, status);
    if t.requests[id].phase.Waiting? {
      assert t.slot.InFlight?;
      assert !NoWaiters(t.requests);
    } else {
      assert t.slot == s.slot;
      assert forall i :: 0 <= i < |t.requests| ==> (t.requests[i].phase.Waiting? <==> s.requests[i].phase.Waiting?);
    }
  }

  lemma SettlePreservesInv(s: State, reply: RefreshReply)
    requires Inv(s) && s.slot.InFlight?
    ensures Inv(SettleStep(s, reply))
  {
  }

  // ---------------------------------------------------------------------------
  // Properties of the response interceptor

  /**
   * A refresh call is started only from an empty slot, by a first 401 with a
   * stored refresh token; a 401 arriving while the slot is set joins it.
   */
  lemma SingleFlight(s: State, id: nat, status: Option<int>)
    requires IsPending(s, id)
    ensures var t := FailStep(s, id, status);
      && (t.refreshCalls == s.refreshCalls + 1 <==>
            s.slot.Idle? && status == Some(UNAUTHORIZED) && !s.requests[id].retried
            && StoredRefreshToken(s.items).Some?)
      && (t.refreshCalls == s.refreshCalls || t.refreshCalls == s.refreshCalls + 1)
      && (s.slot.InFlight? ==> t.slot == s.slot && t.items == s.items)
  {
  }

  /** A first 401 while a refresh is in flight awaits that same refresh. */
  lemma JoinInFlight(s: State, id: nat)
    requires IsPending(s, id) && s.slot.InFlight? && !s.requests[id].retried
    ensures var t := FailStep(s, id, Some(UNAUTHORIZED));
      && t.requests[id].phase.Waiting? && t.requests[id].retried
      && t.slot == s.slot && t.refreshCalls == s.refreshCalls && t.items == s.items
  {
  }

  /**
   * Retry once: a 401 on a request already retried, and any other error,
   * is passed on unchanged and touches neither slot, store nor route.
   */
  lemma PassThrough(s: State, id: nat, status: Option<int>)
    requires IsPending(s, id)
    requires s.requests[id].retried || status != Some(UNAUTHORIZED)
    ensures var t := FailStep(s, id, status);
      && t.requests[id] == s.requests[id].(phase := Done(Rejected(Original(status))))
      && t.slot == s.slot && t.items == s.items && t.refreshCalls == s.refreshCalls
      && t.redirected == s.redirected
  {
  }

  /** With no usable refresh token the refresh fails at once, without a network call. */
  lemma NoRefreshToken(s: State, id: nat)
    requires IsPending(s, id) && s.slot.Idle? && !s.requests[id].retried
    requires StoredRefreshToken(s.items).None?
    ensures var t := FailStep(s, id, Some(UNAUTHORIZED));
      && t.refreshCalls == s.refreshCalls && t.slot.Idle?
      && t.items == AuthClient.Cleared(s.items) && t.redirected
      && t.requests[id].phase == Done(Rejected(SessionExpired))
  {
  }

  /**
   * A successful refresh overwrites both stored tokens, empties the slot and
   * resends every waiter once, now carrying the new access token.
   */
  lemma RefreshSucceeds(s: State, reply: RefreshReply, i: nat)
    requires Inv(s) && s.slot.InFlight? && NewPair(reply).Some?
    requires i < |s.requests| && s.requests[i].phase.Waiting?
    ensures var t := SettleStep(s, reply);
      && t.items[ACCESS_KEY] == NewPair(reply).value.0
      && t.items[REFRESH_KEY] == NewPair(reply).value.1
      && t.slot.Idle? && t.refreshCalls == s.refreshCalls
      && t.requests[i].phase.Pending? && t.requests[i].sends == 2
      && t.requests[i].headers[AUTHORIZATION] == BEARER + NewPair(reply).value.0
  {
  }

  /**
   * A failed or malformed refresh writes no token: the store loses both keys,
   * the page goes to the login route and every waiter gets the session-expired error.
   */
  lemma RefreshFails(s: State, reply: RefreshReply, i: nat)
    requires s.slot.InFlight? && NewPair(reply).None?
    requires i < |s.requests| && s.requests[i].phase.Waiting?
    ensures var t := SettleStep(s, reply);
      && t.items == AuthClient.Cleared(s.items)
      && !AuthClient.IsAuthenticated(t.items)
      && t.slot.Idle? && t.redirected
      && t.requests[i].phase == Done(Rejected(SessionExpired))
  {
  }

  /**
   * A login request answered with 401 (wrong password, empty store) also goes
   * through the response interceptor: it finds no refresh token, and the page
   * is sent to the login route with the session-expired error.
   */
  lemma FailedLoginRedirects(items: map<string, string>, headers: map<string, string>)
    requires StoredRefreshToken(items).None?
    ensures var s := SendStep(InitialState(items), headers);
      && IsPending(s, 0)
      && FailStep(s, 0, Some(UNAUTHORIZED)).redirected
      && FailStep(s, 0, Some(UNAUTHORIZED)).requests[0].phase == Done(Rejected(SessionExpired))
  {
  }

  // ---------------------------------------------------------------------------
  // Many requests failing together share one refresh

  predicate Distinct(ids: seq<nat>) {
    forall j, k :: 0 <= j < k < |ids| ==> ids[j] != ids[k]
  }

  /** Every id names a pending request that has not been retried yet. */
  predicate AllFresh(s: State, ids: seq<nat>) {
    && Distinct(ids)
    && forall k :: 0 <= k < |ids| ==> IsPending(s, ids[k]) && !s.requests[ids[k]].retried
  }

  /** Each of the requests receives a 401, in the order given. */
  function FailAll(s: State, ids: seq<nat>): State
    requires AllFresh(s, ids)
    decreases |ids|
  {
    if ids == [] then s
    else
      var t := FailStep(s, ids[0], Some(UNAUTHORIZED));
      assert forall k :: 0 <= k < |ids[1..]| ==> ids[1..][k] != ids[0];
      FailAll(t, ids[1..])
  }

  lemma {:induction false} JoinAll(s: State, ids: seq<nat>)
    requires AllFresh(s, ids) && s.slot.InFlight?
    ensures var t := FailAll(s, ids);
      && t.slot == s.slot && t.refreshCalls == s.refreshCalls && t.items == s.items
      && |t.requests| == |s.requests|
      && (forall k :: 0 <= k < |ids| ==> t.requests[ids[k]].phase.Waiting?)
      && (forall i :: 0 <= i < |s.requests| && i !in ids ==> t.requests[i] == s.requests[i])
    decreases |ids|
  {
    if ids != [] {
      var t := FailStep(s, ids[0], Some(UNAUTHORIZED));
      assert forall k :: 0 <= k < |ids[1..]| ==> ids[1..][k] != ids[0];
      JoinAll(t, ids[1..]);
      forall i | 0 <= i < |s.requests| && i !in ids[1..] && i != ids[0]
        ensures i !in ids
      {
      }
    }
  }

  /**
   * N requests failing with 401 while no refresh is in flight put exactly one
   * refresh call on the network, and all of them wait on it.
   */
  lemma ConcurrentFailuresShareOneRefresh(s: State, ids: seq<nat>)
    requires AllFresh(s, ids) && |ids| >= 1
    requires s.slot.Idle? && StoredRefreshToken(s.items).Some?
    ensures var t := FailAll(s, ids);
      && t.refreshCalls == s.refreshCalls + 1
      && t.slot == InFlight(s.items[REFRESH_KEY])
      && t.items == s.items
      && |t.requests| == |s.requests|
      && forall k :: 0 <= k < |ids| ==> t.requests[ids[k]].phase.Waiting?
  {
    var t := FailStep(s, ids[0], Some(UNAUTHORIZED));
    assert forall k :: 0 <= k < |ids[1..]| ==> ids[1..][k] != ids[0];
    JoinAll(t, ids[1..]);
    assert ids[0] !in ids[1..];
  }

  /**
   * ... and when that refresh succeeds, every one of them is resent once with
   * the same new access token, which the store now holds.
   */
  lemma ConcurrentFailuresResentWithSameToken(s: State, ids: seq<nat>, access: string, refresh: string)
    requires AllFresh(s, ids) && |ids| >= 1
    requires s.slot.Idle? && StoredRefreshToken(s.items).Some?
    requires access != "" && refresh != ""
    ensures FailAll(s, ids).slot.InFlight?
    ensures var u := SettleStep(FailAll(s, ids), Reply(Text(access), Text(refresh)));
      && u.items == s.items[ACCESS_KEY := access][REFRESH_KEY := refresh]
      && u.refreshCalls == s.refreshCalls + 1
      && u.slot.Idle?
      && |u.requests| == |s.requests|
      && forall k :: 0 <= k < |ids| ==>
           && u.requests[ids[k]].phase.Pending?
           && AUTHORIZATION in u.requests[ids[k]].headers
           && u.requests[ids[k]].headers[AUTHORIZATION] == BEARER + access
  {
    ConcurrentFailuresShareOneRefresh(s, ids);
    var t := FailAll(s, ids);
    var reply := Reply(Text(access), Text(refresh));
    var items := s.items[ACCESS_KEY := access][REFRESH_KEY := refresh];
    assert NewPair(reply) == Some((access, refresh));
    var u := SettleStep(t, reply);
    assert u.items == items && u.requests == ResumeAll(t.requests, items, access);
    assert AuthClient.IsAuthenticated(items);
    forall k | 0 <= k < |ids|
      ensures u.requests[ids[k]].phase.Pending?
      ensures AUTHORIZATION in u.requests[ids[k]].headers
      ensures u.requests[ids[k]].headers[AUTHORIZATION] == BEARER + access
    {
      var r := t.requests[ids[k]];
      assert r.phase.Waiting?;
      assert u.requests[ids[k]] == Resume(r, items, access);
    }
  }

  // ---------------------------------------------------------------------------
  // The same steps, performed in place

  class Client {
    const storage: LocalStorage
    var slot: Slot
    var requests: seq<Request>
    var refreshCalls: nat
    var redirected: bool

    function Snapshot(): State
      reads this, storage
    {
      State(storage.items, slot, requests, refreshCalls, redirected)
    }

    ghost predicate Valid()
      reads this, storage
    {
      Inv(Snapshot())
    }

    constructor (storage: LocalStorage)
      ensures this.storage == storage
      ensures Snapshot() == InitialState(storage.items)
      ensures Valid()
    {
      this.storage := storage;
      slot := Idle;
      requests := [];
      refreshCalls := 0;
      redirected := false;
    }

    /** Put a call on the network; the request interceptor sets its headers. */
    method Send(headers: map<string, string>) returns (id: nat)
      requires Valid()
      modifies this
      ensures Valid()
      ensures id == |old(requests)|
      ensures Snapshot() == SendStep(old(Snapshot()), headers)
    {
      SendPreservesInv(Snapshot(), headers);
      var token := storage.GetItem(ACCESS_KEY);
      var h := headers;
      if token.Some? && token.value != "" {
        h := h[AUTHORIZATION := BEARER + token.value];
      }
      id := |requests|;
      requests := requests + [Request(h, false, 1, Pending)];
    }

    method OnSuccess(id: nat)
      requires Valid() && IsPending(Snapshot(), id)
      modifies this
      ensures Valid()
      ensures Snapshot() == SucceedStep(old(Snapshot()), id)
    {
      SucceedPreservesInv(Snapshot(), id);
      requests := requests[id := requests[id].(phase := Done(Fulfilled))];
    }

    /** The response interceptor's error handler. */
    method OnError(id: nat, status: Option<int>)
      requires Valid() && IsPending(Snapshot(), id)
      modifies this, storage
      ensures Valid()
      ensures Snapshot() == FailStep(old(Snapshot()), id, status)
    {
      ghost var before := Snapshot();
      FailPreservesInv(before, id, status);
      var r := requests[id];
      if status == Some(UNAUTHORIZED) && !r.retried {
        r := r.(retried := true);
        requests := requests[id := r];
        if slot.Idle? {
          var token := storage.GetItem(REFRESH_KEY);
          if token.None? || token.value == "" {
            storage.RemoveItem(ACCESS_KEY);
            storage.RemoveItem(REFRESH_KEY);
            redirected := true;
            requests := requests[id := r.(phase := Done(Rejected(SessionExpired)))];
            assert Snapshot() == FailStep(before, id, status);
            return;
          }
          slot := InFlight(token.value);
          refreshCalls := refreshCalls + 1;
        }
        requests := requests[id := r.(phase := Waiting)];
        assert Snapshot() == FailStep(before, id, status);
      } else {
        requests := requests[id := r.(phase := Done(Rejected(Original(status))))];
      }
    }

    /**
     * The shared refresh settles: on a well-formed reply the pair is stored,
     * then `finally` empties the slot, then the waiters resume (or, on
     * failure, each waiter's catch block clears the store and redirects).
     */
    method OnRefreshSettled(reply: RefreshReply)
      requires Valid() && slot.InFlight?
      modifies this, storage
      ensures Valid()
      ensures Snapshot() == SettleStep(old(Snapshot()), reply)
    {
      SettlePreservesInv(Snapshot(), reply);
      var pair := NewPair(reply);
      if pair.Some? {
        var (access, refresh) := pair.value;
        storage.SetItem(ACCESS_KEY, access);
        storage.SetItem(REFRESH_KEY, refresh);
        slot := Idle;
        requests := ResumeAll(requests, storage.items, access);
      } else {
        slot := Idle;
        storage.RemoveItem(ACCESS_KEY);
        storage.RemoveItem(REFRESH_KEY);
        redirected := true;
        requests := ExpireAll(requests);
      }
    }
  }
}
