/**
 * The input-request registry and its waiter (core/input_manager.py).
 *
 * `request_input` registers an `InputRequest` with no response and then
 * polls it until a response appears or the timeout passes. Any source
 * (terminal, web) may answer through `submit_response`; the first answer is
 * kept and later ones are refused. On timeout the waiter evicts the request
 * and returns "no input" instead of raising. A reaper removes requests older
 * than 600 seconds, answered or not.
 *
 * Threads are modelled as atomic operations: each locked method is one
 * step, and the poll loop is driven by a sequence of `Tick`s, each holding
 * the operations other threads performed during the preceding sleep and the
 * clock reading that follows them.
 */
module InputRequests {
  import opened Common

  /** The fields of one `InputRequest` at one moment. */
  datatype RequestView = RequestView(
    prompt: string,
    timestamp: int,
    response: Option<string>,
    source: Option<string>)

  type Registry = map<string, RequestView>

  /** Age, in seconds, beyond which the reaper removes a request. */
  const MaxAge: int := 600

  /** What `request_input` returns when nobody answered in time. */
  const NoInput: string := "no input"

  /** The exception `request_input` can raise: `del` on a key that is gone. */
  datatype Raised = KeyError(key: string)

  function NewRequest(prompt: string, now: int): (v: RequestView)
    ensures v.response.None? && v.source.None?
  {
    RequestView(prompt, now, None, None)
  }

  /**
   * `submit_response`: accepted exactly when the request is stored and not
   * yet answered; then its response and source are recorded. A refused call
   * changes nothing, so the first writer's response and source stay.
   */
  function Submit(reg: Registry, id: string, response: string, source: string): (r: (bool, Registry))
    ensures r.0 <==> id in reg && reg[id].response.None?
    ensures !r.0 ==> r.1 == reg
    ensures r.0 ==> r.1 == reg[id := reg[id].(response := Some(response), source := Some(source))]
  {
    if id in reg && reg[id].response.None? then
      (true, reg[id := reg[id].(response := Some(response), source := Some(source))])
    else (false, reg)
  }

  predicate Expired(v: RequestView, now: int)
  {
    now - v.timestamp > MaxAge
  }

  /** `_cleanup_old_requests`: removes exactly the requests older than `MaxAge`, answered or not. */
  function Expire(reg: Registry, now: int): (r: Registry)
    ensures r.Keys <= reg.Keys
    ensures forall k :: k in reg ==> (k in r <==> !Expired(reg[k], now))
    ensures forall k :: k in r ==> r[k] == reg[k]
  {
    map k | k in reg && !Expired(reg[k], now) :: reg[k]
  }

  /** Something another thread does while the waiter sleeps. */
  datatype External =
    | Answer(requestId: string, response: string, source: string)  // a `submit_response` call
    | Reap(at: int)                                                // one run of the reaper, at its clock reading

  /** The operations performed during one sleep, then the clock reading that ends it. */
  datatype Tick = Tick(during: seq<External>, time: int)

  /**
   * The state the waiter can see: the registry, and the waiter's own request
   * object, which it keeps even after the entry has left the registry.
   */
  datatype Seen = Seen(reg: Registry, mine: RequestView)

  /** While the waiter's request is stored, the waiter's object is that entry. */
  ghost predicate Coherent(s: Seen, id: string)
  {
    id in s.reg ==> s.reg[id] == s.mine
  }

  /** One external operation. */
  function ApplyExternal(s: Seen, id: string, e: External): (r: Seen)
    ensures Coherent(s, id) ==> Coherent(r, id)
    ensures r.reg.Keys <= s.reg.Keys
  {
    var reg := match e
      case Answer(rid, text, src) => Submit(s.reg, rid, text, src).1
      case Reap(at) => Expire(s.reg, at);
    Seen(reg, if id in reg then reg[id] else s.mine)
  }

  function ApplyAll(s: Seen, id: string, es: seq<External>): (r: Seen)
    ensures Coherent(s, id) ==> Coherent(r, id)
    ensures r.reg.Keys <= s.reg.Keys
    decreases |es|
  {
    if es == [] then s else ApplyAll(ApplyExternal(s, id, es[0]), id, es[1..])
  }

  /**
   * The poll loop of `request_input` from a given state: after each sleep,
   * read the clock; past the deadline, evict the request if still stored
   * and return "no input"; otherwise, if the request object holds a
   * response, delete the entry (raising KeyError when it is already gone)
   * and return the response.
   */
  function Poll(s: Seen, id: string, start: int, timeout: int, ticks: seq<Tick>): (r: (Result<string, Raised>, Registry))
    decreases |ticks|
  {
    if ticks == [] then (Ok(NoInput), s.reg - {id})
    else
      var s' := ApplyAll(s, id, ticks[0].during);
      if ticks[0].time - start >= timeout then (Ok(NoInput), s'.reg - {id})
      else if s'.mine.response.Some? then
        if id in s'.reg then (Ok(s'.mine.response.value), s'.reg - {id})
        else (Err(KeyError(id)), s'.reg)
      else Poll(s', id, start, timeout, ticks[1..])
  }

  /**
   * `request_input` as a whole: register the request stamped `created`,
   * then poll against a deadline measured from `start`, the clock reading
   * taken after the notification hook.
   */
  function RequestOutcome(reg: Registry, id: string, prompt: string, created: int, start: int, timeout: int, ticks: seq<Tick>)
    : (Result<string, Raised>, Registry)
  {
    Poll(Seen(reg[id := NewRequest(prompt, created)], NewRequest(prompt, created)), id, start, timeout, ticks)
  }

  // ---------------------------------------------------------------------------
  // The registry as the source keeps it
  // ---------------------------------------------------------------------------

  class InputRequest {
    const id: string
    const prompt: string
    const timestamp: int
    var response: Option<string>
    var source: Option<string>

    constructor (id: string, prompt: string, timestamp: int)
      ensures this.id == id && View() == NewRequest(prompt, timestamp)
    {
      this.id := id;
      this.prompt := prompt;
      this.timestamp := timestamp;
      response := None;
      source := None;
    }

    function View(): RequestView
      reads this
    {
      RequestView(prompt, timestamp, response, source)
    }
  }

  class InputManager {
    var pendingRequests: map<string, InputRequest>

    /** Every request object is stored under its own id. */
    ghost predicate Valid()
      reads this
    {
      forall k :: k in pendingRequests ==> pendingRequests[k].id == k
    }

    ghost function Snapshot(): Registry
      reads this, pendingRequests.Values
    {
      map k | k in pendingRequests :: pendingRequests[k].View()
    }

    constructor ()
      ensures Valid() && Snapshot() == map[]
    {
      pendingRequests := map[];
    }

    method SubmitResponse(requestId: string, response: string, source: string) returns (ok: bool)
      requires Valid()
      modifies pendingRequests.Values
      ensures Valid() && pendingRequests == old(pendingRequests)
      ensures (ok, Snapshot()) == Submit(old(Snapshot()), requestId, response, source)
    {
      if requestId !in pendingRequests {
        return false;
      }
      var request := pendingRequests[requestId];
      if request.response.Some? {
        return false;
      }
      ghost var before := Snapshot();
      request.response := Some(response);
      request.source := Some(source);
      assert forall k :: k in pendingRequests && k != requestId ==> pendingRequests[k].id != request.id;
      assert Snapshot() == before[requestId := request.View()];
      ok := true;
    }

    /** `get_pending_requests`: every stored request, answered or not. */
    function GetPendingRequests(): (r: Registry)
      reads this, pendingRequests.Values
      ensures r.Keys == pendingRequests.Keys
      ensures r == Snapshot()
    {
      map k | k in pendingRequests :: pendingRequests[k].View()
    }

    /** `_cleanup_old_requests` at clock time `now`. */
    method CleanupOldRequests(now: int)
      requires Valid()
      modifies this
      ensures Valid()
      ensures Snapshot() == Expire(old(Snapshot()), now)
      ensures forall k :: k in pendingRequests ==> k in old(pendingRequests) && pendingRequests[k] == old(pendingRequests[k])
    {
      var expiredIds := set k | k in pendingRequests && Expired(pendingRequests[k].View(), now);
      ghost var removed: set<string> := {};
      while expiredIds != {}
        invariant expiredIds !! removed
        invariant expiredIds + removed == set k | k in old(pendingRequests) && Expired(old(pendingRequests)[k].View(), now)
        invariant pendingRequests == map k | k in old(pendingRequests) && k !in removed :: old(pendingRequests)[k]
        decreases expiredIds
      {
        var k :| k in expiredIds;
        pendingRequests := map j | j in pendingRequests && j != k :: pendingRequests[j];
        expiredIds := expiredIds - {k};
        removed := removed + {k};
      }
    }

    /** Run the operations other threads perform during one sleep. */
    method RunExternals(es: seq<External>, request: InputRequest)
      requires Valid() && (request.id in pendingRequests ==> pendingRequests[request.id] == request)
      modifies this, pendingRequests.Values
      ensures Valid() && (request.id in pendingRequests ==> pendingRequests[request.id] == request)
      ensures pendingRequests.Values <= old(pendingRequests.Values)
      ensures Seen(Snapshot(), request.View()) == ApplyAll(Seen(old(Snapshot()), old(request.View())), request.id, es)
    {
      var j := 0;
      while j < |es|
        invariant 0 <= j <= |es|
        invariant Valid() && (request.id in pendingRequests ==> pendingRequests[request.id] == request)
        invariant pendingRequests.Values <= old(pendingRequests.Values)
        invariant ApplyAll(Seen(Snapshot(), request.View()), request.id, es[j..])
               == ApplyAll(Seen(old(Snapshot()), old(request.View())), request.id, es)
        decreases |es| - j
      {
        ghost var seen := Seen(Snapshot(), request.View());
        match es[j] {
          case Answer(rid, text, src) =>
            var _ := SubmitResponse(rid, text, src);
          case Reap(at) =>
            CleanupOldRequests(at);
        }
        assert Seen(Snapshot(), request.View()) == ApplyExternal(seen, request.id, es[j]);
        assert es[j..][1..] == es[j + 1..];
        j := j + 1;
      }
    }

    /** Store `request` under its id (the locked insert of `request_input`). */
    method Store(request: InputRequest)
      requires Valid() && request.id !in pendingRequests
      modifies this
      ensures Valid() && pendingRequests == old(pendingRequests)[request.id := request]
      ensures Snapshot() == old(Snapshot())[request.id := request.View()]
    {
      pendingRequests := pendingRequests[request.id := request];
      assert forall k :: k in old(pendingRequests) ==> old(pendingRequests)[k] != request;
    }

    /** `del self.pending_requests[id]` when `id` is stored, or `pop(id, None)`. */
    method Evict(id: string)
      requires Valid()
      modifies this
      ensures Valid() && pendingRequests == old(pendingRequests) - {id}
      ensures Snapshot() == old(Snapshot()) - {id}
    {
      pendingRequests := pendingRequests - {id};
    }

    /**
     * `request_input(prompt, timeout)` with the fresh id, the clock readings
     * at creation and after the hook, and the ticks of the abstract clock
     * passed in; the last tick is at or past the deadline, as a real clock
     * eventually is.
     */
    method RequestInput(prompt: string, timeout: int, freshId: string, created: int, start: int, hook: Hook, ticks: seq<Tick>)
      returns (r: Result<string, Raised>)
      requires Valid() && freshId !in pendingRequests
      requires |ticks| > 0 && ticks[|ticks| - 1].time - start >= timeout
      modifies this, pendingRequests.Values
      ensures Valid() && freshId !in pendingRequests
      ensures (r, Snapshot()) == RequestOutcome(old(Snapshot()), freshId, prompt, created, start, timeout, ticks)
    {
      ghost var goal := RequestOutcome(Snapshot(), freshId, prompt, created, start, timeout, ticks);
      var request := new InputRequest(freshId, prompt, created);
      Store(request);
      match hook {
        case NoHook =>
        case Callback(raises) =>
          // The callback gets the request's fields; what it raises is caught.
      }
      var k := 0;
      while k < |ticks|
        invariant 0 <= k <= |ticks|
        invariant Valid() && request.id == freshId
        invariant freshId in pendingRequests ==> pendingRequests[freshId] == request
        invariant pendingRequests.Values <= old(pendingRequests.Values) + {request}
        invariant request.response.None?
        invariant Poll(Seen(Snapshot(), request.View()), freshId, start, timeout, ticks[k..]) == goal
        decreases |ticks| - k
      {
        ghost var seen := Seen(Snapshot(), request.View());
        RunExternals(ticks[k].during, request);
        ghost var after := Seen(Snapshot(), request.View());
        assert after == ApplyAll(seen, freshId, ticks[k].during);
        assert ticks[k..][0] == ticks[k] && ticks[k..][1..] == ticks[k + 1..];
        if ticks[k].time - start >= timeout {
          assert goal == (Ok(NoInput), after.reg - {freshId});
          Evict(freshId);
          return Ok(NoInput);
        }
        if request.response.Some? {
          if freshId !in pendingRequests {
            assert goal == (Err(KeyError(freshId)), after.reg);
            return Err(KeyError(freshId));
          }
          assert goal == (Ok(request.response.value), after.reg - {freshId});
          Evict(freshId);
          return Ok(request.response.value);
        }
        k := k + 1;
      }
      Evict(freshId);
      r := Ok(NoInput);
    }
  }

  // ---------------------------------------------------------------------------
  // Properties
  // ---------------------------------------------------------------------------

  /** Which of `attempts` (response, source) succeed when submitted in order for `id`. */
  function SubmitAll(reg: Registry, id: string, attempts: seq<(string, string)>): (r: (seq<bool>, Registry))
    ensures |r.0| == |attempts|
    decreases |attempts|
  {
    if attempts == [] then ([], reg)
    else
      var first := Submit(reg, id, attempts[0].0, attempts[0].1);
      var rest := SubmitAll(first.1, id, attempts[1..]);
      ([first.0] + rest.0, rest.1)
  }

  /**
   * Any number of racing answers for one open request: exactly the first
   * succeeds, and the stored response and source are the first answer's.
   */
  lemma {:induction false} ExactlyOneWinner(reg: Registry, id: string, attempts: seq<(string, string)>)
    requires id in reg && reg[id].response.None? && |attempts| > 0
    ensures var r := SubmitAll(reg, id, attempts);
            r.0[0] && (forall i :: 0 < i < |attempts| ==> !r.0[i])
            && id in r.1 && r.1[id].response == Some(attempts[0].0) && r.1[id].source == Some(attempts[0].1)
  {
    var after := Submit(reg, id, attempts[0].0, attempts[0].1).1;
    LaterAnswersRefused(after, id, attempts[1..]);
  }

  /** Once a request is answered, further answers are refused and change nothing. */
  lemma {:induction false} LaterAnswersRefused(reg: Registry, id: string, attempts: seq<(string, string)>)
    requires id in reg && reg[id].response.Some?
    ensures forall i :: 0 <= i < |attempts| ==> !SubmitAll(reg, id, attempts).0[i]
    ensures SubmitAll(reg, id, attempts).1 == reg
    decreases |attempts|
  {
    if attempts != [] {
      LaterAnswersRefused(reg, id, attempts[1..]);
    }
  }

  /** No operation in `es` answers `id`. */
  predicate NoAnswerFor(es: seq<External>, id: string)
  {
    forall i :: 0 <= i < |es| ==> !(es[i].Answer? && es[i].requestId == id)
  }

  lemma {:induction false} SilentExternals(s: Seen, id: string, es: seq<External>)
    requires Coherent(s, id) && s.mine.response.None? && NoAnswerFor(es, id)
    ensures ApplyAll(s, id, es).mine.response.None?
    decreases |es|
  {
    if es != [] {
      var s1 := ApplyExternal(s, id, es[0]);
      assert NoAnswerFor(es[1..], id) by {
        forall i | 0 <= i < |es[1..]| ensures !(es[1..][i].Answer? && es[1..][i].requestId == id) {
          assert es[1..][i] == es[i + 1];
        }
      }
      SilentExternals(s1, id, es[1..]);
    }
  }

  /**
   * If no source ever answers, the waiter returns "no input" (it does not
   * raise) and the request is no longer stored.
   */
  lemma {:induction false} SilenceTimesOut(s: Seen, id: string, start: int, timeout: int, ticks: seq<Tick>)
    requires Coherent(s, id) && s.mine.response.None?
    requires forall k :: 0 <= k < |ticks| ==> NoAnswerFor(ticks[k].during, id)
    ensures Poll(s, id, start, timeout, ticks).0 == Ok(NoInput)
    ensures id !in Poll(s, id, start, timeout, ticks).1
    decreases |ticks|
  {
    if ticks != [] {
      SilentExternals(s, id, ticks[0].during);
      var s' := ApplyAll(s, id, ticks[0].during);
      if ticks[0].time - start < timeout {
        assert forall k :: 0 <= k < |ticks[1..]| ==> ticks[1..][k] == ticks[k + 1];
        SilenceTimesOut(s', id, start, timeout, ticks[1..]);
      }
    }
  }

  /** The first answer for `id` among `es`, if any. */
  function FirstAnswerIn(es: seq<External>, id: string): Option<string>
  {
    if es == [] then None
    else if es[0].Answer? && es[0].requestId == id then Some(es[0].response)
    else FirstAnswerIn(es[1..], id)
  }

  /** The first answer for `id` given before the clock passes the deadline. */
  function FirstAnswerInTime(ticks: seq<Tick>, id: string, start: int, timeout: int): Option<string>
  {
    if ticks == [] || ticks[0].time - start >= timeout then None
    else match FirstAnswerIn(ticks[0].during, id)
      case Some(t) => Some(t)
      case None => FirstAnswerInTime(ticks[1..], id, start, timeout)
  }

  /** Every reaper run in `es` read the clock at `t` or earlier. */
  predicate ReapsBy(es: seq<External>, t: int)
  {
    forall i :: 0 <= i < |es| && es[i].Reap? ==> es[i].at <= t
  }

  /** The clock never runs backwards: reaper runs during a sleep precede the reading that ends it. */
  predicate Monotone(ticks: seq<Tick>)
  {
    forall k :: 0 <= k < |ticks| ==> ReapsBy(ticks[k].during, ticks[k].time)
  }

  /**
   * During a sleep in which every reaper run is at most `MaxAge` after the
   * request was made, the request stays stored, and it holds the first
   * answer given for it in that sleep, if it was still open.
   */
  lemma {:induction false} ExternalsWithinRetention(s: Seen, id: string, es: seq<External>, t: int)
    requires id in s.reg && s.reg[id] == s.mine
    requires ReapsBy(es, t) && t - s.mine.timestamp <= MaxAge
    ensures var r := ApplyAll(s, id, es);
            id in r.reg && r.reg[id] == r.mine && r.mine.prompt == s.mine.prompt && r.mine.timestamp == s.mine.timestamp
            && (s.mine.response.None? ==> r.mine.response == FirstAnswerIn(es, id))
            && (s.mine.response.Some? ==> r.mine.response == s.mine.response)
    decreases |es|
  {
    if es != [] {
      assert ReapsBy(es[1..], t) by {
        forall i | 0 <= i < |es[1..]| && es[1..][i].Reap? ensures es[1..][i].at <= t {
          assert es[1..][i] == es[i + 1];
        }
      }
      ExternalsWithinRetention(ApplyExternal(s, id, es[0]), id, es[1..], t);
    }
  }

  /**
   * When the request was made at most `MaxAge - timeout` seconds before the
   * wait began, the waiter never raises: it returns the first answer given
   * before the deadline (later answers are refused), or "no input"; either
   * way the request is gone.
   */
  lemma {:induction false} CollectWithinRetention(s: Seen, id: string, start: int, timeout: int, ticks: seq<Tick>)
    requires id in s.reg && s.reg[id] == s.mine && s.mine.response.None?
    requires s.mine.timestamp <= start && start - s.mine.timestamp + timeout <= MaxAge
    requires Monotone(ticks)
    ensures Poll(s, id, start, timeout, ticks).0
            == Ok(match FirstAnswerInTime(ticks, id, start, timeout) case Some(t) => t case None => NoInput)
    ensures id !in Poll(s, id, start, timeout, ticks).1
    decreases |ticks|
  {
    if ticks != [] {
      var t := ticks[0].time;
      if t - start < timeout {
        ExternalsWithinRetention(s, id, ticks[0].during, t);
        var s' := ApplyAll(s, id, ticks[0].during);
        if s'.mine.response.None? {
          assert Monotone(ticks[1..]) by {
            assert forall k :: 0 <= k < |ticks[1..]| ==> ticks[1..][k] == ticks[k + 1];
          }
          CollectWithinRetention(s', id, start, timeout, ticks[1..]);
        }
      } else {
        assert FirstAnswerInTime(ticks, id, start, timeout) == None;
      }
    }
  }

  /**
   * With a timeout longer than the retention window, the reaper can remove
   * a request that was answered during the same sleep; the waiter then sees
   * the response on its own object and `del` raises KeyError.
   */
  lemma AnsweredThenReapedRaises()
    ensures RequestOutcome(map[], "r", "Proceed?", 0, 0, 700,
                           [Tick([Answer("r", "yes", "web"), Reap(650)], 650)]).0 == Err(KeyError("r"))
  {
  }

  /**
   * An answer given during the sleep in which the deadline passes is
   * not returned: the waiter reports "no input" and evicts the answered
   * request.
   */
  lemma LateAnswerDiscarded()
    ensures var out := RequestOutcome(map[], "r", "Proceed?", 0, 0, 300,
                                      [Tick([Answer("r", "yes", "web")], 300)]);
            out.0 == Ok(NoInput) && "r" !in out.1
  {
  }
}
