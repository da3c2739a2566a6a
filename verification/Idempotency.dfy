/**
 Request idempotency: the table behind the Idempotency-Key header, the service and the
 interceptor that use it. The unique key of the table is the (scope, key, method, route) tuple.
 */
module Idempotency {
  import opened Wrappers

  type Key = nat
  type RequestId = nat
  type Hash = nat

  /** A response body as the handler returns it. */
  datatype Body = Undefined | Null | Value(content: nat)

  function OrNull(body: Body): Body {
    if body == Undefined then Null else body
  }

  /** `response` is set when the request completes. */
  datatype Row = Row(id: RequestId, hash: Hash, response: Option<(int, Body)>) {
    function Complete(code: int, body: Body): Row {
      this.(response := Some((code, OrNull(body))))
    }
  }

  type Rows = map<Key, Row>

  /** What `begin` answers; the last two are the errors it throws. */
  datatype Begun = Started(id: RequestId) | Replay(code: int, body: Body) | InProgress | KeyReused

  /** The look-up half of `begin`, when the insert hit the unique key. */
  function LookUp(rows: Rows, key: Key, hash: Hash): Begun {
    if key !in rows then InProgress
    else if rows[key].hash != hash then KeyReused
    else if rows[key].response.Some? then Begun.Replay(rows[key].response.value.0, rows[key].response.value.1)
    else InProgress
  }

  /** `complete` and `release` address the row by its id, which stays with one key for life. */
  predicate Has(rows: Rows, key: Key, id: RequestId) {
    key in rows && rows[key].id == id
  }

  function DeletePending(rows: Rows, key: Key, id: RequestId): Rows {
    if Has(rows, key, id) && rows[key].response.None? then rows - {key} else rows
  }

  // ----- The sequential code -----

  class IdempotentRequestRepository {
    var rows: Rows

    method CreatePending(key: Key, id: RequestId, hash: Hash) returns (created: bool)
      modifies this
      ensures created <==> key !in old(rows)
      ensures rows == if created then old(rows)[key := Row(id, hash, None)] else old(rows)
    {
      created := key !in rows;
      if created {
        rows := rows[key := Row(id, hash, None)];
      }
    }

    method Find(key: Key) returns (row: Option<Row>)
      ensures row == if key in rows then Some(rows[key]) else None
    {
      row := if key in rows then Some(rows[key]) else None;
    }

    method Update(key: Key, row: Row)
      modifies this
      ensures rows == old(rows)[key := row]
    {
      rows := rows[key := row];
    }

    method DeletePendingRow(key: Key, id: RequestId)
      modifies this
      ensures rows == DeletePending(old(rows), key, id)
    {
      if key in rows && rows[key].id == id && rows[key].response.None? {
        rows := rows - {key};
      }
    }
  }

  class RequestIdempotencyService {
    const repository: IdempotentRequestRepository

    constructor (repository: IdempotentRequestRepository)
      ensures this.repository == repository
    {
      this.repository := repository;
    }

    method Begin(key: Key, id: RequestId, hash: Hash) returns (r: Begun)
      modifies repository
      ensures r == if key in old(repository.rows) then LookUp(old(repository.rows), key, hash) else Started(id)
      ensures repository.rows == if key in old(repository.rows) then old(repository.rows)
        else old(repository.rows)[key := Row(id, hash, None)]
    {
      var created := repository.CreatePending(key, id, hash);
      if created {
        return Started(id);
      }
      var existing := repository.Find(key);
      if existing.None? {
        return InProgress;
      }
      if existing.value.hash != hash {
        return KeyReused;
      }
      if existing.value.response.Some? {
        return Begun.Replay(existing.value.response.value.0, existing.value.response.value.1);
      }
      r := InProgress;
    }

    method Complete(key: Key, id: RequestId, code: int, body: Body)
      modifies repository
      ensures repository.rows ==
        if Has(old(repository.rows), key, id) && old(repository.rows[key]).response.None?
        then old(repository.rows)[key := old(repository.rows[key]).Complete(code, body)] else old(repository.rows)
    {
      var existing := repository.Find(key);
      if existing.Some? && existing.value.id == id && existing.value.response.None? {
        repository.Update(key, existing.value.Complete(code, body));
      }
    }

    method Release(key: Key, id: RequestId)
      modifies repository
      ensures repository.rows == DeletePending(old(repository.rows), key, id)
    {
      repository.DeletePendingRow(key, id);
    }
  }

  /** What the interceptor hands back to the caller. */
  datatype Answer = Fresh(code: int, body: Body) | Replayed(code: int, body: Body) | HandlerError | Refused(why: Begun)

  /** How the route handler ends. */
  datatype Handler = Returns(code: int, body: Body) | Throws

  function ReplayedBody(code: int, body: Body): Body {
    if code == 204 then Undefined else OrNull(body)
  }

  /**
   One request, undisturbed: a free key runs the handler and remembers a success but not a
   failure; a taken key runs nothing and changes nothing.
   */
  function Intercepted(rows: Rows, key: Key, id: RequestId, hash: Hash, handler: Handler): (Rows, Answer) {
    if key in rows then
      match LookUp(rows, key, hash)
      case Replay(code, body) => (rows, Replayed(code, ReplayedBody(code, body)))
      case why => (rows, Refused(why))
    else
      match handler
      case Throws => (rows, HandlerError)
      case Returns(code, body) => (rows[key := Row(id, hash, Some((code, OrNull(body))))], Fresh(code, body))
  }

  /**
   A request that succeeds on a free key is answered with what its handler returns, and any later one that finds its
   row changes nothing and is answered alike, or refused if it is another request. The bodies of the two answers are
   the same exactly if a 204 returned `undefined` and anything else did not; but for a 204 they differ at most as
   `null` from `undefined`.
   */
  lemma LaterAnswerRepeatsFirst(rows: Rows, key: Key, id: RequestId, hash: Hash, code: int, body: Body,
                                later: Rows, id': RequestId, hash': Hash, handler': Handler)
    requires key !in rows && key in later
    requires later[key] == Intercepted(rows, key, id, hash, Returns(code, body)).0[key]
    ensures var first := Intercepted(rows, key, id, hash, Returns(code, body)).1;
      var second := Intercepted(later, key, id', hash', handler');
      && first == Fresh(code, body) && second.0 == later
      && (hash' != hash ==> second.1 == Refused(KeyReused))
      && (hash' == hash ==>
          && second.1.Replayed? && second.1.code == first.code
          && (second.1.body == first.body <==> (first.code == 204 <==> first.body == Undefined))
          && (first.code != 204 && second.1.body != first.body ==> first.body == Undefined && second.1.body == Null)
          && (first.code == 204 ==> second.1.body == Undefined))
  {
  }

  /**
   Two requests in a row on a free key: a failure leaves the second exactly where the first began, and after a
   success the second changes nothing and repeats the answer of the first, or is refused if it is another request.
   */
  lemma RetryAfter(rows: Rows, key: Key, id: RequestId, hash: Hash, handler: Handler,
                   id': RequestId, hash': Hash, handler': Handler)
    requires key !in rows
    ensures var first := Intercepted(rows, key, id, hash, handler);
      var second := Intercepted(first.0, key, id', hash', handler');
      && (handler.Throws? ==> second == Intercepted(rows, key, id', hash', handler'))
      && (handler.Returns? ==>
          && first.1 == Fresh(handler.code, handler.body) && second.0 == first.0
          && (hash' != hash ==> second.1 == Refused(KeyReused))
          && (hash' == hash ==>
              && second.1.Replayed? && second.1.code == first.1.code
              && (second.1.body == first.1.body <==> (first.1.code == 204 <==> first.1.body == Undefined))))
      && (handler.Throws? ==> first.1 == HandlerError)
      && (second.0 - {key} == rows)
  {
  }

  class RequestIdempotencyInterceptor {
    const service: RequestIdempotencyService

    constructor (service: RequestIdempotencyService)
      ensures this.service == service
    {
      this.service := service;
    }

    method Intercept(key: Key, id: RequestId, hash: Hash, handler: Handler) returns (answer: Answer)
      modifies service.repository
      ensures service.repository.rows == Intercepted(old(service.repository.rows), key, id, hash, handler).0
      ensures answer == Intercepted(old(service.repository.rows), key, id, hash, handler).1
      ensures key !in old(service.repository.rows) ==>
        match handler
        case Returns(code, body) => answer == Fresh(code, body)
        case Throws => answer == HandlerError && service.repository.rows == old(service.repository.rows)
      ensures key in old(service.repository.rows) ==> service.repository.rows == old(service.repository.rows)
    {
      var begun := service.Begin(key, id, hash);
      match begun {
        case Replay(code, body) =>
          answer := Replayed(code, ReplayedBody(code, body));
        case Started(_) =>
          match handler {
            case Returns(code, body) =>
              service.Complete(key, id, code, body);
              answer := Fresh(code, body);
            case Throws =>
              service.Release(key, id);
              assert service.repository.rows == old(service.repository.rows);
              answer := HandlerError;
          }
        case _ =>
          answer := Refused(begun);
      }
    }
  }

  /** A replay repeats the first answer except that `undefined` and `null` may change places. */
  lemma ReplayRepeatsAnswer(code: int, body: Body)
    ensures ReplayedBody(code, OrNull(body)) == body <==> (code == 204 <==> body == Undefined)
  {
  }

  // ----- The concurrent protocol -----

  /** A client between the steps of one request: the last three own the key's row. */
  datatype Client =
    | Blocked(key: Key, hash: Hash)
    | Running(key: Key, id: RequestId)
    | Saving(key: Key, id: RequestId, row: Row, code: int, body: Body)
    | Releasing(key: Key, id: RequestId)

  /** What has happened to one key, in order. */
  datatype Entry =
    | Start(hash: Hash)
    | Release
    | Complete(code: int, body: Body)
    | Replay(hash: Hash, code: int, body: Body)

  datatype State = State(rows: Rows, clients: map<nat, Client>, used: set<RequestId>, history: map<Key, seq<Entry>>)

  datatype Event =
    | Insert(client: nat, key: Key, hash: Hash, id: RequestId)
    | Find(client: nat)
    | Succeed(client: nat, code: int, body: Body)
    | Fail(client: nat)
    | Save(client: nat, stored: bool, errored: bool)
    | Delete(client: nat, stored: bool)
    | Crash(client: nat)

  function Init(): State {
    State(map[], map[], {}, map[])
  }

  ghost predicate Enabled(s: State, e: Event) {
    match e
    case Insert(c, _, _, id) => c !in s.clients && id !in s.used
    case Find(c) => c in s.clients && s.clients[c].Blocked?
    case Succeed(c, _, _) => c in s.clients && s.clients[c].Running?
    case Fail(c) => c in s.clients && s.clients[c].Running?
    case Save(c, stored, errored) => c in s.clients && s.clients[c].Saving? && (stored || errored)
    case Delete(c, _) => c in s.clients && s.clients[c].Releasing?
    case Crash(c) => c in s.clients
  }

  function History(history: map<Key, seq<Entry>>, key: Key): seq<Entry> {
    if key in history then history[key] else []
  }

  function Log(s: State, key: Key, entry: Entry): map<Key, seq<Entry>> {
    s.history[key := History(s.history, key) + [entry]]
  }

  function ApplyInsert(s: State, c: nat, key: Key, hash: Hash, id: RequestId): State {
    if key in s.rows then s.(clients := s.clients[c := Blocked(key, hash)], used := s.used + {id})
    else s.(rows := s.rows[key := Row(id, hash, None)], clients := s.clients[c := Running(key, id)],
            used := s.used + {id}, history := Log(s, key, Start(hash)))
  }

  function ApplyFind(s: State, c: nat): State
    requires c in s.clients && s.clients[c].Blocked?
  {
    var p := s.clients[c];
    match LookUp(s.rows, p.key, p.hash)
    case Replay(code, body) =>
      s.(clients := s.clients - {c}, history := Log(s, p.key, Entry.Replay(p.hash, code, body)))
    case _ => s.(clients := s.clients - {c})
  }

  function ApplySucceed(s: State, c: nat, code: int, body: Body): State
    requires c in s.clients && s.clients[c].Running?
  {
    var p := s.clients[c];
    if !Has(s.rows, p.key, p.id) || s.rows[p.key].response.Some? then s.(clients := s.clients - {c})
    else s.(clients := s.clients[c := Saving(p.key, p.id, s.rows[p.key], code, body)])
  }

  function ApplySave(s: State, c: nat, stored: bool, errored: bool): State
    requires c in s.clients && s.clients[c].Saving?
  {
    var p := s.clients[c];
    s.(rows := if stored then s.rows[p.key := p.row.Complete(p.code, p.body)] else s.rows,
       history := if stored then Log(s, p.key, Entry.Complete(p.code, OrNull(p.body))) else s.history,
       clients := if errored then s.clients[c := Releasing(p.key, p.id)] else s.clients - {c})
  }

  function ApplyDelete(s: State, c: nat, stored: bool): State
    requires c in s.clients && s.clients[c].Releasing?
  {
    var p := s.clients[c];
    var rows := if stored then DeletePending(s.rows, p.key, p.id) else s.rows;
    s.(rows := rows,
       history := if p.key in s.rows && p.key !in rows then Log(s, p.key, Release) else s.history,
       clients := s.clients - {c})
  }

  ghost function Apply(s: State, e: Event): State
    requires Enabled(s, e)
  {
    match e
    case Insert(c, key, hash, id) => ApplyInsert(s, c, key, hash, id)
    case Find(c) => ApplyFind(s, c)
    case Succeed(c, code, body) => ApplySucceed(s, c, code, body)
    case Fail(c) => s.(clients := s.clients[c := Releasing(s.clients[c].key, s.clients[c].id)])
    case Save(c, stored, errored) => ApplySave(s, c, stored, errored)
    case Delete(c, stored) => ApplyDelete(s, c, stored)
    case Crash(c) => s.(clients := s.clients - {c})
  }

  // ----- The history of a key -----

  datatype Phase = Free | Owned(hash: Hash) | Done(hash: Hash, code: int, body: Body) | Bad

  function Next(p: Phase, e: Entry): Phase {
    match (p, e)
    case (Free, Start(hash)) => Owned(hash)
    case (Owned(_), Release) => Free
    case (Owned(hash), Complete(code, body)) => Done(hash, code, body)
    case (Done(hash, code, body), Replay(h, c, b)) => if h == hash && c == code && b == body then p else Bad
    case _ => Bad
  }

  function PhaseOf(h: seq<Entry>): Phase {
    if h == [] then Free else Next(PhaseOf(h[..|h| - 1]), h[|h| - 1])
  }

  function RowPhase(rows: Rows, key: Key): Phase {
    if key !in rows then Free
    else if rows[key].response.None? then Owned(rows[key].hash)
    else Done(rows[key].hash, rows[key].response.value.0, rows[key].response.value.1)
  }

  predicate Owns(p: Client) {
    !p.Blocked?
  }

  /** The history of every key is legal so far and has led to the state of its row. */
  ghost predicate Tracks(rows: Rows, history: map<Key, seq<Entry>>) {
    forall key: Key :: PhaseOf(History(history, key)) == RowPhase(rows, key)
  }

  ghost predicate OneOwner(s: State) {
    forall c, d :: c in s.clients && d in s.clients && Owns(s.clients[c]) && Owns(s.clients[d]) && c != d ==>
      s.clients[c].key != s.clients[d].key
  }

  /** Owners have their rows, still pending until they save. */
  ghost predicate OwnersHaveRows(s: State) {
    && (forall c :: c in s.clients && Owns(s.clients[c]) ==> Has(s.rows, s.clients[c].key, s.clients[c].id))
    && (forall c :: c in s.clients && (s.clients[c].Running? || s.clients[c].Saving?) ==>
      s.rows[s.clients[c].key].response.None?)
    && (forall c :: c in s.clients && s.clients[c].Saving? ==> s.clients[c].row == s.rows[s.clients[c].key])
  }

  ghost predicate Inv(s: State) {
    && OneOwner(s) && OwnersHaveRows(s) && Tracks(s.rows, s.history)
    && forall key :: key in s.rows ==> s.rows[key].id in s.used
  }

  lemma LogTracks(s: State, key: Key, entry: Entry, rows: Rows)
    requires Tracks(s.rows, s.history)
    requires Next(RowPhase(s.rows, key), entry) == RowPhase(rows, key)
    requires forall other :: other != key ==>
      (other in rows <==> other in s.rows) && (other in rows ==> rows[other] == s.rows[other])
    ensures Tracks(rows, Log(s, key, entry))
  {
    var h := Log(s, key, entry);
    forall k: Key
      ensures PhaseOf(History(h, k)) == RowPhase(rows, k)
    {
      assert PhaseOf(History(s.history, k)) == RowPhase(s.rows, k);
      if k == key {
        Appended(History(s.history, key), entry);
      } else {
        assert RowPhase(rows, k) == RowPhase(s.rows, k);
        assert History(h, k) == History(s.history, k);
      }
    }
  }

  lemma Appended(h: seq<Entry>, entry: Entry)
    ensures PhaseOf(h + [entry]) == Next(PhaseOf(h), entry)
  {
    assert (h + [entry])[..|h + [entry]| - 1] == h;
  }

  lemma InsertKeepsInv(s: State, c: nat, key: Key, hash: Hash, id: RequestId)
    requires Inv(s) && c !in s.clients && id !in s.used
    ensures Inv(ApplyInsert(s, c, key, hash, id))
  {
    var s' := ApplyInsert(s, c, key, hash, id);
    if key !in s.rows {
      LogTracks(s, key, Start(hash), s'.rows);
    }
    assert OneOwner(s');
  }

  lemma FindKeepsInv(s: State, c: nat)
    requires Inv(s) && Enabled(s, Find(c))
    ensures Inv(ApplyFind(s, c))
  {
    var p := s.clients[c];
    match LookUp(s.rows, p.key, p.hash)
    case Replay(code, body) => LogTracks(s, p.key, Entry.Replay(p.hash, code, body), s.rows);
    case _ =>
  }

  lemma SaveKeepsInv(s: State, c: nat, stored: bool, errored: bool)
    requires Inv(s) && Enabled(s, Save(c, stored, errored))
    ensures Inv(ApplySave(s, c, stored, errored))
  {
    var p := s.clients[c];
    if stored {
      LogTracks(s, p.key, Entry.Complete(p.code, OrNull(p.body)), s.rows[p.key := p.row.Complete(p.code, p.body)]);
    }
  }

  lemma DeleteKeepsInv(s: State, c: nat, stored: bool)
    requires Inv(s) && Enabled(s, Delete(c, stored))
    ensures Inv(ApplyDelete(s, c, stored))
  {
    var s', key := ApplyDelete(s, c, stored), s.clients[c].key;
    if key !in s'.rows {
      LogTracks(s, key, Release, s'.rows);
    }
  }

  lemma StepKeepsInv(s: State, e: Event)
    requires Inv(s) && Enabled(s, e)
    ensures Inv(Apply(s, e))
  {
    match e
    case Insert(c, key, hash, id) => InsertKeepsInv(s, c, key, hash, id);
    case Find(c) => FindKeepsInv(s, c);
    case Save(c, stored, errored) => SaveKeepsInv(s, c, stored, errored);
    case Delete(c, stored) => DeleteKeepsInv(s, c, stored);
    case _ =>
  }

  ghost predicate Runs(s: State, events: seq<Event>, s': State)
    decreases |events|
  {
    if events == [] then s == s' else Enabled(s, events[0]) && Runs(Apply(s, events[0]), events[1..], s')
  }

  lemma {:induction false} RunKeepsInv(s: State, events: seq<Event>, s': State)
    requires Inv(s) && Runs(s, events, s')
    ensures Inv(s')
    decreases |events|
  {
    if events == [] {
    } else {
      StepKeepsInv(s, events[0]);
      RunKeepsInv(Apply(s, events[0]), events[1..], s');
    }
  }

  // ----- The language of histories -----

  function Attempts(hashes: seq<Hash>): seq<Entry> {
    if hashes == [] then [] else Attempts(hashes[..|hashes| - 1]) + [Start(hashes[|hashes| - 1]), Release]
  }

  function Replays(hash: Hash, code: int, body: Body, n: nat): seq<Entry> {
    if n == 0 then [] else Replays(hash, code, body, n - 1) + [Entry.Replay(hash, code, body)]
  }

  /** What may follow the abandoned attempts: nothing, a request under way, or one completion and its replays. */
  datatype Tail = Nothing | UnderWay(hash: Hash) | Completed(hash: Hash, code: int, body: Body, replays: nat)

  function Entries(t: Tail): seq<Entry> {
    match t
    case Nothing => []
    case UnderWay(hash) => [Start(hash)]
    case Completed(hash, code, body, n) => [Start(hash), Complete(code, body)] + Replays(hash, code, body, n)
  }

  function TailPhase(t: Tail): Phase {
    match t
    case Nothing => Free
    case UnderWay(hash) => Owned(hash)
    case Completed(hash, code, body, _) => Done(hash, code, body)
  }

  lemma ReleaseShapes(hashes: seq<Hash>, hash: Hash)
    ensures Attempts(hashes) + Entries(UnderWay(hash)) + [Release] == Attempts(hashes + [hash]) + Entries(Nothing)
  {
    var longer := hashes + [hash];
    assert longer[..|longer| - 1] == hashes;
    assert Attempts(longer) == Attempts(hashes) + [Start(hash), Release];
  }

  lemma CompletionShapes(h: seq<Entry>, hash: Hash, code: int, body: Body)
    ensures h + Entries(UnderWay(hash)) + [Complete(code, body)] == h + Entries(Completed(hash, code, body, 0))
  {
    assert Replays(hash, code, body, 0) == [];
  }

  lemma ReplayShapes(h: seq<Entry>, hash: Hash, code: int, body: Body, n: nat)
    ensures h + Entries(Completed(hash, code, body, n)) + [Entry.Replay(hash, code, body)]
      == h + Entries(Completed(hash, code, body, n + 1))
  {
    var replays := Replays(hash, code, body, n);
    assert Replays(hash, code, body, n + 1) == replays + [Entry.Replay(hash, code, body)];
  }

  /** One more legal entry extends a history of the shape to one of the shape. */
  lemma ShapeGrows(hashes: seq<Hash>, tail: Tail, last: Entry) returns (hashes': seq<Hash>, tail': Tail)
    requires Next(TailPhase(tail), last) != Bad
    ensures Attempts(hashes) + Entries(tail) + [last] == Attempts(hashes') + Entries(tail')
    ensures Next(TailPhase(tail), last) == TailPhase(tail')
  {
    hashes' := hashes;
    match last {
      case Start(hash) =>
        tail' := UnderWay(hash);
        assert Attempts(hashes) + [] == Attempts(hashes);
      case Release =>
        hashes', tail' := hashes + [tail.hash], Nothing;
        ReleaseShapes(hashes, tail.hash);
      case Complete(code, body) =>
        tail' := Completed(tail.hash, code, body, 0);
        CompletionShapes(Attempts(hashes), tail.hash, code, body);
      case Replay(hash, code, body) =>
        tail' := tail.(replays := tail.replays + 1);
        ReplayShapes(Attempts(hashes), hash, code, body, tail.replays);
    }
  }

  /** Every legal history is (Start Release)* (Start (Complete Replay*)?)?, each replay repeating the completion. */
  lemma {:induction false} LegalHistory(h: seq<Entry>) returns (hashes: seq<Hash>, tail: Tail)
    requires PhaseOf(h) != Bad
    ensures h == Attempts(hashes) + Entries(tail) && PhaseOf(h) == TailPhase(tail)
    decreases |h|
  {
    if h == [] {
      return [], Nothing;
    }
    var init, last := h[..|h| - 1], h[|h| - 1];
    assert h == init + [last];
    Appended(init, last);
    hashes, tail := LegalHistory(init);
    hashes, tail := ShapeGrows(hashes, tail, last);
  }

  lemma {:induction false} AttemptsAreLegal(hashes: seq<Hash>)
    ensures PhaseOf(Attempts(hashes)) == Free
  {
    if hashes == [] {
    } else {
      var init, hash := hashes[..|hashes| - 1], hashes[|hashes| - 1];
      AttemptsAreLegal(init);
      Appended(Attempts(init), Start(hash));
      Appended(Attempts(init) + [Start(hash)], Release);
      assert Attempts(hashes) == Attempts(init) + [Start(hash)] + [Release];
    }
  }

  lemma {:induction false} ReplaysAreLegal(h: seq<Entry>, hash: Hash, code: int, body: Body, n: nat)
    requires PhaseOf(h) == Done(hash, code, body)
    ensures PhaseOf(h + Replays(hash, code, body, n)) == Done(hash, code, body)
  {
    if n == 0 {
      assert h + Replays(hash, code, body, n) == h;
    } else {
      var last := Entry.Replay(hash, code, body);
      var fewer := h + Replays(hash, code, body, n - 1);
      assert h + Replays(hash, code, body, n) == fewer + [last];
      ReplaysAreLegal(h, hash, code, body, n - 1);
      assert PhaseOf(fewer + [last]) == Done(hash, code, body) by {
        Appended(fewer, last);
      }
    }
  }

  lemma CompletionIsLegal(h: seq<Entry>, hash: Hash, code: int, body: Body, n: nat)
    requires PhaseOf(h) == Free
    ensures PhaseOf(h + Entries(Completed(hash, code, body, n))) == Done(hash, code, body)
  {
    var started, replays := h + [Start(hash)], Replays(hash, code, body, n);
    var completed := started + [Complete(code, body)];
    Appended(h, Start(hash));
    Appended(started, Complete(code, body));
    ReplaysAreLegal(completed, hash, code, body, n);
    assert h + ([Start(hash), Complete(code, body)] + replays) == completed + replays;
  }

  /** And every history of that shape is legal. */
  lemma ShapesAreLegal(hashes: seq<Hash>, tail: Tail)
    ensures PhaseOf(Attempts(hashes) + Entries(tail)) == TailPhase(tail)
  {
    var h := Attempts(hashes);
    AttemptsAreLegal(hashes);
    match tail
    case Nothing => assert h + Entries(tail) == h;
    case UnderWay(hash) => Appended(h, Start(hash));
    case Completed(hash, code, body, n) => CompletionIsLegal(h, hash, code, body, n);
  }

  ghost predicate Shaped(h: seq<Entry>) {
    exists hashes, tail :: h == Attempts(hashes) + Entries(tail)
  }

  lemma LegalIffShaped(h: seq<Entry>)
    ensures PhaseOf(h) != Bad <==> Shaped(h)
  {
    if PhaseOf(h) != Bad {
      var hashes, tail := LegalHistory(h);
    }
    if Shaped(h) {
      var hashes, tail :| h == Attempts(hashes) + Entries(tail);
      ShapesAreLegal(hashes, tail);
    }
  }

  /**
   Headline: over every run each key's history is a sequence of abandoned attempts followed by
   at most one completed one, and what follows the completion only repeats it, to requests with
   the hash that started it.
   */
  lemma HistoryOfAKey(events: seq<Event>, s: State, key: Key) returns (hashes: seq<Hash>, tail: Tail)
    requires Runs(Init(), events, s)
    ensures History(s.history, key) == Attempts(hashes) + Entries(tail)
    ensures RowPhase(s.rows, key) == TailPhase(tail)
  {
    RunKeepsInv(Init(), events, s);
    assert PhaseOf(History(s.history, key)) == RowPhase(s.rows, key);
    hashes, tail := LegalHistory(History(s.history, key));
  }

  /**
   What a request is told that finds its key taken follows from the history of the key: the answer of the
   completion, that the attempt is under way or was just given up, or that the key belongs to another request.
   */
  lemma AnswersFollowHistory(events: seq<Event>, s: State, key: Key, hash: Hash)
    returns (hashes: seq<Hash>, tail: Tail)
    requires Runs(Init(), events, s)
    ensures History(s.history, key) == Attempts(hashes) + Entries(tail)
    ensures LookUp(s.rows, key, hash) ==
      match tail
      case Nothing => InProgress
      case UnderWay(other) => if other == hash then InProgress else KeyReused
      case Completed(other, code, body, _) => if other == hash then Begun.Replay(code, body) else KeyReused
  {
    hashes, tail := HistoryOfAKey(events, s, key);
  }

  /** No key ever has two live owners, and an owner's row cannot be taken from it. */
  lemma OwnersAreExclusive(events: seq<Event>, s: State, c: nat, d: nat)
    requires Runs(Init(), events, s)
    requires c in s.clients && d in s.clients && Owns(s.clients[c]) && Owns(s.clients[d])
    requires s.clients[c].key == s.clients[d].key
    ensures c == d && Has(s.rows, s.clients[c].key, s.clients[c].id)
  {
    RunKeepsInv(Init(), events, s);
  }

  /** Completion is permanent: no later step, release included, changes the row. */
  lemma {:induction false} CompletionIsPermanent(s: State, events: seq<Event>, s': State, key: Key)
    requires Inv(s) && Runs(s, events, s') && key in s.rows && s.rows[key].response.Some?
    ensures key in s'.rows && s'.rows[key] == s.rows[key]
    decreases |events|
  {
    if events == [] {
    } else {
      StepKeepsInv(s, events[0]);
      CompletionIsPermanent(Apply(s, events[0]), events[1..], s', key);
    }
  }

  lemma RunsStart(s: State, e: Event, events: seq<Event>, s': State)
    requires Enabled(s, e) && Runs(Apply(s, e), events, s')
    ensures Runs(s, [e] + events, s')
  {
    assert ([e] + events)[1..] == events;
  }

  lemma OneStep(s: State, e: Event) returns (s': State)
    requires Enabled(s, e)
    ensures s' == Apply(s, e) && Runs(s, [e], s')
  {
    s' := Apply(s, e);
    RunsStart(s, e, [], s');
    assert [e] + [] == [e];
  }

  /** What a client does after its insert, undisturbed: the steps and where they lead. */
  lemma FinishIsARun(s: State, c: nat, key: Key, id: RequestId, handler: Handler)
    returns (events: seq<Event>, s': State)
    requires c in s.clients && s.clients[c] == Running(key, id) && key in s.rows && s.rows[key].id == id
    requires s.rows[key].response.None?
    ensures Runs(s, events, s') && s'.clients == s.clients - {c}
    ensures s'.rows == match handler
      case Throws => s.rows - {key}
      case Returns(code, body) => s.rows[key := s.rows[key].Complete(code, body)]
  {
    var e, f := if handler.Throws? then Fail(c) else Succeed(c, handler.code, handler.body),
                if handler.Throws? then Delete(c, true) else Save(c, true, false);
    var s1 := Apply(s, e);
    s' := OneStep(s1, f);
    RunsStart(s, e, [f], s');
    events := [e] + [f];
    assert s1.clients - {c} == s.clients - {c};
  }

  /** An undisturbed request of the code is a run of the protocol that ends with the same rows. */
  lemma InterceptIsARun(s: State, c: nat, key: Key, id: RequestId, hash: Hash, handler: Handler)
    returns (events: seq<Event>, s': State)
    requires c !in s.clients && id !in s.used
    ensures Runs(s, events, s') && s'.clients == s.clients
    ensures s'.rows == Intercepted(s.rows, key, id, hash, handler).0
  {
    var e := Insert(c, key, hash, id);
    var s1 := Apply(s, e);
    assert s1.clients - {c} == s.clients;
    if key in s.rows {
      s' := OneStep(s1, Find(c));
      events := [Find(c)];
    } else {
      assert s1.rows - {key} == s.rows;
      events, s' := FinishIsARun(s1, c, key, id, handler);
    }
    RunsStart(s, e, events, s');
    events := [e] + events;
  }

  // ----- Requests that stay in progress -----

  ghost predicate HasOwner(s: State, key: Key) {
    exists c :: c in s.clients && Owns(s.clients[c]) && s.clients[c].key == key
  }

  /** Whatever any clients do from here on, the row stays as it is. */
  ghost predicate StaysForever(s: State, key: Key)
    requires key in s.rows
  {
    forall events, s' | Runs(s, events, s') :: key in s'.rows && s'.rows[key] == s.rows[key]
  }

  lemma UnownedStep(s: State, e: Event, key: Key)
    requires Inv(s) && Enabled(s, e) && key in s.rows && !HasOwner(s, key)
    ensures !HasOwner(Apply(s, e), key) && key in Apply(s, e).rows && Apply(s, e).rows[key] == s.rows[key]
  {
    var s' := Apply(s, e);
    forall c | c in s'.clients && Owns(s'.clients[c]) ensures s'.clients[c].key != key {
      if c in s.clients && Owns(s.clients[c]) {
        assert s'.clients[c].key == s.clients[c].key;
      }
    }
  }

  lemma {:induction false} UnownedRun(s: State, events: seq<Event>, s': State, key: Key)
    requires Inv(s) && Runs(s, events, s') && key in s.rows && !HasOwner(s, key)
    ensures key in s'.rows && s'.rows[key] == s.rows[key]
    decreases |events|
  {
    if events == [] {
    } else {
      StepKeepsInv(s, events[0]);
      UnownedStep(s, events[0], key);
      UnownedRun(Apply(s, events[0]), events[1..], s', key);
    }
  }

  /** An owner can still save its response or give the key up. */
  lemma OwnerMoves(s: State, c: nat) returns (events: seq<Event>, s': State)
    requires Inv(s) && c in s.clients && Owns(s.clients[c]) && s.rows[s.clients[c].key].response.None?
    ensures Runs(s, events, s')
    ensures var key := s.clients[c].key; key !in s'.rows || s'.rows[key].response.Some?
  {
    match s.clients[c] {
      case Running(_, _) =>
        var s1 := Apply(s, Fail(c));
        s' := OneStep(s1, Delete(c, true));
        RunsStart(s, Fail(c), [Delete(c, true)], s');
        events := [Fail(c)] + [Delete(c, true)];
      case Saving(_, _, _, _, _) =>
        s' := OneStep(s, Save(c, true, false));
        events := [Save(c, true, false)];
      case Releasing(_, _) =>
        s' := OneStep(s, Delete(c, true));
        events := [Delete(c, true)];
    }
  }

  /** A request stays in progress for ever if and only if no client at work owns it any more. */
  lemma InProgressForeverIff(before: seq<Event>, s: State, key: Key)
    requires Runs(Init(), before, s) && key in s.rows && s.rows[key].response.None?
    ensures StaysForever(s, key) <==> !HasOwner(s, key)
  {
    RunKeepsInv(Init(), before, s);
    if c :| c in s.clients && Owns(s.clients[c]) && s.clients[c].key == key {
      var events, s' := OwnerMoves(s, c);
    } else {
      forall events, s' | Runs(s, events, s') ensures key in s'.rows && s'.rows[key] == s.rows[key] {
        UnownedRun(s, events, s', key);
      }
    }
  }

  /** So a client that crashes before its response is saved blocks its key. */
  lemma CrashBlocksTheKey(before: seq<Event>, s: State, c: nat)
    requires Runs(Init(), before, s) && c in s.clients && Owns(s.clients[c])
    requires var key := s.clients[c].key; key in s.rows && s.rows[key].response.None?
    ensures StaysForever(Apply(s, Crash(c)), s.clients[c].key)
  {
    var key, s' := s.clients[c].key, Apply(s, Crash(c));
    RunKeepsInv(Init(), before, s);
    StepKeepsInv(s, Crash(c));
    forall events, t | Runs(s', events, t) ensures key in t.rows && t.rows[key] == s'.rows[key] {
      UnownedRun(s', events, t, key);
    }
  }
}
