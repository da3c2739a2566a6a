/**
 Organization invitations. A new one is refused only on account of the newest unaccepted row of its
 address, and an invitation whose email failed is expired afterwards from a snapshot of its row.
 */
module Invitations {
  import opened Wrappers
  import FreshIds
  import Ranking

  type Id = nat
  type Time = nat

  const LIFETIME := 604800000

  /** Space and letter case do not distinguish addresses; other alphabets are left alone. */
  function Normalized(email: string): string {
    Trimmed(Lowered(email))
  }

  function Lowered(s: string): string {
    seq(|s|, i requires 0 <= i < |s| => if 'A' <= s[i] <= 'Z' then (s[i] as int + 32) as char else s[i])
  }

  function Trimmed(s: string): string {
    if s != "" && s[0] == ' ' then Trimmed(s[1..])
    else if s != "" && s[|s| - 1] == ' ' then Trimmed(s[..|s| - 1])
    else s
  }

  /** The text between the outer spaces. */
  predicate IsCore(s: string, i: nat, j: nat) {
    && i <= j <= |s|
    && (forall k :: 0 <= k < i ==> s[k] == ' ') && (forall k :: j <= k < |s| ==> s[k] == ' ')
    && (i < j ==> s[i] != ' ' && s[j - 1] != ' ')
  }

  predicate SameLetter(c: char, d: char) {
    || c == d
    || ('A' <= c <= 'Z' && d as int == c as int + 32) || ('A' <= d <= 'Z' && c as int == d as int + 32)
  }

  predicate SameText(s: string, t: string) {
    |s| == |t| && forall k :: 0 <= k < |s| ==> SameLetter(s[k], t[k])
  }

  lemma {:induction false} TrimmedIsCore(s: string) returns (i: nat, j: nat)
    ensures IsCore(s, i, j) && Trimmed(s) == s[i..j]
  {
    if s != "" && s[0] == ' ' {
      i, j := TrimmedIsCore(s[1..]);
      assert s[1..][i..j] == s[i + 1..j + 1];
      i, j := i + 1, j + 1;
    } else if s != "" && s[|s| - 1] == ' ' {
      i, j := TrimmedIsCore(s[..|s| - 1]);
    } else {
      i, j := 0, |s|;
    }
  }

  lemma CoreIsOne(s: string, i: nat, j: nat, k: nat, l: nat)
    requires IsCore(s, i, j) && IsCore(s, k, l)
    ensures s[i..j] == s[k..l]
  {
    if i < j {
      assert i == k && j == l;
    }
  }

  lemma LoweredAgree(s: string, t: string)
    ensures Lowered(s) == Lowered(t) <==> SameText(s, t)
  {
    if Lowered(s) == Lowered(t) {
      assert |s| == |Lowered(s)| == |Lowered(t)| == |t|;
      forall k | 0 <= k < |s| ensures SameLetter(s[k], t[k]) {
        assert Lowered(s)[k] == Lowered(t)[k];
      }
    }
  }

  lemma LoweredCore(s: string, i: nat, j: nat)
    ensures IsCore(Lowered(s), i, j) <==> IsCore(s, i, j)
    ensures i <= j <= |s| ==> Lowered(s)[i..j] == Lowered(s[i..j])
  {
    assert forall k :: 0 <= k < |s| ==> (Lowered(s)[k] == ' ' <==> s[k] == ' ');
  }

  lemma NormalizedCore(s: string, i: nat, j: nat)
    requires IsCore(s, i, j)
    ensures Normalized(s) == Lowered(s[i..j])
  {
    LoweredCore(s, i, j);
    var k, l := TrimmedIsCore(Lowered(s));
    CoreIsOne(Lowered(s), i, j, k, l);
  }

  /** Two emails are one address exactly if they agree, letter case aside, between their outer spaces. */
  lemma SameAddressIff(a: string, b: string, i: nat, j: nat, k: nat, l: nat)
    requires IsCore(a, i, j) && IsCore(b, k, l)
    ensures Normalized(a) == Normalized(b) <==> SameText(a[i..j], b[k..l])
  {
    NormalizedCore(a, i, j);
    NormalizedCore(b, k, l);
    LoweredAgree(a[i..j], b[k..l]);
  }

  datatype Address = Address(organization: nat, email: string)

  datatype Invitation = Invitation(address: Address, expiresAt: Time, acceptedAt: Option<Time>, createdAt: Time) {
    static function Create(organization: nat, email: string, now: Time): Invitation {
      Invitation(Address(organization, Normalized(email)), now + LIFETIME, None, now)
    }

    predicate IsActive(now: Time) {
      acceptedAt.None? && expiresAt > now
    }

    function Accept(now: Time): Invitation {
      this.(acceptedAt := Some(now))
    }

    function Expire(now: Time): Invitation {
      this.(expiresAt := now)
    }
  }

  type Rows = map<Id, Invitation>

  /** The unaccepted rows of an address, newest first. */
  function Unaccepted(rows: Rows, a: Address): map<Id, int> {
    map id | id in rows && rows[id].address == a && rows[id].acceptedAt.None? :: -(rows[id].createdAt as int)
  }

  function AsSet(found: Option<Id>): set<Id> {
    if found.Some? then {found.value} else {}
  }

  /** The look-up may return `found`; rows created at one instant are in no particular order. */
  ghost predicate IsNewest(rows: Rows, a: Address, found: Option<Id>) {
    Ranking.IsFirst(AsSet(found), Unaccepted(rows, a), 1)
  }

  predicate Refuses(rows: Rows, found: Option<Id>, now: Time) {
    found.Some? && found.value in rows && rows[found.value].IsActive(now)
  }

  /** A whole-row write of the columns that may change, taken from an earlier snapshot. */
  function Updated(rows: Rows, id: Id, snapshot: Invitation): Rows {
    if id !in rows then rows
    else rows[id := rows[id].(acceptedAt := snapshot.acceptedAt, expiresAt := snapshot.expiresAt)]
  }

  /** The row found stands for an invitation that is neither accepted nor past its end. */
  predicate IsInvited(rows: Rows, found: Option<Id>, now: Time) {
    match found
    case None => false
    case Some(id) => id in rows && rows[id].acceptedAt.None? && now < rows[id].expiresAt
  }

  // ----- The code -----

  class OrganizationInvitationRepository {
    var rows: Rows

    method FindActiveByOrganizationAndEmail(organization: nat, email: string) returns (found: Option<Id>)
      ensures IsNewest(rows, Address(organization, Normalized(email)), found)
    {
      var first := Ranking.TakeFirst(Unaccepted(rows, Address(organization, Normalized(email))), 1);
      if first == {} {
        found := None;
      } else {
        var id :| id in first;
        assert |first - {id}| == 0;
        assert first == {id};
        found := Some(id);
      }
    }

    method Create(id: Id, invitation: Invitation)
      modifies this
      ensures rows == old(rows)[id := invitation]
    {
      rows := rows[id := invitation];
    }

    method Update(id: Id, invitation: Invitation)
      modifies this
      ensures rows == Updated(old(rows), id, invitation)
    {
      rows := Updated(rows, id, invitation);
    }
  }

  /**
   What the other tables and services say during one request; `recorded` is whether the audit row
   and the webhook jobs were stored.
   */
  datatype World = World(knownRole: bool, isMember: bool, knownOrganization: bool, recorded: bool, sent: bool)

  datatype Outcome =
    | RoleNotFound
    | MemberAlreadyExists
    | InvitationAlreadyExists
    | OrganizationNotFound
    | NotRecorded
    | EmailFailed
    | Invited

  /** The first check that fails, in the order the code makes them. */
  function Verdict(w: World, refused: bool): Outcome {
    if !w.knownRole then RoleNotFound
    else if w.isMember then MemberAlreadyExists
    else if refused then InvitationAlreadyExists
    else if !w.knownOrganization then OrganizationNotFound
    else if !w.recorded then NotRecorded
    else Invited
  }

  /** The table after one request. */
  function Executed(rows: Rows, id: Id, organization: nat, email: string, found: Option<Id>, w: World,
                    isAsync: bool, now: Time, later: Time): Rows {
    var created := Invitation.Create(organization, email, now);
    if Verdict(w, Refuses(rows, found, now)) != Invited || (!w.sent && isAsync) then rows
    else if w.sent then rows[id := created]
    else Updated(rows[id := created], id, created.Expire(later))
  }

  class CreateOrganizationInvitationUseCase {
    const repository: OrganizationInvitationRepository
    const isAsync: bool

    constructor (repository: OrganizationInvitationRepository, isAsync: bool)
      ensures this.repository == repository && this.isAsync == isAsync
    {
      this.repository, this.isAsync := repository, isAsync;
    }

    /** One transaction: either the new row, or the table as it was. */
    method PrepareInvitation(id: Id, organization: nat, email: string, w: World, now: Time)
      returns (outcome: Outcome, ghost found: Option<Id>)
      requires id !in repository.rows
      modifies repository
      ensures IsNewest(old(repository.rows), Address(organization, Normalized(email)), found)
      ensures outcome == Verdict(w, Refuses(old(repository.rows), found, now))
      ensures outcome == Invited <==>
        w.knownRole && !w.isMember && !IsInvited(old(repository.rows), found, now) && w.knownOrganization && w.recorded
      ensures outcome == InvitationAlreadyExists <==>
        w.knownRole && !w.isMember && IsInvited(old(repository.rows), found, now)
      ensures outcome == MemberAlreadyExists <==> w.knownRole && w.isMember
      ensures outcome == RoleNotFound <==> !w.knownRole
      ensures repository.rows == if outcome == Invited
        then old(repository.rows)[id := Invitation.Create(organization, email, now)] else old(repository.rows)
    {
      var before := repository.rows;
      var existing := repository.FindActiveByOrganizationAndEmail(organization, email);
      found := existing;
      if !w.knownRole {
        outcome := RoleNotFound;
      } else if w.isMember {
        outcome := MemberAlreadyExists;
      } else if existing.Some? && existing.value in repository.rows && repository.rows[existing.value].IsActive(now) {
        outcome := InvitationAlreadyExists;
      } else if !w.knownOrganization {
        outcome := OrganizationNotFound;
      } else {
        repository.Create(id, Invitation.Create(organization, email, now));
        outcome := Invited;
        if !w.recorded {
          repository.rows := before;
          outcome := NotRecorded;
        }
      }
    }

    /**
     With a queued email a failure rolls the row back; with an email sent inline the row is already committed
     and is expired instead, at the time `later` of the failure.
     */
    method Execute(id: Id, organization: nat, email: string, w: World, now: Time, later: Time)
      returns (outcome: Outcome, ghost found: Option<Id>)
      requires id !in repository.rows && now <= later
      modifies repository
      ensures IsNewest(old(repository.rows), Address(organization, Normalized(email)), found)
      ensures outcome == (var verdict := Verdict(w, Refuses(old(repository.rows), found, now));
                          if verdict == Invited && !w.sent then EmailFailed else verdict)
      ensures repository.rows == Executed(old(repository.rows), id, organization, email, found, w, isAsync, now, later)
    {
      var before := repository.rows;
      outcome, found := PrepareInvitation(id, organization, email, w, now);
      if outcome == Invited && !w.sent {
        outcome := EmailFailed;
        if isAsync {
          repository.rows := before;
        } else {
          repository.Update(id, Invitation.Create(organization, email, now).Expire(later));
        }
      }
    }
  }

  /** What the request to accept is up against; the last two tell which of its writes the database takes. */
  datatype Guest = Guest(
    tokenMatches: bool, known: bool, email: string, isMember: bool,
    memberStored: bool, rowStored: bool)

  class AcceptOrganizationInvitationUseCase {
    const repository: OrganizationInvitationRepository

    constructor (repository: OrganizationInvitationRepository)
      ensures this.repository == repository
    {
      this.repository := repository;
    }

    /** The membership (`joined`) and the acceptance are separate writes, in this order and in no transaction. */
    method Execute(id: Id, g: Guest, now: Time) returns (joined: bool, accepted: bool)
      modifies repository
      ensures joined <==>
        && id in old(repository.rows) && old(repository.rows)[id].IsActive(now)
        && g.tokenMatches && g.known && g.email == old(repository.rows)[id].address.email && !g.isMember
        && g.memberStored
      ensures accepted <==> joined && g.rowStored
      ensures repository.rows ==
        if accepted then old(repository.rows)[id := old(repository.rows)[id].(acceptedAt := Some(now))]
        else old(repository.rows)
    {
      joined, accepted := false, false;
      if id !in repository.rows || !repository.rows[id].IsActive(now) {
        return;
      }
      var invitation := repository.rows[id];
      if !g.tokenMatches || !g.known || g.email != invitation.address.email || g.isMember {
        return;
      }
      joined := g.memberStored;
      if joined && g.rowStored {
        repository.Update(id, invitation.Accept(now));
        accepted := true;
      }
    }
  }

  // ----- The protocol: creations check and insert in one step, failed emails are compensated any time later -----

  /** `unsent` holds the snapshots of invitations whose inline email has not been settled. */
  datatype State = State(now: Time, rows: Rows, unsent: Rows)

  datatype Event =
    | Tick(now: Time)
    | Create(id: Id, organization: nat, email: string, found: Option<Id>, isInline: bool)
    | SendSucceeds(id: Id)
    | SendFails(id: Id)
    | Accept(id: Id)

  function Init(): State {
    State(0, map[], map[])
  }

  /** Of the rows created at one instant only one may ever be looked at again: the others are accepted for good. */
  predicate IsSettled(s: State, id: Id) {
    id in s.rows && s.rows[id].acceptedAt.Some? && id !in s.unsent
  }

  /** A row of the address was created at this very instant and may still turn up in a later look-up. */
  ghost predicate Clashes(s: State, a: Address) {
    exists id :: id in s.rows && s.rows[id].address == a && s.rows[id].createdAt == s.now && !IsSettled(s, id)
  }

  ghost predicate Enabled(guarded: bool, s: State, e: Event) {
    match e
    case Tick(now) => s.now <= now
    case Create(id, organization, email, found, _) =>
      var a := Address(organization, Normalized(email));
      id !in s.rows && IsNewest(s.rows, a, found) && !Refuses(s.rows, found, s.now) && (guarded ==> !Clashes(s, a))
    case SendSucceeds(id) => id in s.unsent
    case SendFails(id) => id in s.unsent
    case Accept(id) => id in s.rows && s.rows[id].IsActive(s.now)
  }

  ghost function Apply(s: State, e: Event): State {
    match e
    case Tick(now) => s.(now := now)
    case Create(id, organization, email, _, isInline) =>
      var created := Invitation.Create(organization, email, s.now);
      s.(rows := s.rows[id := created], unsent := if isInline then s.unsent[id := created] else s.unsent)
    case SendSucceeds(id) => s.(unsent := s.unsent - {id})
    case SendFails(id) =>
      if id !in s.unsent then s
      else s.(rows := Updated(s.rows, id, s.unsent[id].Expire(s.now)), unsent := s.unsent - {id})
    case Accept(id) => if id !in s.rows then s else s.(rows := Updated(s.rows, id, s.rows[id].Accept(s.now)))
  }

  ghost predicate Runs(guarded: bool, s: State, events: seq<Event>, s': State)
    decreases |events|
  {
    if events == [] then s == s'
    else Enabled(guarded, s, events[0]) && Runs(guarded, Apply(s, events[0]), events[1..], s')
  }

  lemma RunsStart(guarded: bool, s: State, e: Event, events: seq<Event>, s': State)
    requires Enabled(guarded, s, e) && Runs(guarded, Apply(s, e), events, s')
    ensures Runs(guarded, s, [e] + events, s')
  {
    assert ([e] + events)[1..] == events;
  }

  /** A request of the code is a run of the protocol that ends with the same table. */
  lemma RequestIsARun(guarded: bool, s: State, id: Id, organization: nat, email: string, found: Option<Id>,
                      w: World, isAsync: bool, later: Time) returns (events: seq<Event>, s': State)
    requires id !in s.rows && IsNewest(s.rows, Address(organization, Normalized(email)), found) && s.now <= later
    requires guarded ==> !Clashes(s, Address(organization, Normalized(email)))
    ensures Runs(guarded, s, events, s')
    ensures s'.rows == Executed(s.rows, id, organization, email, found, w, isAsync, s.now, later)
  {
    if Verdict(w, Refuses(s.rows, found, s.now)) != Invited || (!w.sent && isAsync) {
      return [], s;
    }
    var create, tick := Create(id, organization, email, found, !isAsync), Tick(later);
    var s1 := Apply(s, create);
    if w.sent {
      events, s' := [create], s1;
      assert Runs(guarded, s1, [], s1);
      RunsStart(guarded, s, create, [], s1);
    } else {
      var s2 := Apply(s1, tick);
      s' := Apply(s2, SendFails(id));
      assert Runs(guarded, s', [], s');
      RunsStart(guarded, s2, SendFails(id), [], s');
      RunsStart(guarded, s1, tick, [SendFails(id)], s');
      RunsStart(guarded, s, create, [tick] + [SendFails(id)], s');
      events := [create] + ([tick] + [SendFails(id)]);
    }
  }

  /** Of two rows of an address the older is inactive, and of two equally new ones one is settled. */
  ghost predicate Fit(s: State, i: Id, j: Id) {
    i in s.rows && j in s.rows && s.rows[i].address == s.rows[j].address ==>
      && (s.rows[i].createdAt < s.rows[j].createdAt ==> !s.rows[i].IsActive(s.now))
      && (s.rows[i].createdAt == s.rows[j].createdAt ==> IsSettled(s, i) || IsSettled(s, j))
  }

  /** Whatever became of them, all rows of an address but the newest are inactive. */
  ghost predicate OnlyNewestActive(s: State) {
    && (forall id :: id in s.rows ==> s.rows[id].createdAt <= s.now)
    && forall i, j {:trigger Fit(s, i, j)} :: i != j ==> Fit(s, i, j)
  }

  ghost predicate Inv(s: State) {
    && OnlyNewestActive(s)
    && forall id :: id in s.unsent ==> id in s.rows && s.unsent[id].acceptedAt.None?
  }

  ghost predicate HasActive(s: State, a: Address) {
    exists id :: id in s.rows && s.rows[id].address == a && s.rows[id].IsActive(s.now)
  }

  /** Looking at the newest unaccepted row alone decides whether any row of the address is active. */
  lemma RefusedIffActive(s: State, a: Address, found: Option<Id>)
    requires OnlyNewestActive(s) && IsNewest(s.rows, a, found)
    ensures Refuses(s.rows, found, s.now) <==> HasActive(s, a)
  {
    var pool := Unaccepted(s.rows, a);
    if id :| id in s.rows && s.rows[id].address == a && s.rows[id].IsActive(s.now) {
      assert id in pool;
      assert |pool.Keys - {id}| == |pool.Keys| - 1;
      assert found.value in AsSet(found);
      var fits := Fit(s, id, found.value) && Fit(s, found.value, id);
    }
    if Refuses(s.rows, found, s.now) {
      assert found.value in AsSet(found);
      assert s.rows[found.value].address == a;
    }
  }

  lemma CreateKeepsInv(s: State, id: Id, organization: nat, email: string, found: Option<Id>, isInline: bool)
    requires Inv(s) && Enabled(true, s, Create(id, organization, email, found, isInline))
    ensures Inv(Apply(s, Create(id, organization, email, found, isInline)))
  {
    var a, s' := Address(organization, Normalized(email)), Apply(s, Create(id, organization, email, found, isInline));
    RefusedIffActive(s, a, found);
    forall i, j | i != j ensures Fit(s', i, j) {
      if i != id && j != id {
        assert Fit(s, i, j);
      } else {
        var other := if i == id then j else i;
        assert other in s.rows && s.rows[other].address == a ==> !s.rows[other].IsActive(s.now);
        assert other in s.rows && s.rows[other].address == a && s.rows[other].createdAt == s.now ==>
          IsSettled(s, other);
      }
    }
  }

  /** Rows may be accepted or expired, and settled rows stay settled. */
  lemma LaterFits(s: State, s': State)
    requires OnlyNewestActive(s) && s.now <= s'.now && s'.rows.Keys == s.rows.Keys
    requires forall id :: id in s.rows ==>
      && s'.rows[id].address == s.rows[id].address && s'.rows[id].createdAt == s.rows[id].createdAt
      && (!s.rows[id].IsActive(s.now) ==> !s'.rows[id].IsActive(s'.now))
      && (IsSettled(s, id) ==> IsSettled(s', id))
    ensures OnlyNewestActive(s')
  {
    forall i, j | i != j ensures Fit(s', i, j) {
      assert Fit(s, i, j);
    }
  }

  lemma StepKeepsInv(s: State, e: Event)
    requires Inv(s) && Enabled(true, s, e)
    ensures Inv(Apply(s, e))
  {
    match e
    case Create(id, organization, email, found, isInline) =>
      CreateKeepsInv(s, id, organization, email, found, isInline);
    case _ => LaterFits(s, Apply(s, e));
  }

  lemma {:induction false} RunKeepsInv(s: State, events: seq<Event>, s': State)
    requires Inv(s) && Runs(true, s, events, s')
    ensures Inv(s')
    decreases |events|
  {
    if events == [] {
    } else {
      StepKeepsInv(s, events[0]);
      RunKeepsInv(Apply(s, events[0]), events[1..], s');
    }
  }

  ghost predicate OneActive(s: State) {
    forall i, j :: BothActive(s, i, j) ==> i == j
  }

  predicate BothActive(s: State, i: Id, j: Id) {
    && i in s.rows && j in s.rows && s.rows[i].address == s.rows[j].address
    && s.rows[i].IsActive(s.now) && s.rows[j].IsActive(s.now)
  }

  lemma InvMeansOneActive(s: State)
    requires Inv(s)
    ensures OneActive(s)
  {
    forall i, j | BothActive(s, i, j) ensures i == j {
      var fits := Fit(s, i, j) && Fit(s, j, i);
    }
  }

  /** At most one active invitation per address, in every run without clashing creations. */
  lemma AtMostOneActive(events: seq<Event>, s: State)
    requires Runs(true, Init(), events, s)
    ensures OneActive(s)
  {
    RunKeepsInv(Init(), events, s);
    InvMeansOneActive(s);
  }

  /** In such a run a creation gets past the look-up exactly when the address has no active invitation. */
  lemma LookUpIsExact(events: seq<Event>, s: State, a: Address, found: Option<Id>)
    requires Runs(true, Init(), events, s) && IsNewest(s.rows, a, found)
    ensures Refuses(s.rows, found, s.now) <==> HasActive(s, a)
  {
    RunKeepsInv(Init(), events, s);
    RefusedIffActive(s, a, found);
  }

  // ----- Which creations are safe -----

  /** Two unaccepted rows share the address's newest instant, `stale` inactive and `live` active. */
  ghost predicate Confused(s: State, a: Address, stale: Id, live: Id) {
    && stale in s.rows && live in s.rows && s.rows[stale].address == a && s.rows[live].address == a
    && s.rows[stale].acceptedAt.None? && s.rows[stale].expiresAt <= s.now
    && s.rows[live].acceptedAt.None? && s.rows[live].expiresAt > s.now + 1
    && s.rows[stale].createdAt == s.rows[live].createdAt <= s.now
    && forall id :: id in s.rows ==> s.rows[id].createdAt <= s.rows[live].createdAt
  }

  /** One millisecond later the look-up may return the inactive one, and a second active row is made. */
  lemma ConfusedLookUp(s: State, organization: nat, email: string, stale: Id, live: Id)
    returns (events: seq<Event>, s': State)
    requires Confused(s, Address(organization, Normalized(email)), stale, live)
    ensures Runs(true, s, events, s') && !OneActive(s')
  {
    var a := Address(organization, Normalized(email));
    var id := FreshIds.Above(s.rows.Keys);
    var e, f := Tick(s.now + 1), Create(id, organization, email, Some(stale), false);
    var s1 := Apply(s, e);
    var pool := Unaccepted(s1.rows, a);
    assert stale in pool && |pool.Keys - {stale}| == |pool.Keys| - 1;
    assert Enabled(true, s1, f);
    s' := Apply(s1, f);
    assert Runs(true, s', [], s');
    RunsStart(true, s1, f, [], s');
    RunsStart(true, s, e, [f] + [], s');
    events := [e] + ([f] + []);
    assert BothActive(s', live, id);
  }

  lemma UnacceptedClash(s: State, a: Address, id: Id, created: Invitation, other: Id, unsent: Rows)
    requires OnlyNewestActive(s) && !HasActive(s, a) && id !in s.rows
    requires created == Invitation(a, s.now + LIFETIME, None, s.now)
    requires other in s.rows && s.rows[other].address == a && s.rows[other].createdAt == s.now
    requires s.rows[other].acceptedAt.None?
    ensures Confused(s.(rows := s.rows[id := created], unsent := unsent), a, other, id)
  {
  }

  /** The failed email of an accepted invitation is settled from a snapshot that takes the acceptance back. */
  lemma AcceptedClash(s: State, a: Address, id: Id, created: Invitation, other: Id, snapshot: Invitation, unsent: Rows)
    requires OnlyNewestActive(s) && id !in s.rows && created == Invitation(a, s.now + LIFETIME, None, s.now)
    requires other in s.rows && s.rows[other].address == a && s.rows[other].createdAt == s.now
    requires snapshot.acceptedAt.None?
    ensures var rows := Updated(s.rows[id := created], other, snapshot.Expire(s.now));
      Confused(s.(rows := rows, unsent := unsent), a, other, id)
  {
  }

  /** A creation that clashes with `other` leads there, at once or after the other's email has failed. */
  lemma ClashConfuses(s: State, id: Id, organization: nat, email: string, found: Option<Id>, isInline: bool, other: Id)
    returns (events: seq<Event>, s': State)
    requires Inv(s) && Enabled(false, s, Create(id, organization, email, found, isInline))
    requires other in s.rows && s.rows[other].address == Address(organization, Normalized(email))
    requires s.rows[other].createdAt == s.now && !IsSettled(s, other)
    ensures Runs(true, Apply(s, Create(id, organization, email, found, isInline)), events, s') && !OneActive(s')
  {
    var a, created := Address(organization, Normalized(email)), Invitation.Create(organization, email, s.now);
    var s1 := Apply(s, Create(id, organization, email, found, isInline));
    RefusedIffActive(s, a, found);
    if s.rows[other].acceptedAt.None? {
      UnacceptedClash(s, a, id, created, other, s1.unsent);
      assert s1 == s.(rows := s.rows[id := created], unsent := s1.unsent);
      events, s' := ConfusedLookUp(s1, organization, email, other, id);
    } else {
      var e := SendFails(other);
      var s2 := Apply(s1, e);
      AcceptedClash(s, a, id, created, other, s.unsent[other], s2.unsent);
      var rows := Updated(s.rows[id := created], other, s.unsent[other].Expire(s.now));
      assert s2 == s.(rows := rows, unsent := s2.unsent);
      events, s' := ConfusedLookUp(s2, organization, email, other, id);
      RunsStart(true, s1, e, events, s');
      events := [e] + events;
    }
  }

  ghost predicate MayHaveTwoActive(s: State) {
    exists events, s' :: Runs(true, s, events, s') && !OneActive(s')
  }

  /**
   From any state reached without clashes, one more creation that gets past the look-up can lead to two active
   invitations, no later creation clashing, exactly when it clashes itself.
   */
  lemma CreationIsUnsafeIff(before: seq<Event>, s: State, id: Id, organization: nat, email: string,
                            found: Option<Id>, isInline: bool)
    requires Runs(true, Init(), before, s) && Enabled(false, s, Create(id, organization, email, found, isInline))
    ensures MayHaveTwoActive(Apply(s, Create(id, organization, email, found, isInline)))
      <==> Clashes(s, Address(organization, Normalized(email)))
  {
    var a, e := Address(organization, Normalized(email)), Create(id, organization, email, found, isInline);
    RunKeepsInv(Init(), before, s);
    if Clashes(s, a) {
      var other :| other in s.rows && s.rows[other].address == a && s.rows[other].createdAt == s.now
        && !IsSettled(s, other);
      var events, s' := ClashConfuses(s, id, organization, email, found, isInline, other);
    } else {
      StepKeepsInv(s, e);
      forall events, s' | Runs(true, Apply(s, e), events, s') ensures OneActive(s') {
        RunKeepsInv(Apply(s, e), events, s');
        InvMeansOneActive(s');
      }
    }
  }

  lemma CreateWhileExpired(s: State, id: Id, email: string)
    requires s.now == 0 && 1 in s.rows && id !in s.rows && s.rows[1] == Invitation.Create(0, email, 0).Expire(0)
    requires forall i :: i in s.rows ==> s.rows[i].createdAt == 0
    ensures Enabled(false, s, Create(id, 0, email, Some(1), true))
  {
    var pool := Unaccepted(s.rows, Address(0, Normalized(email)));
    assert 1 in pool;
    assert |pool.Keys - {1}| == |pool.Keys| - 1;
  }

  /** The address has an expired row, and two requests of the same instant both find that one. */
  lemma TwoCreated(s: State, email: string) returns (s': State)
    requires s.now == 0 && s.rows == map[1 := Invitation.Create(0, email, 0).Expire(0)]
    ensures Runs(false, s, [Create(2, 0, email, Some(1), true), Create(3, 0, email, Some(1), true)], s')
    ensures !OneActive(s')
  {
    var e, f := Create(2, 0, email, Some(1), true), Create(3, 0, email, Some(1), true);
    CreateWhileExpired(s, 2, email);
    var s1 := Apply(s, e);
    CreateWhileExpired(s1, 3, email);
    s' := Apply(s1, f);
    assert Runs(false, s', [], s');
    RunsStart(false, s1, f, [], s');
    RunsStart(false, s, e, [f], s');
    assert [f] + [] == [f] && [e] + [f] == [e, f];
    assert BothActive(s', 2, 3);
  }

  lemma CreateAndFail(email: string) returns (s: State)
    ensures s.now == 0 && s.rows == map[1 := Invitation.Create(0, email, 0).Expire(0)]
    ensures Enabled(false, Init(), Create(1, 0, email, None, true))
    ensures Enabled(false, Apply(Init(), Create(1, 0, email, None, true)), SendFails(1))
    ensures s == Apply(Apply(Init(), Create(1, 0, email, None, true)), SendFails(1))
  {
    assert Unaccepted(map[], Address(0, Normalized(email))) == map[];
    s := Apply(Apply(Init(), Create(1, 0, email, None, true)), SendFails(1));
  }

  /** Three requests in one millisecond, the first failing to send: the third look-up may return the expired row. */
  lemma TieBreaksUniqueness(email: string) returns (events: seq<Event>, s: State)
    ensures Runs(false, Init(), events, s) && !OneActive(s)
  {
    var e := Create(1, 0, email, None, true);
    var failed := CreateAndFail(email);
    s := TwoCreated(failed, email);
    events := [Create(2, 0, email, Some(1), true), Create(3, 0, email, Some(1), true)];
    RunsStart(false, Apply(Init(), e), SendFails(1), events, s);
    events := [SendFails(1)] + events;
    RunsStart(false, Init(), e, events, s);
    events := [e] + events;
  }

  // ----- How long an invitation lasts -----

  /** A row whose email never failed ends seven days after its creation. */
  predicate LastsAWeek(rows: Rows, id: Id) {
    id in rows ==> rows[id].expiresAt == rows[id].createdAt + 604800000
  }

  lemma {:induction false} EndStays(guarded: bool, s: State, events: seq<Event>, s': State, id: Id)
    requires Runs(guarded, s, events, s') && LastsAWeek(s.rows, id)
    requires forall e: Event :: e in events ==> e != SendFails(id)
    ensures LastsAWeek(s'.rows, id)
    decreases |events|
  {
    if events == [] {
    } else {
      assert events[0] in events && forall e: Event :: e in events[1..] ==> e in events;
      EndStays(guarded, Apply(s, events[0]), events[1..], s', id);
    }
  }

  /** An invitation whose email did not fail is active until it is accepted or seven days have passed. */
  lemma ActiveForAWeekIff(guarded: bool, events: seq<Event>, s: State, id: Id)
    requires Runs(guarded, Init(), events, s) && id in s.rows
    requires forall e: Event :: e in events ==> e != SendFails(id)
    ensures s.rows[id].IsActive(s.now) <==> s.rows[id].acceptedAt.None? && s.now - s.rows[id].createdAt < 604800000
  {
    EndStays(guarded, Init(), events, s, id);
  }
}
