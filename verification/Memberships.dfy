/**
 Organizations, their members and the work that goes with a membership change: adding a member
 stores the membership, an audit row and one webhook job per subscribed endpoint in one transaction.
 */
module Memberships {
  import opened Wrappers
  import opened JobOutbox

  /** Codes of roles; the first five are the built-in ones, in order of privilege. */
  type RoleCode = nat

  const OWNER: RoleCode := 0
  const MEMBER: RoleCode := 3

  datatype Member = Member(user: nat, organization: nat, role: RoleCode)

  datatype Action = Added | RoleChanged | Removed

  datatype Audit = Audit(action: Action, organization: nat, member: nat)

  datatype DeduplicationKey = DeduplicationKey(eventId: nat, endpointId: nat)

  /** An outbox row with its deduplication key. */
  datatype Queued = Queued(job: Job, key: DeduplicationKey)

  datatype Tables = Tables(
    organizations: map<nat, string>,
    members: map<nat, Member>,
    audit: seq<Audit>,
    outbox: map<JobId, Queued>)

  function InOrganization(t: Tables, organization: nat): set<nat> {
    set m | m in t.members && t.members[m].organization == organization
  }

  function Owners(t: Tables, organization: nat): set<nat> {
    set m | m in InOrganization(t, organization) && t.members[m].role == OWNER
  }

  predicate IsMember(t: Tables, user: nat, organization: nat) {
    exists m :: m in InOrganization(t, organization) && t.members[m].user == user
  }

  predicate Distinct(s: seq<nat>) {
    forall i, j :: 0 <= i < j < |s| ==> s[i] != s[j]
  }

  // ----- The connection: what the current transaction sees, and what it would be rolled back to -----

  class Database {
    var tables: Tables
    var savepoint: Option<Tables>
    var nextId: nat

    constructor ()
      ensures Valid() && savepoint.None? && tables == Tables(map[], map[], [], map[])
    {
      tables, savepoint, nextId := Tables(map[], map[], [], map[]), None, 0;
    }

    /** Every identifier in use was drawn here. */
    ghost predicate Valid()
      reads this
    {
      FreshFrom(tables, nextId) && (savepoint.Some? ==> FreshFrom(savepoint.value, nextId))
    }

    method Draw() returns (id: nat)
      modifies this`nextId
      ensures id == old(nextId) && nextId == id + 1
    {
      id, nextId := nextId, nextId + 1;
    }

    /** Opens a transaction, or joins the one already open in the ambient context. */
    method Begin() returns (joined: bool)
      modifies this`savepoint
      ensures joined == old(savepoint).Some?
      ensures savepoint == if joined then old(savepoint) else Some(tables)
    {
      joined := savepoint.Some?;
      if !joined {
        savepoint := Some(tables);
      }
    }

    /** Ends the transaction if this caller opened it: commit, or roll back when its operation threw. */
    method End(joined: bool, threw: bool)
      requires savepoint.Some?
      modifies this`savepoint, this`tables
      ensures joined ==> savepoint == old(savepoint) && tables == old(tables)
      ensures !joined ==> savepoint.None? && tables == if threw then old(savepoint).value else old(tables)
    {
      if !joined {
        if threw {
          tables := savepoint.value;
        }
        savepoint := None;
      }
    }
  }

  ghost predicate FreshFrom(t: Tables, next: nat) {
    && (forall m :: m in t.members ==> m < next)
    && (forall o :: o in t.organizations ==> o < next)
    && (forall j :: j in t.outbox ==> j < next && t.outbox[j].key.eventId < next)
  }

  // ----- Fan-out -----

  function NewJob(endpoint: nat, event: nat, now: Time): Queued {
    Queued(Job.Create(WebhookDelivery, Payload(true, endpoint), now, now), DeduplicationKey(event, endpoint))
  }

  /** The outbox after one event is queued for every endpoint, the jobs numbered from `first`. */
  function FannedOut(
    outbox: map<JobId, Queued>, endpoints: seq<nat>, event: nat, first: nat, now: Time): map<JobId, Queued>
  {
    if endpoints == [] then outbox
    else
      var last := |endpoints| - 1;
      FannedOut(outbox, endpoints[..last], event, first, now)[first + last := NewJob(endpoints[last], event, now)]
  }

  lemma {:induction false} FannedOutMeans(
    outbox: map<JobId, Queued>, endpoints: seq<nat>, event: nat, first: nat, now: Time)
    ensures var after := FannedOut(outbox, endpoints, event, first, now);
      && (forall j :: j in after <==> j in outbox || first <= j < first + |endpoints|)
      && (forall j :: j in after && first <= j < first + |endpoints| ==>
            after[j] == NewJob(endpoints[j - first], event, now))
      && (forall j :: j in outbox && !(first <= j < first + |endpoints|) ==> after[j] == outbox[j])
    decreases |endpoints|
  {
    if endpoints == [] {
    } else {
      FannedOutMeans(outbox, endpoints[..|endpoints| - 1], event, first, now);
    }
  }

  class OutboxAsyncJobDispatcher {
    const db: Database

    constructor (db: Database)
      ensures this.db == db
    {
      this.db := db;
    }

    /** Inserts one row under a fresh id, if the database takes it. */
    method Dispatch(job: Queued, stored: bool) returns (threw: bool)
      requires db.Valid() && job.key.eventId < db.nextId
      modifies db`tables, db`nextId
      ensures db.Valid() && db.nextId == old(db.nextId) + 1 && threw == !stored
      ensures db.tables ==
        if threw then old(db.tables) else old(db.tables).(outbox := old(db.tables.outbox)[old(db.nextId) := job])
    {
      var id := db.Draw();
      if stored {
        db.tables := db.tables.(outbox := db.tables.outbox[id := job]);
      }
      threw := !stored;
    }
  }

  class PublishWebhookEventService {
    const db: Database
    const dispatcher: OutboxAsyncJobDispatcher

    constructor (db: Database)
      ensures this.db == db && dispatcher.db == db
    {
      this.db := db;
      dispatcher := new OutboxAsyncJobDispatcher(db);
    }

    /**
     `endpoints` are the subscribed ones, as the query lists them; `stored` tells which of the inserts,
     made independently of one another, the database accepts.
     */
    method Publish(endpoints: seq<nat>, stored: set<nat>, now: Time) returns (threw: bool)
      requires db.Valid() && dispatcher.db == db
      modifies db`tables, db`nextId
      ensures db.Valid() && db.nextId >= old(db.nextId)
      ensures threw <==> exists i :: 0 <= i < |endpoints| && i !in stored
      ensures !threw ==> db.tables == old(db.tables).(
          outbox := FannedOut(old(db.tables.outbox), endpoints, old(db.nextId), old(db.nextId) + 1, now))
    {
      threw := false;
      if |endpoints| == 0 {
        return;
      }
      var event := db.Draw();
      for i := 0 to |endpoints|
        invariant db.Valid() && db.nextId == event + 1 + i
        invariant threw <==> exists k :: 0 <= k < i && k !in stored
        invariant !threw ==> db.tables == old(db.tables).(
            outbox := FannedOut(old(db.tables.outbox), endpoints[..i], event, event + 1, now))
      {
        var failed := dispatcher.Dispatch(NewJob(endpoints[i], event, now), i in stored);
        threw := threw || failed;
        assert endpoints[..i + 1][..i] == endpoints[..i];
      }
      assert endpoints[..|endpoints|] == endpoints;
    }
  }

  // ----- Adding a member -----

  /**
   The other tables during one request: known users and roles, subscribed endpoints in query order, and
   which of its own writes the database accepts.
   */
  datatype World = World(
    users: set<nat>, roles: set<RoleCode>, endpoints: seq<nat>,
    memberStored: bool, auditStored: bool, jobsStored: set<nat>)

  datatype Outcome =
    | UserNotFound
    | MemberAlreadyExists
    | RoleNotFound
    | OrganizationAlreadyExists
    | MemberNotFound
    | LastOwner
    | NotStored
    | Done

  predicate AllJobsStored(w: World) {
    forall i :: 0 <= i < |w.endpoints| ==> i in w.jobsStored
  }

  function RoleOr(role: Option<RoleCode>): RoleCode {
    if role.Some? then role.value else MEMBER
  }

  /** The first check or write that fails. */
  function AddVerdict(t: Tables, organization: nat, user: nat, role: RoleCode, w: World): Outcome {
    if user !in w.users then UserNotFound
    else if IsMember(t, user, organization) then MemberAlreadyExists
    else if role !in w.roles then RoleNotFound
    else if organization !in t.organizations || !w.memberStored || !w.auditStored || !AllJobsStored(w) then NotStored
    else Done
  }

  /** The tables with the new member `id`, its audit row, and the jobs numbered from `id + 2`. */
  function WithMember(
    t: Tables, id: nat, organization: nat, user: nat, role: RoleCode, endpoints: seq<nat>, now: Time): Tables
  {
    t.(members := t.members[id := Member(user, organization, role)],
       audit := t.audit + [Audit(Added, organization, id)],
       outbox := FannedOut(t.outbox, endpoints, id + 1, id + 2, now))
  }

  class AddMemberUseCase {
    const db: Database
    const publisher: PublishWebhookEventService

    constructor (db: Database)
      ensures this.db == db && publisher.db == db && publisher.dispatcher.db == db
    {
      this.db := db;
      publisher := new PublishWebhookEventService(db);
    }

    predicate Wired() {
      publisher.db == db && publisher.dispatcher.db == db
    }

    /** What runs inside the transaction. */
    method AddWithin(organization: nat, user: nat, role: Option<RoleCode>, w: World, now: Time)
      returns (outcome: Outcome)
      requires db.Valid() && Wired()
      modifies db`tables, db`nextId
      ensures db.Valid() && db.nextId >= old(db.nextId)
      ensures outcome == AddVerdict(old(db.tables), organization, user, RoleOr(role), w)
      ensures outcome == Done ==>
        && db.tables == WithMember(old(db.tables), old(db.nextId), organization, user, RoleOr(role), w.endpoints, now)
    {
      if user !in w.users {
        return UserNotFound;
      }
      if IsMember(db.tables, user, organization) {
        return MemberAlreadyExists;
      }
      var code := RoleOr(role);
      if code !in w.roles {
        return RoleNotFound;
      }
      if organization !in db.tables.organizations || !w.memberStored {
        return NotStored;
      }
      var id := db.Draw();
      db.tables := db.tables.(members := db.tables.members[id := Member(user, organization, code)]);
      if !w.auditStored {
        return NotStored;
      }
      db.tables := db.tables.(audit := db.tables.audit + [Audit(Added, organization, id)]);
      var threw := publisher.Publish(w.endpoints, w.jobsStored, now);
      outcome := if threw then NotStored else Done;
    }

    /**
     All of it or nothing, unless an enclosing transaction is open, which then decides. The role defaults to that of
     an ordinary member; the jobs are those of `OneJobPerEndpoint`.
     */
    method Execute(organization: nat, user: nat, role: Option<RoleCode>, w: World, now: Time) returns (outcome: Outcome)
      requires db.Valid() && Wired()
      modifies db
      ensures db.Valid() && db.nextId >= old(db.nextId) && db.savepoint == old(db.savepoint)
      ensures outcome == AddVerdict(old(db.tables), organization, user, RoleOr(role), w)
      ensures outcome == Done <==>
        && user in w.users && organization in old(db.tables).organizations
        && (if role.Some? then role.value else MEMBER) in w.roles
        && !(exists m :: m in old(db.tables).members && old(db.tables).members[m].organization == organization
               && old(db.tables).members[m].user == user)
        && w.memberStored && w.auditStored && forall i :: 0 <= i < |w.endpoints| ==> i in w.jobsStored
      ensures outcome == UserNotFound <==> user !in w.users
      ensures outcome == MemberAlreadyExists ==>
        exists m :: m in old(db.tables).members && old(db.tables).members[m].organization == organization
          && old(db.tables).members[m].user == user
      ensures outcome == RoleNotFound ==> (if role.Some? then role.value else MEMBER) !in w.roles
      ensures outcome == Done ==>
        && db.tables.members == old(db.tables.members)[old(db.nextId) :=
             Member(user, organization, if role.Some? then role.value else MEMBER)]
        && db.tables.audit == old(db.tables.audit) + [Audit(Added, organization, old(db.nextId))]
        && db.tables.organizations == old(db.tables.organizations)
        && db.tables.outbox ==
             FannedOut(old(db.tables.outbox), w.endpoints, old(db.nextId) + 1, old(db.nextId) + 2, now)
      ensures outcome == Done ==>
        && db.tables == WithMember(old(db.tables), old(db.nextId), organization, user, RoleOr(role), w.endpoints, now)
      ensures outcome != Done && old(db.savepoint).None? ==> db.tables == old(db.tables)
    {
      var joined := db.Begin();
      outcome := AddWithin(organization, user, role, w, now);
      db.End(joined, outcome != Done);
    }

    /** Any larger operation that adds a member inside its own transaction and may fail afterwards. */
    method ExecuteWithin(organization: nat, user: nat, role: Option<RoleCode>, w: World, now: Time, restSucceeds: bool)
      returns (outcome: Outcome)
      requires db.Valid() && Wired() && db.savepoint.None?
      modifies db
      ensures db.Valid() && db.savepoint.None?
      ensures db.tables ==
        if outcome == Done && restSucceeds
        then WithMember(old(db.tables), old(db.nextId), organization, user, RoleOr(role), w.endpoints, now)
        else old(db.tables)
    {
      var joined := db.Begin();
      outcome := Execute(organization, user, role, w, now);
      db.End(joined, outcome != Done || !restSucceeds);
    }
  }

  lemma FannedOutJobs(outbox: map<JobId, Queued>, endpoints: seq<nat>, event: nat, first: nat, now: Time)
    requires forall j :: j in outbox ==> j < first
    ensures var after := FannedOut(outbox, endpoints, event, first, now);
      && (forall j :: j in outbox ==> j in after && after[j] == outbox[j])
      && (forall j :: j in after && j !in outbox ==> first <= j < first + |endpoints|)
      && (forall j :: first <= j < first + |endpoints| ==>
            j in after && j !in outbox && after[j] == NewJob(endpoints[j - first], event, now))
  {
    FannedOutMeans(outbox, endpoints, event, first, now);
  }

  /** A webhook job as it is queued: due at once, not tried yet, and keyed by its event and endpoint. */
  predicate IsFreshWebhook(q: Queued, event: nat, now: Time) {
    && q.job.jobType == WebhookDelivery && q.job.payload.wellFormed
    && q.job.status == Pending && q.job.attemptCount == 0 && q.job.nextAttemptAt == now && q.job.createdAt == now
    && q.key.eventId == event && q.key.endpointId == q.job.payload.endpointId
  }

  /** The jobs an added member leaves: one for each subscribed endpoint and no other, under keys used nowhere else. */
  lemma OneJobPerEndpoint(outbox: map<JobId, Queued>, endpoints: seq<nat>, event: nat, now: Time)
    requires Distinct(endpoints)
    requires forall j :: j in outbox ==> j < event && outbox[j].key.eventId < event
    ensures var after := FannedOut(outbox, endpoints, event, event + 1, now);
      var jobs := after.Keys - outbox.Keys;
      && (forall e :: e in endpoints ==> exists j :: j in jobs && after[j].job.payload.endpointId == e)
      && (forall j :: j in jobs ==>
            after[j].job.payload.endpointId in endpoints && IsFreshWebhook(after[j], event, now))
      && (forall j :: j in outbox ==> j in after && after[j] == outbox[j])
      && (forall j, k :: j in jobs && k in after && j != k ==> after[j].key != after[k].key)
  {
    var after := FannedOut(outbox, endpoints, event, event + 1, now);
    var jobs := after.Keys - outbox.Keys;
    FannedOutJobs(outbox, endpoints, event, event + 1, now);
    forall j | j in jobs ensures after[j] == NewJob(endpoints[j - event - 1], event, now) {}
    forall e | e in endpoints ensures exists j :: j in jobs && after[j].job.payload.endpointId == e {
      var i :| 0 <= i < |endpoints| && endpoints[i] == e;
      assert event + 1 + i in after;
      assert event + 1 + i in jobs;
    }
    forall j, k | j in jobs && k in after && j != k ensures after[j].key != after[k].key {
      if k in jobs {
        assert endpoints[j - event - 1] != endpoints[k - event - 1];
      } else {
        assert after[k] == outbox[k];
      }
    }
  }

  // ----- Organizations and their owners -----

  predicate NameTaken(t: Tables, name: string) {
    exists o :: o in t.organizations && t.organizations[o] == name
  }

  function CreateVerdict(t: Tables, name: string, owner: nat, w: World): Outcome {
    if NameTaken(t, name) then OrganizationAlreadyExists
    else if OWNER !in w.roles then RoleNotFound
    else if owner !in w.users || !w.memberStored then NotStored
    else Done
  }

  function WithOrganization(t: Tables, id: nat, name: string, owner: nat): Tables {
    t.(organizations := t.organizations[id := name],
       members := t.members[id + 1 := Member(owner, id, OWNER)])
  }

  /** Taking the owner role from a member, or the member away, needs a second owner. */
  predicate MayStopOwning(t: Tables, member: nat)
    requires member in t.members
  {
    t.members[member].role == OWNER ==> |Owners(t, t.members[member].organization)| > 1
  }

  predicate IsMemberOf(t: Tables, member: nat, organization: nat) {
    member in t.members && t.members[member].organization == organization
  }

  /** The member owns its organization and nobody else does. */
  predicate IsOnlyOwner(t: Tables, member: nat) {
    && member in t.members && t.members[member].role == OWNER
    && forall m :: m in t.members && m != member && t.members[m].organization == t.members[member].organization ==>
         t.members[m].role != OWNER
  }

  /** The policy's count of owners says no exactly to the only owner. */
  lemma OnlyOwnerIff(t: Tables, member: nat)
    ensures member in t.members ==> (!MayStopOwning(t, member) <==> IsOnlyOwner(t, member))
  {
    if member in t.members && t.members[member].role == OWNER {
      var owners := Owners(t, t.members[member].organization);
      assert member in owners && |owners - {member}| == |owners| - 1;
      if IsOnlyOwner(t, member) {
        assert owners - {member} == {};
      } else {
        var m :| m in t.members && m != member && t.members[m].organization == t.members[member].organization
          && t.members[m].role == OWNER;
        assert m in owners - {member};
      }
    }
  }

  function ChangeVerdict(t: Tables, member: nat, organization: nat, role: RoleCode, w: World): Outcome {
    if member !in t.members || t.members[member].organization != organization then MemberNotFound
    else if role !in w.roles then RoleNotFound
    else if role != OWNER && !MayStopOwning(t, member) then LastOwner
    else if t.members[member].role != role && !w.auditStored then NotStored
    else Done
  }

  /** The audit row is a write of its own: when it fails the new role stays. */
  function WithRole(t: Tables, member: nat, organization: nat, role: RoleCode, w: World): Tables {
    var verdict := ChangeVerdict(t, member, organization, role, w);
    if (verdict != Done && verdict != NotStored) || member !in t.members || t.members[member].role == role then t
    else t.(members := t.members[member := t.members[member].(role := role)],
            audit := if w.auditStored then t.audit + [Audit(RoleChanged, organization, member)] else t.audit)
  }

  function RemoveVerdict(t: Tables, member: nat, organization: nat, w: World): Outcome {
    if member !in t.members || t.members[member].organization != organization then MemberNotFound
    else if !MayStopOwning(t, member) then LastOwner
    else if !w.auditStored then NotStored
    else Done
  }

  function WithoutMember(t: Tables, member: nat, organization: nat, w: World): Tables {
    var verdict := RemoveVerdict(t, member, organization, w);
    if verdict != Done && verdict != NotStored then t
    else t.(members := t.members - {member},
            audit := if w.auditStored then t.audit + [Audit(Removed, organization, member)] else t.audit)
  }

  class CreateOrganizationUseCase {
    const db: Database

    constructor (db: Database)
      ensures this.db == db
    {
      this.db := db;
    }

    /** Organization and owner together or neither, unless an enclosing transaction is open, which then decides. */
    method Execute(name: string, owner: nat, w: World) returns (outcome: Outcome)
      requires db.Valid()
      modifies db
      ensures db.Valid() && db.nextId >= old(db.nextId) && db.savepoint == old(db.savepoint)
      ensures outcome == CreateVerdict(old(db.tables), name, owner, w)
      ensures outcome == OrganizationAlreadyExists <==>
        exists o :: o in old(db.tables).organizations && old(db.tables).organizations[o] == name
      ensures outcome == Done <==>
        && (forall o :: o in old(db.tables).organizations ==> old(db.tables).organizations[o] != name)
        && OWNER in w.roles && owner in w.users && w.memberStored
      ensures outcome == Done ==>
        && db.tables.organizations == old(db.tables.organizations)[old(db.nextId) := name]
        && db.tables.members == old(db.tables.members)[old(db.nextId) + 1 := Member(owner, old(db.nextId), OWNER)]
        && db.tables.audit == old(db.tables.audit) && db.tables.outbox == old(db.tables.outbox)
      ensures outcome == Done ==> db.tables == WithOrganization(old(db.tables), old(db.nextId), name, owner)
      ensures outcome != Done && old(db.savepoint).None? ==> db.tables == old(db.tables)
    {
      var joined := db.Begin();
      if NameTaken(db.tables, name) {
        outcome := OrganizationAlreadyExists;
      } else if OWNER !in w.roles {
        outcome := RoleNotFound;
      } else {
        var id := db.Draw();
        db.tables := db.tables.(organizations := db.tables.organizations[id := name]);
        outcome := NotStored;
        if owner in w.users && w.memberStored {
          var member := db.Draw();
          db.tables := db.tables.(members := db.tables.members[member := Member(owner, id, OWNER)]);
          outcome := Done;
        }
      }
      db.End(joined, outcome != Done);
    }
  }

  class ChangeMemberRoleUseCase {
    const db: Database

    constructor (db: Database)
      ensures this.db == db
    {
      this.db := db;
    }

    method Execute(member: nat, organization: nat, role: RoleCode, w: World) returns (outcome: Outcome)
      modifies db`tables
      ensures outcome == ChangeVerdict(old(db.tables), member, organization, role, w)
      ensures db.tables == WithRole(old(db.tables), member, organization, role, w)
      ensures outcome == MemberNotFound <==> !IsMemberOf(old(db.tables), member, organization)
      ensures outcome == RoleNotFound <==> IsMemberOf(old(db.tables), member, organization) && role !in w.roles
      ensures outcome == LastOwner <==>
        && IsMemberOf(old(db.tables), member, organization) && role in w.roles && role != OWNER
        && IsOnlyOwner(old(db.tables), member)
      ensures db.tables.members ==
        if IsMemberOf(old(db.tables), member, organization) && (outcome == Done || outcome == NotStored)
        then old(db.tables.members)[member := old(db.tables.members)[member].(role := role)]
        else old(db.tables.members)
      ensures db.tables.audit == old(db.tables.audit) +
        if outcome == Done && old(db.tables.members)[member].role != role
        then [Audit(RoleChanged, organization, member)] else []
      ensures outcome == NotStored ==> !w.auditStored && old(db.tables.members)[member].role != role
    {
      OnlyOwnerIff(db.tables, member);
      if member !in db.tables.members || db.tables.members[member].organization != organization {
        return MemberNotFound;
      }
      var target := db.tables.members[member];
      if role !in w.roles {
        return RoleNotFound;
      }
      if target.role == OWNER && role != OWNER && |Owners(db.tables, organization)| <= 1 {
        return LastOwner;
      }
      if target.role == role {
        return Done;
      }
      db.tables := db.tables.(members := db.tables.members[member := target.(role := role)]);
      if !w.auditStored {
        return NotStored;
      }
      db.tables := db.tables.(audit := db.tables.audit + [Audit(RoleChanged, organization, member)]);
      outcome := Done;
    }
  }

  class RemoveMemberUseCase {
    const db: Database

    constructor (db: Database)
      ensures this.db == db
    {
      this.db := db;
    }

    method Execute(member: nat, organization: nat, w: World) returns (outcome: Outcome)
      modifies db`tables
      ensures outcome == RemoveVerdict(old(db.tables), member, organization, w)
      ensures db.tables == WithoutMember(old(db.tables), member, organization, w)
      ensures outcome == MemberNotFound <==> !IsMemberOf(old(db.tables), member, organization)
      ensures outcome == LastOwner <==>
        IsMemberOf(old(db.tables), member, organization) && IsOnlyOwner(old(db.tables), member)
      ensures db.tables.members ==
        if outcome == Done || outcome == NotStored then old(db.tables.members) - {member}
        else old(db.tables.members)
      ensures db.tables.audit == old(db.tables.audit) +
        if outcome == Done then [Audit(Removed, organization, member)] else []
      ensures outcome == NotStored ==> !w.auditStored
    {
      OnlyOwnerIff(db.tables, member);
      if member !in db.tables.members || db.tables.members[member].organization != organization {
        return MemberNotFound;
      }
      if db.tables.members[member].role == OWNER && |Owners(db.tables, organization)| <= 1 {
        return LastOwner;
      }
      db.tables := db.tables.(members := db.tables.members - {member});
      if !w.auditStored {
        return NotStored;
      }
      db.tables := db.tables.(audit := db.tables.audit + [Audit(Removed, organization, member)]);
      outcome := Done;
    }
  }

  // ----- Runs of requests, one after the other -----

  datatype Request =
    | CreateOrganization(id: nat, name: string, owner: nat)
    | AddMember(id: nat, organization: nat, user: nat, role: RoleCode, now: Time)
    | ChangeRole(member: nat, organization: nat, role: RoleCode)
    | RemoveMember(member: nat, organization: nat)

  function After(t: Tables, r: Request, w: World): Tables {
    match r
    case CreateOrganization(id, name, owner) =>
      if CreateVerdict(t, name, owner, w) == Done then WithOrganization(t, id, name, owner) else t
    case AddMember(id, organization, user, role, now) =>
      if AddVerdict(t, organization, user, role, w) == Done
      then WithMember(t, id, organization, user, role, w.endpoints, now) else t
    case ChangeRole(member, organization, role) => WithRole(t, member, organization, role, w)
    case RemoveMember(member, organization) => WithoutMember(t, member, organization, w)
  }

  /** Identifiers are drawn fresh, and a query lists an endpoint once. */
  ghost predicate Possible(t: Tables, r: Request, w: World) {
    && Distinct(w.endpoints)
    && (r.CreateOrganization? || r.AddMember? ==> FreshFrom(t, r.id))
  }

  ghost predicate Runs(t: Tables, requests: seq<(Request, World)>, t': Tables)
    decreases |requests|
  {
    if requests == [] then t == t'
    else Possible(t, requests[0].0, requests[0].1) && Runs(After(t, requests[0].0, requests[0].1), requests[1..], t')
  }

  ghost predicate Governed(t: Tables) {
    && (forall o :: o in t.organizations ==> Owners(t, o) != {})
    && (forall m :: m in t.members ==> t.members[m].organization in t.organizations)
    && (forall m, n :: m in t.members && n in t.members && m != n ==>
          t.members[m].user != t.members[n].user || t.members[m].organization != t.members[n].organization)
  }

  ghost predicate KeysDiffer(outbox: map<JobId, Queued>) {
    forall j, k :: j in outbox && k in outbox && j != k ==> outbox[j].key != outbox[k].key
  }

  /** A change to one member that leaves another owner in its organization keeps every organization owned. */
  lemma OwnersRemain(t: Tables, t': Tables, member: nat)
    requires Governed(t) && member in t.members && t'.organizations == t.organizations
    requires forall m :: m in t.members && m != member ==> m in t'.members && t'.members[m] == t.members[m]
    requires MayStopOwning(t, member) ||
      (member in t'.members && t'.members[member] == t.members[member].(role := OWNER))
    ensures forall o :: o in t'.organizations ==> Owners(t', o) != {}
  {
    forall o | o in t'.organizations ensures Owners(t', o) != {} {
      var owners := Owners(t, o);
      var other :| other in owners;
      if other == member && MayStopOwning(t, member) {
        assert |owners - {member}| == |owners| - 1;
        other :| other in owners - {member};
      }
      assert other in Owners(t', o);
    }
  }

  lemma KeysStayDistinct(outbox: map<JobId, Queued>, endpoints: seq<nat>, event: nat, now: Time)
    requires Distinct(endpoints) && KeysDiffer(outbox)
    requires forall j :: j in outbox ==> j < event && outbox[j].key.eventId < event
    ensures KeysDiffer(FannedOut(outbox, endpoints, event, event + 1, now))
  {
    OneJobPerEndpoint(outbox, endpoints, event, now);
    FannedOutJobs(outbox, endpoints, event, event + 1, now);
  }

  lemma OwnersStay(t: Tables, t': Tables)
    requires forall m :: m in t.members ==> m in t'.members && t'.members[m] == t.members[m]
    ensures forall o :: Owners(t, o) != {} ==> Owners(t', o) != {}
  {
    forall o | Owners(t, o) != {} ensures Owners(t', o) != {} {
      var owner :| owner in Owners(t, o);
      assert owner in Owners(t', o);
    }
  }

  lemma NewMemberKeeps(t: Tables, t': Tables, id: nat, member: Member)
    requires Governed(t) && id !in t.members
    requires t'.members == t.members[id := member] && t'.organizations == t.organizations
    requires member.organization in t.organizations && !IsMember(t, member.user, member.organization)
    ensures Governed(t')
  {
    OwnersStay(t, t');
    forall m | m in t.members
      ensures t.members[m].user != member.user || t.members[m].organization != member.organization
    {
      assert m in InOrganization(t, t.members[m].organization);
    }
  }

  lemma AddKeeps(t: Tables, id: nat, organization: nat, user: nat, role: RoleCode, w: World, now: Time)
    requires Governed(t) && KeysDiffer(t.outbox) && FreshFrom(t, id) && Distinct(w.endpoints)
    requires AddVerdict(t, organization, user, role, w) == Done
    ensures var t' := WithMember(t, id, organization, user, role, w.endpoints, now);
      Governed(t') && KeysDiffer(t'.outbox)
  {
    var t' := WithMember(t, id, organization, user, role, w.endpoints, now);
    NewMemberKeeps(t, t', id, Member(user, organization, role));
    KeysStayDistinct(t.outbox, w.endpoints, id + 1, now);
  }

  lemma CreateKeeps(t: Tables, id: nat, name: string, owner: nat)
    requires Governed(t) && FreshFrom(t, id)
    ensures Governed(WithOrganization(t, id, name, owner))
  {
    var t' := WithOrganization(t, id, name, owner);
    assert id + 1 in Owners(t', id);
    OwnersStay(t, t');
  }

  lemma ChangeKeeps(t: Tables, member: nat, organization: nat, role: RoleCode, w: World)
    requires Governed(t)
    ensures Governed(WithRole(t, member, organization, role, w))
    ensures WithRole(t, member, organization, role, w).outbox == t.outbox
  {
    var t' := WithRole(t, member, organization, role, w);
    if t' != t {
      OwnersRemain(t, t', member);
    }
  }

  lemma RemoveKeeps(t: Tables, member: nat, organization: nat, w: World)
    requires Governed(t)
    ensures Governed(WithoutMember(t, member, organization, w))
    ensures WithoutMember(t, member, organization, w).outbox == t.outbox
  {
    var t' := WithoutMember(t, member, organization, w);
    if t' != t {
      OwnersRemain(t, t', member);
    }
  }

  lemma RequestKeeps(t: Tables, r: Request, w: World)
    requires Governed(t) && KeysDiffer(t.outbox) && Possible(t, r, w)
    ensures Governed(After(t, r, w)) && KeysDiffer(After(t, r, w).outbox)
  {
    match r
    case CreateOrganization(id, name, owner) => CreateKeeps(t, id, name, owner);
    case AddMember(id, organization, user, role, now) =>
      if AddVerdict(t, organization, user, role, w) == Done {
        AddKeeps(t, id, organization, user, role, w, now);
      }
    case ChangeRole(member, organization, role) => ChangeKeeps(t, member, organization, role, w);
    case RemoveMember(member, organization) => RemoveKeeps(t, member, organization, w);
  }

  lemma {:induction false} RunKeeps(t: Tables, requests: seq<(Request, World)>, t': Tables)
    requires Governed(t) && KeysDiffer(t.outbox) && Runs(t, requests, t')
    ensures Governed(t') && KeysDiffer(t'.outbox)
    decreases |requests|
  {
    if requests == [] {
    } else {
      RequestKeeps(t, requests[0].0, requests[0].1);
      RunKeeps(After(t, requests[0].0, requests[0].1), requests[1..], t');
    }
  }

  /**
   After any requests, every organization has an owner, nobody is a member of one organization twice, and no
   two queued webhook jobs share a deduplication key.
   */
  lemma EveryOrganizationIsOwned(requests: seq<(Request, World)>, t: Tables)
    requires Runs(Tables(map[], map[], [], map[]), requests, t)
    ensures forall o :: o in t.organizations ==> exists m :: m in InOrganization(t, o) && t.members[m].role == OWNER
    ensures forall m, n :: m in t.members && n in t.members && m != n ==>
      t.members[m].user != t.members[n].user || t.members[m].organization != t.members[n].organization
    ensures KeysDiffer(t.outbox)
  {
    RunKeeps(Tables(map[], map[], [], map[]), requests, t);
    forall o | o in t.organizations ensures exists m :: m in InOrganization(t, o) && t.members[m].role == OWNER {
      var m :| m in Owners(t, o);
    }
  }
}
