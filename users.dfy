/** The `User` table as the billing routes see it through Prisma: a record per
    user, the partial updates (`data: {...}`) the routes write, and the two
    lookups they use (`findUnique` by email, `findFirst` by customer id). */
module Users {
  import opened Common

  /** The `subscriptionStatus` values the webhook writes. */
  datatype Status = Active | Inactive | Canceled | PastDue

  /** The string Prisma stores (and the usage endpoint reports) for a status. */
  function StatusName(s: Status): (name: string)
    ensures name != ""
  {
    match s
    case Active => "ACTIVE"
    case Inactive => "INACTIVE"
    case Canceled => "CANCELED"
    case PastDue => "PAST_DUE"
  }

  lemma StatusNamesDistinct(a: Status, b: Status)
    ensures StatusName(a) == StatusName(b) <==> a == b
  {
  }

  /** The columns of a user record that the billing code reads or writes. */
  datatype User = User(
    id: string,
    email: string,
    plan: string,
    messagesLimit: int,
    messagesUsed: int,
    stripeCustomerId: Option<string>,
    stripeSubscriptionId: Option<string>,
    subscriptionStatus: Option<Status>)

  /** The `data` argument of `prisma.user.update`: `Some` for each column written.
      `id` and `email` are never written by the billing code. */
  datatype Patch = Patch(
    plan: Option<string>,
    messagesLimit: Option<int>,
    messagesUsed: Option<int>,
    stripeCustomerId: Option<string>,
    stripeSubscriptionId: Option<Option<string>>,
    subscriptionStatus: Option<Status>)

  const NoChange: Patch := Patch(None, None, None, None, None, None)

  function Override<T>(current: T, written: Option<T>): T
  {
    if written.Some? then written.value else current
  }

  /** The record after Prisma writes the columns of `p`. */
  function ApplyPatch(u: User, p: Patch): (r: User)
    ensures r.id == u.id && r.email == u.email
  {
    User(u.id, u.email,
         Override(u.plan, p.plan),
         Override(u.messagesLimit, p.messagesLimit),
         Override(u.messagesUsed, p.messagesUsed),
         if p.stripeCustomerId.Some? then Some(p.stripeCustomerId.value) else u.stripeCustomerId,
         Override(u.stripeSubscriptionId, p.stripeSubscriptionId),
         if p.subscriptionStatus.Some? then Some(p.subscriptionStatus.value) else u.subscriptionStatus)
  }

  /** A column the patch does not name keeps its value; a named one takes the
      patch's value. */
  lemma ApplyPatchFrame(u: User, p: Patch)
    ensures var r := ApplyPatch(u, p);
      && (p.plan.None? ==> r.plan == u.plan)
      && (p.plan.Some? ==> r.plan == p.plan.value)
      && (p.messagesLimit.None? ==> r.messagesLimit == u.messagesLimit)
      && (p.messagesLimit.Some? ==> r.messagesLimit == p.messagesLimit.value)
      && (p.messagesUsed.None? ==> r.messagesUsed == u.messagesUsed)
      && (p.messagesUsed.Some? ==> r.messagesUsed == p.messagesUsed.value)
      && (p.stripeCustomerId.None? ==> r.stripeCustomerId == u.stripeCustomerId)
      && (p.stripeCustomerId.Some? ==> r.stripeCustomerId == Some(p.stripeCustomerId.value))
      && (p.stripeSubscriptionId.None? ==> r.stripeSubscriptionId == u.stripeSubscriptionId)
      && (p.stripeSubscriptionId.Some? ==> r.stripeSubscriptionId == p.stripeSubscriptionId.value)
      && (p.subscriptionStatus.None? ==> r.subscriptionStatus == u.subscriptionStatus)
      && (p.subscriptionStatus.Some? ==> r.subscriptionStatus == Some(p.subscriptionStatus.value))
  {
  }

  /** Writing the same columns twice leaves what writing them once left. */
  lemma ApplyPatchIdempotent(u: User, p: Patch)
    ensures ApplyPatch(ApplyPatch(u, p), p) == ApplyPatch(u, p)
  {
  }

  /** The table: the rows in the order `findFirst` scans them (with no
      `orderBy` the database promises some fixed but unspecified order; the
      model takes it as given) and the record stored under each id. */
  datatype Table = Table(rows: seq<string>, users: map<string, User>)

  /** Ids are unique and are the map's keys, each record carries its own id,
      and `email` is a unique column. */
  predicate WellFormed(t: Table)
  {
    && (forall i, j :: 0 <= i < j < |t.rows| ==> t.rows[i] != t.rows[j])
    && (forall i :: 0 <= i < |t.rows| ==> t.rows[i] in t.users)
    && (forall k :: k in t.users ==> k in t.rows)
    && (forall k :: k in t.users ==> t.users[k].id == k)
    && (forall a, b :: a in t.users && b in t.users && t.users[a].email == t.users[b].email ==> a == b)
  }

  /** Position of the first row, in scan order, whose record satisfies `p`. */
  function FirstIndex(rows: seq<string>, users: map<string, User>, p: User -> bool): (r: Option<nat>)
    requires forall i :: 0 <= i < |rows| ==> rows[i] in users
    ensures r.Some? ==> r.value < |rows| && p(users[rows[r.value]])
    ensures r.Some? ==> forall j :: 0 <= j < r.value ==> !p(users[rows[j]])
    ensures r.None? ==> forall j :: 0 <= j < |rows| ==> !p(users[rows[j]])
    decreases |rows|
  {
    if rows == [] then None
    else if p(users[rows[0]]) then Some(0)
    else match FirstIndex(rows[1..], users, p)
      case None => None
      case Some(k) => Some(k + 1)
  }

  /** Two tables whose rows answer `p` alike give the same first match. */
  lemma {:induction false} FirstIndexStable(rows: seq<string>, users: map<string, User>, users': map<string, User>, p: User -> bool)
    requires forall i :: 0 <= i < |rows| ==> rows[i] in users && rows[i] in users'
    requires forall i :: 0 <= i < |rows| ==> p(users[rows[i]]) == p(users'[rows[i]])
    ensures FirstIndex(rows, users, p) == FirstIndex(rows, users', p)
    decreases |rows|
  {
    if rows != [] {
      FirstIndexStable(rows[1..], users, users', p);
    }
  }

  /** `findFirst({ where })`: the id of the first record, in scan order, that
      satisfies the filter. */
  function FindFirst(t: Table, p: User -> bool): (r: Option<string>)
    requires WellFormed(t)
    ensures r.Some? ==> r.value in t.users && p(t.users[r.value])
    ensures r.None? ==> forall k :: k in t.users ==> !p(t.users[k])
  {
    match FirstIndex(t.rows, t.users, p)
    case None => None
    case Some(i) => Some(t.rows[i])
  }

  /** `findFirst({ where: { stripeCustomerId } })`. A `null` id (`None`) is
      Prisma's `IS NULL` filter: it finds a user with no customer id stored. */
  function FindByCustomer(t: Table, customerId: Option<string>): (r: Option<string>)
    requires WellFormed(t)
    ensures r.Some? ==> r.value in t.users && t.users[r.value].stripeCustomerId == customerId
    ensures r.None? ==> forall k :: k in t.users ==> t.users[k].stripeCustomerId != customerId
  {
    FindFirst(t, (u: User) => u.stripeCustomerId == customerId)
  }

  /** `findUnique({ where: { email } })`: since `email` is unique, the record
      found is the only one with that email. */
  function FindByEmail(t: Table, email: string): (r: Option<string>)
    requires WellFormed(t)
    ensures r.Some? ==> r.value in t.users && t.users[r.value].email == email
    ensures r.Some? ==> forall k :: k in t.users && t.users[k].email == email ==> k == r.value
    ensures r.None? ==> forall k :: k in t.users ==> t.users[k].email != email
  {
    FindFirst(t, (u: User) => u.email == email)
  }

  /** Two tables with the same rows and the same customer id on every record
      resolve every customer id to the same user. */
  lemma FindByCustomerStable(t: Table, t': Table, customerId: Option<string>)
    requires WellFormed(t) && WellFormed(t')
    requires t'.rows == t.rows
    requires forall k :: k in t.users ==> k in t'.users && t'.users[k].stripeCustomerId == t.users[k].stripeCustomerId
    ensures FindByCustomer(t', customerId) == FindByCustomer(t, customerId)
  {
    FirstIndexStable(t.rows, t.users, t'.users, (u: User) => u.stripeCustomerId == customerId);
  }

  /** Every record but `id` is as it was, and no record appeared or vanished. */
  predicate OnlyChanged(t: Table, t': Table, id: string)
  {
    && t'.rows == t.rows
    && t'.users.Keys == t.users.Keys
    && (forall k :: k in t.users && k != id ==> t'.users[k] == t.users[k])
  }

  /** `update({ where: { id }, data: p })`: `None` when no record has that id
      (Prisma throws); otherwise only that record changes, as `p` says. */
  function Updated(t: Table, id: string, p: Patch): (r: Option<Table>)
    requires WellFormed(t)
    ensures r.Some? <==> id in t.users
    ensures r.Some? ==> WellFormed(r.value)
    ensures r.Some? ==> OnlyChanged(t, r.value, id) && r.value.users[id] == ApplyPatch(t.users[id], p)
  {
    if id in t.users then Some(Table(t.rows, t.users[id := ApplyPatch(t.users[id], p)])) else None
  }

  /** Writing the same patch to the same record twice leaves what writing it
      once left. */
  lemma UpdatedIdempotent(t: Table, id: string, p: Patch)
    requires WellFormed(t) && id in t.users
    ensures Updated(Updated(t, id, p).value, id, p) == Updated(t, id, p)
  {
    var t1 := Updated(t, id, p).value;
    ApplyPatchIdempotent(t.users[id], p);
    assert t1.users[id := ApplyPatch(t1.users[id], p)] == t1.users;
  }

  /** The rows, the ids, and every record's email and customer id are as they
      were. */
  predicate KeepsIdentity(t: Table, t': Table)
  {
    && t'.rows == t.rows
    && t'.users.Keys == t.users.Keys
    && (forall k :: k in t.users ==>
          && k in t'.users
          && t'.users[k].stripeCustomerId == t.users[k].stripeCustomerId
          && t'.users[k].email == t.users[k].email)
  }

  /** A patch that does not write the customer id keeps every record's
      identity. */
  lemma UpdatedKeepsIdentity(t: Table, id: string, p: Patch)
    requires WellFormed(t) && id in t.users && p.stripeCustomerId.None?
    ensures KeepsIdentity(t, Updated(t, id, p).value)
  {
    ApplyPatchFrame(t.users[id], p);
  }

  /** The user table that the route handlers read and update in place. */
  class UserStore {
    var rows: seq<string>
    var users: map<string, User>

    ghost predicate Valid()
      reads this
    {
      WellFormed(Table(rows, users))
    }

    /** The table's current contents as a value. */
    function Snapshot(): Table
      reads this
    {
      Table(rows, users)
    }

    constructor (initial: Table)
      requires WellFormed(initial)
      ensures Valid() && Snapshot() == initial
    {
      rows := initial.rows;
      users := initial.users;
    }

    /** `prisma.user.update`: writes the columns of `p` on record `id`;
        `found` is false, and nothing is written, when there is no such record. */
    method Update(id: string, p: Patch) returns (found: bool)
      requires Valid()
      modifies this
      ensures Valid()
      ensures found == (id in old(users))
      ensures Updated(old(Snapshot()), id, p) == (if found then Some(Snapshot()) else None)
      ensures !found ==> Snapshot() == old(Snapshot())
    {
      found := id in users;
      if found {
        users := users[id := ApplyPatch(users[id], p)];
      }
    }
  }
}
